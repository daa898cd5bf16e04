/**
 The power sequencing of the 4-lane Formike KWH070KQ40 panel driver: the
 four DRM panel callbacks (prepare, enable, disable, unprepare) as scripts
 for the sequencer, the link configuration its probe sets up, and its mode
 provider.
 */
module Kwh070kq40 {
  import opened Dsi
  import opened Gpio
  import opened Sequencer
  import opened DisplayMode
  import Timing = Kwh070kq40Timing

  /** Configuration read from the "panel-config" node at probe. */
  datatype Config = Config(testPattern: bool)

  /** The DSI link probe configures before attaching. */
  const ProbeLink: Link := Link(4, Rgb888, {VideoHse, Video, VideoBurst, VideoSyncPulse})

  /** The state right after probe: every line requested low, the link flags set. */
  const Probed: State := State(AllLow, ProbeLink.flags)

  /** The signal part of prepare, before any DCS command. */
  const PowerUp: seq<Action> := [
    Msleep(20),
    SetGpio(Power, true),
    Msleep(20),
    SetGpio(Reset, true),
    Msleep(10),
    SetGpio(Reset, false),
    Msleep(10),
    SetGpio(Reset, true),
    Msleep(120)
  ]

  /** The commands prepare sends when the test pattern is configured. */
  const TestPatternCommands: seq<Step> := [
    Send(EnableExtendedCommands, AbortIfNegative),
    Send(SetTestPattern, AbortIfNegative)
  ]

  function PrepareScript(cfg: Config): seq<Step> {
    Acts(PowerUp) + (if cfg.testPattern then TestPatternCommands else [])
  }

  const EnableScript: seq<Step> := [
    Do(OrFlag(LowPower)),
    Send(SetTearOn(VBlank), AbortIfNonzero),
    Send(ExitSleepMode, AbortIfNonzero),
    Do(Msleep(120)),
    Send(SetDisplayOn, Ignore)
  ]

  const DisableScript: seq<Step> := [Send(EnterSleepMode, ReturnResult)]

  const PowerDown: seq<Action> := [SetGpio(Reset, false), SetGpio(Power, false)]

  function Prepare(cfg: Config, st: State, o: Oracle): Outcome {
    Run(PrepareScript(cfg), o, 0, st)
  }

  function Enable(st: State, o: Oracle): Outcome {
    Run(EnableScript, o, 0, st)
  }

  function Disable(st: State, o: Oracle): Outcome {
    Run(DisableScript, o, 0, st)
  }

  function Unprepare(st: State, o: Oracle): Outcome {
    Run(Acts(PowerDown), o, 0, st)
  }

  /** Prepare runs the whole power-up sequence, whatever the configuration
      and the command results, before it sends any DCS command; it only ever
      drives power and reset and leaves both high. */
  lemma PrepareSequencesFirst(cfg: Config, st: State, o: Oracle)
    ensures var out := Prepare(cfg, st, o);
            && |out.trace| >= |PowerUp|
            && out.trace[..|PowerUp|] == PowerUp
            && CommandsOnly(out.trace[|PowerUp|..])
            && Untouched(out.trace, Updn) && Untouched(out.trace, Shlr)
            && out.state == Powered(st)
  {
    var q := if cfg.testPattern then TestPatternCommands else [];
    RunActs(PowerUp, q, o, 0, st);
    PowerUpDrivesPowerAndReset(st);
    var rest := Run(q, o, 0, Powered(st));
    var out := Prepare(cfg, st, o);
    assert out.trace == PowerUp + rest.trace;
    assert out.state == rest.state;
    assert CommandsOnly(rest.trace) by {
      RunFollowsScript(q, o, 0, Powered(st));
      forall i | 0 <= i < |rest.trace| ensures rest.trace[i].Dcs? {
        assert rest.trace[i] == EffectOf(q[i]);
      }
    }
    assert rest.state == Powered(st) by {
      RunFollowsScript(q, o, 0, Powered(st));
      CommandsKeepState(Powered(st), rest.trace);
    }
    assert out.trace[..|PowerUp|] == PowerUp;
    assert out.trace[|PowerUp|..] == rest.trace;
    UntouchedAppend(PowerUp, rest.trace, Updn);
    UntouchedAppend(PowerUp, rest.trace, Shlr);
  }

  lemma PowerUpDrivesPowerAndReset(st: State)
    ensures Replay(st, PowerUp) == Powered(st)
    ensures Untouched(PowerUp, Updn) && Untouched(PowerUp, Shlr)
  {
  }

  /** Without the test pattern prepare sends nothing and succeeds. */
  lemma PrepareWithoutTestPattern(cfg: Config, st: State, o: Oracle)
    requires !cfg.testPattern
    ensures var out := Prepare(cfg, st, o);
            out.trace == PowerUp && out.ret == 0 && out.state == Powered(st)
  {
    RunActs(PowerUp, [], o, 0, st);
  }

  /** With the test pattern, a failing first write is returned and the
      second write is never sent. */
  lemma PrepareFirstWriteFails(cfg: Config, st: State, o: Oracle)
    requires cfg.testPattern && o(0) < 0
    ensures var out := Prepare(cfg, st, o);
            out.trace == PowerUp + [Dcs(EnableExtendedCommands)] && out.ret == o(0)
            && out.state == Powered(st)
  {
    RunActs(PowerUp, TestPatternCommands, o, 0, st);
    assert TestPatternCommands == [Send(EnableExtendedCommands, AbortIfNegative)] + [Send(SetTestPattern, AbortIfNegative)];
    RunSend(EnableExtendedCommands, AbortIfNegative, [Send(SetTestPattern, AbortIfNegative)], o, 0, Replay(st, PowerUp));
  }

  /** With the test pattern and a successful first write, both writes are
      sent in order and prepare returns the second one's error, or 0. */
  lemma PrepareBothWrites(cfg: Config, st: State, o: Oracle)
    requires cfg.testPattern && o(0) >= 0
    ensures var out := Prepare(cfg, st, o);
            && out.trace == PowerUp + [Dcs(EnableExtendedCommands), Dcs(SetTestPattern)]
            && out.ret == (if o(1) < 0 then o(1) else 0)
            && out.state == Powered(st)
  {
    var lv := Replay(st, PowerUp);
    RunActs(PowerUp, TestPatternCommands, o, 0, st);
    assert TestPatternCommands == [Send(EnableExtendedCommands, AbortIfNegative)] + [Send(SetTestPattern, AbortIfNegative)];
    RunSend(EnableExtendedCommands, AbortIfNegative, [Send(SetTestPattern, AbortIfNegative)], o, 0, lv);
    assert [Send(SetTestPattern, AbortIfNegative)] == [Send(SetTestPattern, AbortIfNegative)] + [];
    RunSend(SetTestPattern, AbortIfNegative, [], o, 1, lv);
  }

  /** Enable: low-power mode first; a failing set_tear_on is returned and
      nothing more is sent. */
  lemma EnableTearOnFails(st: State, o: Oracle)
    requires o(0) != 0
    ensures var out := Enable(st, o);
            && out.trace == [OrFlag(LowPower), Dcs(SetTearOn(VBlank))]
            && out.ret == o(0)
            && out.state == st.(flags := st.flags + {LowPower})
  {
    EnableUnfolds(st, o);
  }

  /** A failing exit_sleep_mode is returned: no sleep, no display-on. */
  lemma EnableExitSleepFails(st: State, o: Oracle)
    requires o(0) == 0 && o(1) != 0
    ensures var out := Enable(st, o);
            && out.trace == [OrFlag(LowPower), Dcs(SetTearOn(VBlank)), Dcs(ExitSleepMode)]
            && out.ret == o(1)
            && out.state == st.(flags := st.flags + {LowPower})
  {
    EnableUnfolds(st, o);
  }

  /** Both checks pass: sleep 120 ms, display on, and return 0 whatever the
      display-on status. */
  lemma EnableSucceeds(st: State, o: Oracle)
    requires o(0) == 0 && o(1) == 0
    ensures var out := Enable(st, o);
            && out.trace == [OrFlag(LowPower), Dcs(SetTearOn(VBlank)), Dcs(ExitSleepMode), Msleep(120), Dcs(SetDisplayOn)]
            && out.ret == 0
            && out.state == st.(flags := st.flags + {LowPower})
  {
    EnableUnfolds(st, o);
  }

  /** The enable script, unfolded one step at a time. */
  lemma EnableUnfolds(st: State, o: Oracle)
    ensures
      var lp := st.(flags := st.flags + {LowPower});
      Enable(st, o)
        == if o(0) != 0 then Outcome([OrFlag(LowPower), Dcs(SetTearOn(VBlank))], o(0), lp)
           else if o(1) != 0 then Outcome([OrFlag(LowPower), Dcs(SetTearOn(VBlank)), Dcs(ExitSleepMode)], o(1), lp)
           else Outcome([OrFlag(LowPower), Dcs(SetTearOn(VBlank)), Dcs(ExitSleepMode), Msleep(120), Dcs(SetDisplayOn)], 0, lp)
  {
    var lp := st.(flags := st.flags + {LowPower});
    var s4: seq<Step> := [Send(SetDisplayOn, Ignore)];
    var s3: seq<Step> := [Do(Msleep(120))] + s4;
    var s2: seq<Step> := [Send(ExitSleepMode, AbortIfNonzero)] + s3;
    var s1: seq<Step> := [Send(SetTearOn(VBlank), AbortIfNonzero)] + s2;
    assert EnableScript == [Do(OrFlag(LowPower))] + s1;
    var r4 := Run(s4, o, 2, lp);
    assert r4 == Outcome([Dcs(SetDisplayOn)], 0, lp) by {
      assert s4 == s4 + [];
      RunSend(SetDisplayOn, Ignore, [], o, 2, lp);
    }
    var r3 := Run(s3, o, 2, lp);
    assert r3 == Outcome([Msleep(120), Dcs(SetDisplayOn)], 0, lp) by {
      RunDo(Msleep(120), s4, o, 2, lp);
    }
    var r2 := Run(s2, o, 1, lp);
    assert r2 == if o(1) != 0 then Outcome([Dcs(ExitSleepMode)], o(1), lp)
                 else Outcome([Dcs(ExitSleepMode)] + r3.trace, 0, lp) by {
      RunSend(ExitSleepMode, AbortIfNonzero, s3, o, 1, lp);
    }
    var r1 := Run(s1, o, 0, lp);
    assert r1 == if o(0) != 0 then Outcome([Dcs(SetTearOn(VBlank))], o(0), lp)
                 else Outcome([Dcs(SetTearOn(VBlank))] + r2.trace, r2.ret, lp) by {
      RunSend(SetTearOn(VBlank), AbortIfNonzero, s2, o, 0, lp);
    }
    assert Enable(st, o) == Outcome([OrFlag(LowPower)] + r1.trace, r1.ret, lp) by {
      RunDo(OrFlag(LowPower), s1, o, 0, st);
    }
  }

  /** Disable sends exactly enter_sleep_mode and returns its status. */
  lemma DisableSendsEnterSleep(st: State, o: Oracle)
    ensures var out := Disable(st, o);
            out.trace == [Dcs(EnterSleepMode)] && out.ret == o(0) && out.state == st
  {
    assert DisableScript == [Send(EnterSleepMode, ReturnResult)] + [];
    RunSend(EnterSleepMode, ReturnResult, [], o, 0, st);
  }

  /** Unprepare drives reset then power low, sends nothing and succeeds. */
  lemma UnpreparePowersDown(st: State, o: Oracle)
    ensures var out := Unprepare(st, o);
            && out.trace == PowerDown && out.ret == 0
            && out.state == st.(levels := st.levels.(power := false, reset := false))
  {
    RunActs(PowerDown, [], o, 0, st);
    assert Acts(PowerDown) + [] == Acts(PowerDown);
  }

  const DefaultMode: Mode := Mode(
    55555,
    1024, 1024 + 160, 1024 + 160 + 80, 1024 + 160 + 80 + 80,
    600, 600 + 12, 600 + 12 + 10, 600 + 12 + 10 + 13,
    154, 86)

  /** `kwh070kq40_panel_get_modes`. `duplicated` says whether the copy of
      the default mode could be allocated. The copy is overridden from the
      "panel-timing" child of the panel's node; any error from that is
      returned as it is, with no fallback to the default mode. */
  function GetModes(np: Option<Timing.Node>, duplicated: bool): (r: ModeList)
    ensures !duplicated ==> r == ModeList(-EINVAL, [], None)
    ensures duplicated && np.None? ==> r == ModeList(-EINVAL, [], None)
    ensures duplicated && np.Some? && "panel-timing" !in np.value.children ==> r == ModeList(-ENOENT, [], None)
    ensures duplicated && np.Some? && "panel-timing" in np.value.children
            && !(Timing.TimingProperties <= np.value.children["panel-timing"].Keys)
            ==> r == ModeList(-EINVAL, [], None)
    ensures r.ret == 1 <==> duplicated && np.Some? && "panel-timing" in np.value.children
                            && Timing.TimingProperties <= np.value.children["panel-timing"].Keys
    ensures r.ret != 1 ==> r.ret < 0 && r.probed == [] && r.info.None?
    ensures r.ret == 1 ==>
              && |r.probed| == 1 && r.probed[0].types == {Driver, Preferred}
              && r.probed[0].mode.hdisplay == 1024
              && r.info == Some(DisplayInfo(8, 154, 86, [Rgb888_1x24]))
  {
    if !duplicated then ModeList(-EINVAL, [], None)
    else
      var p := Timing.OfGetDisplayTiming(np, "panel-timing", DefaultMode);
      if p.ret < 0 then ModeList(p.ret, [], None)
      else Reported(p.mode)
  }

  /** A successful get_modes reports the default mode with all nine timing
      fields of the node applied, except hdisplay, which stays 1024. */
  lemma GetModesOverridesAllButHdisplay(np: Option<Timing.Node>)
    requires np.Some? && "panel-timing" in np.value.children
    requires Timing.TimingProperties <= np.value.children["panel-timing"].Keys
    ensures GetModes(np, true)
         == Reported(Timing.FromProperties(np.value.children["panel-timing"], DefaultMode).(hdisplay := 1024))
  {
    Timing.AsWrittenDropsOnlyHdisplay(np.value.children["panel-timing"], DefaultMode);
  }

  /** A complete node whose hdisplay differs from the default: the parser
      as written reports success yet the mode keeps hdisplay 1024. */
  lemma HdisplayIsDropped()
    ensures var props: Timing.Props := map[
              "clock-frequency" := 51200, "hdisplay" := 800, "hsync_start" := 840,
              "hsync_end" := 888, "htotal" := 928, "vdisplay" := 480,
              "vsync_start" := 493, "vsync_end" := 496, "vtotal" := 525];
            && Timing.ParseDisplayTiming(props, DefaultMode).ret == 0
            && Timing.ParseDisplayTiming(props, DefaultMode).mode.hdisplay == 1024
            && Timing.ParseDisplayTimingIntended(props, DefaultMode).mode.hdisplay == 800
  {
  }
}
