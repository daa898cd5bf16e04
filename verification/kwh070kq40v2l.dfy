/**
 The power sequencing of the 2-lane Formike KWH070KQ40 panel driver: the
 four DRM panel callbacks as scripts for the sequencer, and the link
 configuration its probe sets up. Unlike the 4-lane driver it has no
 configuration: prepare always switches the controller to two lanes.
 */
module Kwh070kq40v2l {
  import opened Dsi
  import opened Gpio
  import opened Sequencer
  import opened DisplayMode

  /** The DSI link probe configures before attaching. */
  const ProbeLink: Link := Link(2, Rgb888, {VideoHse, Video, ClockNonContinuous, VideoBurst})

  /** The state right after probe: every line requested low, the link flags set. */
  const Probed: State := State(AllLow, ProbeLink.flags)

  /** The signal part of prepare: power is dropped first and raised last. */
  const PowerUp: seq<Action> := [
    SetGpio(Power, false),
    Msleep(120),
    SetGpio(Reset, true),
    Msleep(10),
    SetGpio(Reset, false),
    Msleep(10),
    SetGpio(Reset, true),
    Msleep(120),
    SetGpio(Power, true)
  ]

  const LaneCommands: seq<Step> := [
    Send(EnableExtendedCommands, AbortIfNegative),
    Send(SetTwoLaneMode, AbortIfNegative)
  ]

  const PrepareScript: seq<Step> := Acts(PowerUp) + LaneCommands

  const EnableScript: seq<Step> := [
    Do(OrFlag(LowPower)),
    Send(SetTearOn(VBlank), AbortIfNonzero),
    Send(ExitSleepMode, AbortIfNonzero),
    Do(Msleep(120)),
    Send(SetDisplayOn, Ignore),
    Send(ExitSleepMode, ReturnResult)
  ]

  const DisableScript: seq<Step> := [Send(EnterSleepMode, ReturnResult)]

  const PowerDown: seq<Action> := [SetGpio(Reset, false), SetGpio(Power, false)]

  function Prepare(st: State, o: Oracle): Outcome {
    Run(PrepareScript, o, 0, st)
  }

  function Enable(st: State, o: Oracle): Outcome {
    Run(EnableScript, o, 0, st)
  }

  function Disable(st: State, o: Oracle): Outcome {
    Run(DisableScript, o, 0, st)
  }

  function Unprepare(st: State, o: Oracle): Outcome {
    Run(Acts(PowerDown), o, 0, st)
  }

  lemma PowerUpDrivesPowerAndReset(st: State)
    ensures Replay(st, PowerUp) == Powered(st)
    ensures Untouched(PowerUp, Updn) && Untouched(PowerUp, Shlr)
  {
  }

  /** Prepare, unfolded: the power-up sequence, then the two vendor writes,
      stopping after the first one that fails. */
  lemma PrepareUnfolds(st: State, o: Oracle)
    ensures
      Prepare(st, o)
        == if o(0) < 0 then Outcome(PowerUp + [Dcs(EnableExtendedCommands)], o(0), Powered(st))
           else if o(1) < 0 then Outcome(PowerUp + [Dcs(EnableExtendedCommands), Dcs(SetTwoLaneMode)], o(1), Powered(st))
           else Outcome(PowerUp + [Dcs(EnableExtendedCommands), Dcs(SetTwoLaneMode)], 0, Powered(st))
  {
    PowerUpDrivesPowerAndReset(st);
    RunActs(PowerUp, LaneCommands, o, 0, st);
    var tail: seq<Step> := [Send(SetTwoLaneMode, AbortIfNegative)];
    assert LaneCommands == [Send(EnableExtendedCommands, AbortIfNegative)] + tail;
    assert tail == tail + [];
    RunSend(SetTwoLaneMode, AbortIfNegative, [], o, 1, Powered(st));
    RunSend(EnableExtendedCommands, AbortIfNegative, tail, o, 0, Powered(st));
  }

  /** Prepare runs the whole power-up sequence before any DCS command, only
      ever drives power and reset, and leaves both high. */
  lemma PrepareSequencesFirst(st: State, o: Oracle)
    ensures var out := Prepare(st, o);
            && |out.trace| >= |PowerUp|
            && out.trace[..|PowerUp|] == PowerUp
            && CommandsOnly(out.trace[|PowerUp|..])
            && Untouched(out.trace, Updn) && Untouched(out.trace, Shlr)
            && out.state == Powered(st)
  {
    PrepareUnfolds(st, o);
    PowerUpDrivesPowerAndReset(st);
    var out := Prepare(st, o);
    var cmds := out.trace[|PowerUp|..];
    assert out.trace == PowerUp + cmds;
    assert CommandsOnly(cmds);
    UntouchedAppend(PowerUp, cmds, Updn);
    UntouchedAppend(PowerUp, cmds, Shlr);
  }

  /** A failing first write is returned and the lane write is never sent. */
  lemma PrepareFirstWriteFails(st: State, o: Oracle)
    requires o(0) < 0
    ensures var out := Prepare(st, o);
            out.trace == PowerUp + [Dcs(EnableExtendedCommands)] && out.ret == o(0)
  {
    PrepareUnfolds(st, o);
  }

  /** Otherwise both writes are sent, in order, with no flag involved; the
      lane write's error is returned, and success returns 0. */
  lemma PrepareBothWrites(st: State, o: Oracle)
    requires o(0) >= 0
    ensures var out := Prepare(st, o);
            && out.trace == PowerUp + [Dcs(EnableExtendedCommands), Dcs(SetTwoLaneMode)]
            && out.ret == (if o(1) < 0 then o(1) else 0)
  {
    PrepareUnfolds(st, o);
  }

  /** The enable script, unfolded one step at a time. */
  lemma EnableUnfolds(st: State, o: Oracle)
    ensures
      var lp := st.(flags := st.flags + {LowPower});
      Enable(st, o)
        == if o(0) != 0 then Outcome([OrFlag(LowPower), Dcs(SetTearOn(VBlank))], o(0), lp)
           else if o(1) != 0 then Outcome([OrFlag(LowPower), Dcs(SetTearOn(VBlank)), Dcs(ExitSleepMode)], o(1), lp)
           else Outcome([OrFlag(LowPower), Dcs(SetTearOn(VBlank)), Dcs(ExitSleepMode), Msleep(120), Dcs(SetDisplayOn), Dcs(ExitSleepMode)], o(3), lp)
  {
    var lp := st.(flags := st.flags + {LowPower});
    var s5: seq<Step> := [Send(ExitSleepMode, ReturnResult)];
    var s4: seq<Step> := [Send(SetDisplayOn, Ignore)] + s5;
    var s3: seq<Step> := [Do(Msleep(120))] + s4;
    var s2: seq<Step> := [Send(ExitSleepMode, AbortIfNonzero)] + s3;
    var s1: seq<Step> := [Send(SetTearOn(VBlank), AbortIfNonzero)] + s2;
    assert EnableScript == [Do(OrFlag(LowPower))] + s1;
    var r5 := Run(s5, o, 3, lp);
    assert r5 == Outcome([Dcs(ExitSleepMode)], o(3), lp) by {
      assert s5 == s5 + [];
      RunSend(ExitSleepMode, ReturnResult, [], o, 3, lp);
    }
    var r4 := Run(s4, o, 2, lp);
    assert r4 == Outcome([Dcs(SetDisplayOn), Dcs(ExitSleepMode)], o(3), lp) by {
      RunSend(SetDisplayOn, Ignore, s5, o, 2, lp);
    }
    var r3 := Run(s3, o, 2, lp);
    assert r3 == Outcome([Msleep(120), Dcs(SetDisplayOn), Dcs(ExitSleepMode)], o(3), lp) by {
      RunDo(Msleep(120), s4, o, 2, lp);
    }
    var r2 := Run(s2, o, 1, lp);
    assert r2 == if o(1) != 0 then Outcome([Dcs(ExitSleepMode)], o(1), lp)
                 else Outcome([Dcs(ExitSleepMode)] + r3.trace, o(3), lp) by {
      RunSend(ExitSleepMode, AbortIfNonzero, s3, o, 1, lp);
    }
    var r1 := Run(s1, o, 0, lp);
    assert r1 == if o(0) != 0 then Outcome([Dcs(SetTearOn(VBlank))], o(0), lp)
                 else Outcome([Dcs(SetTearOn(VBlank))] + r2.trace, r2.ret, lp) by {
      RunSend(SetTearOn(VBlank), AbortIfNonzero, s2, o, 0, lp);
    }
    assert Enable(st, o) == Outcome([OrFlag(LowPower)] + r1.trace, r1.ret, lp) by {
      RunDo(OrFlag(LowPower), s1, o, 0, st);
    }
  }

  /** Enable: low-power mode first; a failing set_tear_on is returned and
      nothing more is sent. */
  lemma EnableTearOnFails(st: State, o: Oracle)
    requires o(0) != 0
    ensures var out := Enable(st, o);
            && out.trace == [OrFlag(LowPower), Dcs(SetTearOn(VBlank))]
            && out.ret == o(0)
            && out.state == st.(flags := st.flags + {LowPower})
  {
    EnableUnfolds(st, o);
  }

  /** A failing exit_sleep_mode is returned: no sleep, no display-on. */
  lemma EnableExitSleepFails(st: State, o: Oracle)
    requires o(0) == 0 && o(1) != 0
    ensures var out := Enable(st, o);
            && out.trace == [OrFlag(LowPower), Dcs(SetTearOn(VBlank)), Dcs(ExitSleepMode)]
            && out.ret == o(1)
            && out.state == st.(flags := st.flags + {LowPower})
  {
    EnableUnfolds(st, o);
  }

  /** Both checks pass: sleep 120 ms, display on with its status ignored,
      then a second exit_sleep_mode whose status is what enable returns. */
  lemma EnableSucceeds(st: State, o: Oracle)
    requires o(0) == 0 && o(1) == 0
    ensures var out := Enable(st, o);
            && out.trace == [OrFlag(LowPower), Dcs(SetTearOn(VBlank)), Dcs(ExitSleepMode), Msleep(120), Dcs(SetDisplayOn), Dcs(ExitSleepMode)]
            && out.ret == o(3)
            && out.state == st.(flags := st.flags + {LowPower})
  {
    EnableUnfolds(st, o);
  }

  /** Disable sends exactly enter_sleep_mode and returns its status. */
  lemma DisableSendsEnterSleep(st: State, o: Oracle)
    ensures var out := Disable(st, o);
            out.trace == [Dcs(EnterSleepMode)] && out.ret == o(0) && out.state == st
  {
    assert DisableScript == [Send(EnterSleepMode, ReturnResult)] + [];
    RunSend(EnterSleepMode, ReturnResult, [], o, 0, st);
  }

  /** Unprepare drives reset then power low, sends nothing and succeeds. */
  lemma UnpreparePowersDown(st: State, o: Oracle)
    ensures var out := Unprepare(st, o);
            && out.trace == PowerDown && out.ret == 0
            && out.state == st.(levels := st.levels.(power := false, reset := false))
  {
    RunActs(PowerDown, [], o, 0, st);
    assert Acts(PowerDown) + [] == Acts(PowerDown);
  }

  const DefaultMode: Mode := Mode(
    20833,
    1024, 1024 + 160, 1024 + 160 + 80, 1024 + 160 + 80 + 80,
    600, 600 + 12, 600 + 12 + 10, 600 + 12 + 10 + 13,
    154, 86)

  /** `kwh070kq40v2l_panel_get_modes`. `duplicated` says whether the copy of
      the default mode could be allocated; there is no timing override. */
  function GetModes(duplicated: bool): (r: ModeList)
    ensures r.ret == 1 <==> duplicated
    ensures !duplicated ==> r.ret == -EINVAL && r.probed == [] && r.info.None?
    ensures r.ret == 1 ==>
              && r.probed == [ProbedMode(DefaultMode, {Driver, Preferred})]
              && r.info == Some(DisplayInfo(8, 154, 86, [Rgb888_1x24]))
  {
    if !duplicated then ModeList(-EINVAL, [], None)
    else Reported(DefaultMode)
  }
}
