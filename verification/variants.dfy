/**
 The two drivers side by side, and whole power cycles through each of them:
 probe, prepare, enable, disable, unprepare, in the order the DRM core calls
 them.
 */
module Variants {
  import opened Dsi
  import opened Gpio
  import opened Sequencer
  import opened DisplayMode
  import K4 = Kwh070kq40
  import K2 = Kwh070kq40v2l

  /** Both default modes are 1024x600 with the same porches, 1344x635 in
      total, 154x86 mm; only the pixel clock differs. */
  lemma DefaultModesDifferOnlyInClock()
    ensures K4.DefaultMode.clock == 55555 && K2.DefaultMode.clock == 20833
    ensures K4.DefaultMode.(clock := K2.DefaultMode.clock) == K2.DefaultMode
    ensures Ordered(K2.DefaultMode) && Ordered(K4.DefaultMode)
    ensures K2.DefaultMode.htotal == 1344 && K2.DefaultMode.vtotal == 635
    ensures K2.DefaultMode.widthMm == 154 && K2.DefaultMode.heightMm == 86
  {
  }

  /** The 4-lane link uses sync pulses, the 2-lane link a non-continuous
      clock; both are RGB888 burst video with HSE, and neither starts in
      low-power mode. */
  lemma ProbeLinksDiffer()
    ensures K4.ProbeLink.lanes == 4 && K2.ProbeLink.lanes == 2
    ensures K4.ProbeLink.format == Rgb888 && K2.ProbeLink.format == Rgb888
    ensures K4.ProbeLink.flags * K2.ProbeLink.flags == {VideoHse, Video, VideoBurst}
    ensures K4.ProbeLink.flags - K2.ProbeLink.flags == {VideoSyncPulse}
    ensures K2.ProbeLink.flags - K4.ProbeLink.flags == {ClockNonContinuous}
    ensures LowPower !in K4.ProbeLink.flags && LowPower !in K2.ProbeLink.flags
  {
  }

  /** The power-up orders differ: the 4-lane panel waits and then raises
      power before touching reset, the 2-lane panel drops power first and
      raises it last, after the reset pulse. Both pulse reset high, low,
      high with the same 10 ms holds. */
  lemma PowerUpOrdersDiffer()
    ensures K4.PowerUp[0] == Msleep(20) && K4.PowerUp[1] == SetGpio(Power, true)
    ensures K2.PowerUp[0] == SetGpio(Power, false) && K2.PowerUp[|K2.PowerUp| - 1] == SetGpio(Power, true)
    ensures K4.PowerUp[3..8] == K2.PowerUp[2..7]
  {
  }

  /** Disable and unprepare are the same in both drivers. */
  lemma TeardownAgrees(st: State, o: Oracle)
    ensures K2.Disable(st, o) == K4.Disable(st, o)
    ensures K2.Unprepare(st, o) == K4.Unprepare(st, o)
  {
    K2.DisableSendsEnterSleep(st, o);
    K4.DisableSendsEnterSleep(st, o);
    K2.UnpreparePowersDown(st, o);
    K4.UnpreparePowersDown(st, o);
  }

  /** The enables agree until display-on; when both checks pass the 2-lane
      enable sends one more exit_sleep_mode and returns its status, where
      the 4-lane enable returns 0. */
  lemma EnablesDifferOnlyAtTheEnd(st: State, o: Oracle)
    ensures o(0) != 0 || o(1) != 0 ==> K2.Enable(st, o) == K4.Enable(st, o)
    ensures o(0) == 0 && o(1) == 0 ==>
              && K2.Enable(st, o).trace == K4.Enable(st, o).trace + [Dcs(ExitSleepMode)]
              && K2.Enable(st, o).ret == o(3) && K4.Enable(st, o).ret == 0
              && K2.Enable(st, o).state == K4.Enable(st, o).state
  {
    K2.EnableUnfolds(st, o);
    K4.EnableUnfolds(st, o);
  }

  /** Enable, disable and unprepare, each from the state the previous left. */
  function Shutdown4(p: Outcome, oe: Oracle, od: Oracle, ou: Oracle): Outcome {
    var e := K4.Enable(p.state, oe);
    var d := K4.Disable(e.state, od);
    K4.Unprepare(d.state, ou)
  }

  /** A 4-lane power cycle from probe, whatever each command returns, ends
      with every line low again and low-power mode added to the link. */
  lemma PowerCycleEndsLow4(cfg: K4.Config, op: Oracle, oe: Oracle, od: Oracle, ou: Oracle)
    ensures var u := Shutdown4(K4.Prepare(cfg, K4.Probed, op), oe, od, ou);
            u.state == State(AllLow, K4.ProbeLink.flags + {LowPower}) && u.ret == 0
  {
    var p := K4.Prepare(cfg, K4.Probed, op);
    K4.PrepareSequencesFirst(cfg, K4.Probed, op);
    K4.EnableUnfolds(p.state, oe);
    var e := K4.Enable(p.state, oe);
    K4.DisableSendsEnterSleep(e.state, od);
    var d := K4.Disable(e.state, od);
    K4.UnpreparePowersDown(d.state, ou);
  }

  /** Which 4-lane callbacks of a power cycle return 0. A vendor write
      succeeds with any non-negative status (a byte count); enable and
      disable count as failed on any nonzero status, as their checks do.
      Whenever enable returns 0, set_display_on has been sent; its own
      status is ignored, so 0 does not mean the panel accepted it. */
  lemma PowerCycleSucceedsExactly4(cfg: K4.Config, op: Oracle, oe: Oracle, od: Oracle, ou: Oracle)
    ensures var p := K4.Prepare(cfg, K4.Probed, op);
            var e := K4.Enable(p.state, oe);
            var d := K4.Disable(e.state, od);
            var u := K4.Unprepare(d.state, ou);
            && (p.ret == 0 <==> (cfg.testPattern ==> op(0) >= 0 && op(1) >= 0))
            && (e.ret == 0 <==> oe(0) == 0 && oe(1) == 0)
            && (e.ret == 0 ==> Dcs(SetDisplayOn) in e.trace)
            && (d.ret == 0 <==> od(0) == 0) && d.trace == [Dcs(EnterSleepMode)]
            && u.ret == 0
  {
    var p := K4.Prepare(cfg, K4.Probed, op);
    if !cfg.testPattern {
      K4.PrepareWithoutTestPattern(cfg, K4.Probed, op);
    } else if op(0) < 0 {
      K4.PrepareFirstWriteFails(cfg, K4.Probed, op);
    } else {
      K4.PrepareBothWrites(cfg, K4.Probed, op);
    }
    K4.EnableUnfolds(p.state, oe);
    var e := K4.Enable(p.state, oe);
    if e.ret == 0 {
      assert e.trace[4] == Dcs(SetDisplayOn);
    }
    K4.DisableSendsEnterSleep(e.state, od);
    var d := K4.Disable(e.state, od);
    K4.UnpreparePowersDown(d.state, ou);
  }

  function Shutdown2(p: Outcome, oe: Oracle, od: Oracle, ou: Oracle): Outcome {
    var e := K2.Enable(p.state, oe);
    var d := K2.Disable(e.state, od);
    K2.Unprepare(d.state, ou)
  }

  /** A 2-lane power cycle from probe, whatever each command returns, ends
      with every line low again and low-power mode added to the link. */
  lemma PowerCycleEndsLow2(op: Oracle, oe: Oracle, od: Oracle, ou: Oracle)
    ensures var u := Shutdown2(K2.Prepare(K2.Probed, op), oe, od, ou);
            u.state == State(AllLow, K2.ProbeLink.flags + {LowPower}) && u.ret == 0
  {
    var p := K2.Prepare(K2.Probed, op);
    K2.PrepareSequencesFirst(K2.Probed, op);
    K2.EnableUnfolds(p.state, oe);
    var e := K2.Enable(p.state, oe);
    K2.DisableSendsEnterSleep(e.state, od);
    var d := K2.Disable(e.state, od);
    K2.UnpreparePowersDown(d.state, ou);
  }

  /** Which 2-lane callbacks of a power cycle return 0: prepare exactly
      when both vendor writes succeed, enable exactly when tear-on and both
      exit_sleep_mode commands return 0, disable exactly when
      enter_sleep_mode does. A 0 from enable means set_display_on has been
      sent, its own status ignored. */
  lemma PowerCycleSucceedsExactly2(op: Oracle, oe: Oracle, od: Oracle, ou: Oracle)
    ensures var p := K2.Prepare(K2.Probed, op);
            var e := K2.Enable(p.state, oe);
            var d := K2.Disable(e.state, od);
            var u := K2.Unprepare(d.state, ou);
            && (p.ret == 0 <==> op(0) >= 0 && op(1) >= 0)
            && (e.ret == 0 <==> oe(0) == 0 && oe(1) == 0 && oe(3) == 0)
            && (e.ret == 0 ==> Dcs(SetDisplayOn) in e.trace)
            && (d.ret == 0 <==> od(0) == 0) && d.trace == [Dcs(EnterSleepMode)]
            && u.ret == 0
  {
    var p := K2.Prepare(K2.Probed, op);
    K2.PrepareUnfolds(K2.Probed, op);
    K2.EnableUnfolds(p.state, oe);
    var e := K2.Enable(p.state, oe);
    if e.ret == 0 {
      assert e.trace[4] == Dcs(SetDisplayOn);
    }
    K2.DisableSendsEnterSleep(e.state, od);
    var d := K2.Disable(e.state, od);
    K2.UnpreparePowersDown(d.state, ou);
  }
}
