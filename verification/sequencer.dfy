/**
 The common shape of every panel callback: a fixed script of GPIO writes,
 sleeps, link-flag updates and DCS commands, run in order, where the status
 of most DCS commands decides whether the script goes on (a command may also
 carry no check, and then its status is discarded).

 A callback is modelled as `Run(script, oracle, 0, state)`. The oracle gives
 the status of the k-th DCS command the callback issues; the run yields the
 trace of effects it performed, the value the callback returns and the final
 GPIO levels and link flags.
 */
module Sequencer {
  import opened Dsi
  import opened Gpio

  /** One observable effect of a callback. */
  datatype Effect =
    | SetGpio(line: Line, high: bool)   // gpiod_set_value
    | Msleep(ms: nat)                   // msleep
    | OrFlag(flag: ModeFlag)            // dsi->mode_flags |= flag
    | Dcs(cmd: Command)                 // one DCS command on the bus

  /** An effect that cannot fail: everything but a DCS command. */
  type Action = e: Effect | !e.Dcs? witness Msleep(0)

  /** What a callback can change: the GPIO levels and the DSI mode flags. */
  datatype State = State(levels: Levels, flags: set<ModeFlag>)

  function Apply(st: State, e: Effect): State {
    match e
    case SetGpio(line, high) => st.(levels := SetLevel(st.levels, line, high))
    case OrFlag(f) => st.(flags := st.flags + {f})
    case _ => st
  }

  /** The state a trace leaves behind, replaying its effects in order. */
  function Replay(st: State, t: seq<Effect>): State
    decreases |t|
  {
    if t == [] then st else Replay(Apply(st, t[0]), t[1..])
  }

  /** The state both drivers' prepare leaves: power and reset high, the
      rest as it was. */
  function Powered(st: State): State {
    st.(levels := st.levels.(power := true, reset := true))
  }

  /** How the C code reacts to a DCS command's status `r`. */
  datatype Policy =
    | AbortIfNegative   // if (ret < 0) return ret;
    | AbortIfNonzero    // if (ret) return ret;
    | Ignore            // the status is discarded
    | ReturnResult      // return <command>;

  predicate Stops(p: Policy, r: CInt) {
    match p
    case AbortIfNegative => r < 0
    case AbortIfNonzero => r != 0
    case Ignore => false
    case ReturnResult => true
  }

  datatype Step = Do(action: Action) | Send(cmd: Command, policy: Policy)

  function EffectOf(s: Step): Effect {
    match s
    case Do(a) => a
    case Send(c, _) => Dcs(c)
  }

  function Acts(es: seq<Action>): seq<Step> {
    seq(|es|, i requires 0 <= i < |es| => Do(es[i]))
  }

  /** The status of the k-th DCS command a callback issues. */
  type Oracle = nat -> CInt

  datatype Outcome = Outcome(trace: seq<Effect>, ret: CInt, state: State)

  /** Trace `t` performs the first |t| steps of script `s`, in script order. */
  predicate Follows(t: seq<Effect>, s: seq<Step>) {
    |t| <= |s| && forall i :: 0 <= i < |t| ==> t[i] == EffectOf(s[i])
  }

  /** The run ended early, or with a nonzero status, only because the check
      after its last command fired on that command's status. */
  predicate StoppedBy(s: seq<Step>, out: Outcome) {
    0 < |out.trace| <= |s| && s[|out.trace| - 1].Send? && Stops(s[|out.trace| - 1].policy, out.ret)
  }

  /** Runs script `s`; `k` DCS commands were issued before it. A completed
      script returns 0, as each callback's final `return 0;` does. */
  function Run(s: seq<Step>, o: Oracle, k: nat, st: State): Outcome
    decreases |s|
  {
    if s == [] then Outcome([], 0, st)
    else
      match s[0]
      case Do(a) =>
        var rest := Run(s[1..], o, k, Apply(st, a));
        Outcome([a] + rest.trace, rest.ret, rest.state)
      case Send(c, p) =>
        var r := o(k);
        if Stops(p, r) then Outcome([Dcs(c)], r, st)
        else
          var rest := Run(s[1..], o, k + 1, st);
          Outcome([Dcs(c)] + rest.trace, rest.ret, rest.state)
  }

  /** A run performs a prefix of its script, in script order, and the state
      it reports is exactly the one its trace produces. */
  lemma {:induction false} RunFollowsScript(s: seq<Step>, o: Oracle, k: nat, st: State)
    ensures Follows(Run(s, o, k, st).trace, s)
    ensures Run(s, o, k, st).state == Replay(st, Run(s, o, k, st).trace)
    decreases |s|
  {
    if s != [] {
      var out := Run(s, o, k, st);
      match s[0]
      case Do(a) =>
        RunFollowsScript(s[1..], o, k, Apply(st, a));
        assert out.trace[1..] == Run(s[1..], o, k, Apply(st, a)).trace;
      case Send(c, p) =>
        if !Stops(p, o(k)) {
          RunFollowsScript(s[1..], o, k + 1, st);
          assert out.trace[1..] == Run(s[1..], o, k + 1, st).trace;
        }
    }
  }

  /** The number of DCS commands in a trace. */
  function Sends(t: seq<Effect>): nat
    decreases |t|
  {
    if t == [] then 0 else (if t[0].Dcs? then 1 else 0) + Sends(t[1..])
  }

  /** A run stops before the end of its script, or returns a nonzero status,
      only when the check after the last command it sent fired on that
      command's status, which is then the status the run returns. */
  lemma {:induction false} RunStopsOnlyOnCheck(s: seq<Step>, o: Oracle, k: nat, st: State)
    ensures var out := Run(s, o, k, st);
            |out.trace| < |s| || out.ret != 0 ==>
              && StoppedBy(s, out)
              && Sends(out.trace) > 0
              && out.ret == o(k + Sends(out.trace) - 1)
    decreases |s|
  {
    if s != [] {
      var out := Run(s, o, k, st);
      match s[0]
      case Do(a) =>
        var rest := Run(s[1..], o, k, Apply(st, a));
        RunStopsOnlyOnCheck(s[1..], o, k, Apply(st, a));
        assert out.trace[1..] == rest.trace;
      case Send(c, p) =>
        if Stops(p, o(k)) {
          assert out.trace[1..] == [];
        } else {
          var rest := Run(s[1..], o, k + 1, st);
          RunStopsOnlyOnCheck(s[1..], o, k + 1, st);
          assert out.trace[1..] == rest.trace;
        }
    }
  }

  /** A trace that never drives `line`. */
  predicate Untouched(t: seq<Effect>, line: Line) {
    forall i :: 0 <= i < |t| && t[i].SetGpio? ==> t[i].line != line
  }

  /** Two traces that never drive `line` concatenate to one that never does;
      a trace of DCS commands alone drives no line. */
  lemma UntouchedAppend(a: seq<Effect>, b: seq<Effect>, line: Line)
    requires Untouched(a, line) && (Untouched(b, line) || CommandsOnly(b))
    ensures Untouched(a + b, line)
  {
    forall i | 0 <= i < |a + b| && (a + b)[i].SetGpio?
      ensures (a + b)[i].line != line
    {
      if i >= |a| {
        assert (a + b)[i] == b[i - |a|];
      }
    }
  }

  /** A trace of DCS commands alone. */
  predicate CommandsOnly(t: seq<Effect>) {
    forall i :: 0 <= i < |t| ==> t[i].Dcs?
  }

  /** DCS commands change neither a GPIO level nor a link flag. */
  lemma {:induction false} CommandsKeepState(st: State, t: seq<Effect>)
    requires CommandsOnly(t)
    ensures Replay(st, t) == st
    decreases |t|
  {
    if t != [] {
      CommandsKeepState(Apply(st, t[0]), t[1..]);
    }
  }

  /** Running a prefix of GPIO writes, sleeps and flag updates performs them
      all, consults no oracle, and hands the resulting state to the rest. */
  lemma {:induction false} RunActs(es: seq<Action>, q: seq<Step>, o: Oracle, k: nat, st: State)
    ensures Run(Acts(es) + q, o, k, st)
         == var rest := Run(q, o, k, Replay(st, es));
            Outcome(es + rest.trace, rest.ret, rest.state)
    decreases |es|
  {
    if es == [] {
      assert Acts(es) + q == q;
    } else {
      assert Acts(es) + q == [Do(es[0])] + (Acts(es[1..]) + q);
      RunDo(es[0], Acts(es[1..]) + q, o, k, st);
      RunActs(es[1..], q, o, k, Apply(st, es[0]));
      var rest := Run(q, o, k, Replay(st, es));
      assert es + rest.trace == [es[0]] + (es[1..] + rest.trace);
    }
  }

  /** One action followed by the rest of a script: the action is performed
      and the rest runs from the state it leaves. */
  lemma RunDo(a: Action, q: seq<Step>, o: Oracle, k: nat, st: State)
    ensures Run([Do(a)] + q, o, k, st)
         == var rest := Run(q, o, k, Apply(st, a)); Outcome([a] + rest.trace, rest.ret, rest.state)
  {
    assert ([Do(a)] + q)[1..] == q;
  }

  /** One DCS command followed by the rest of a script: the command is sent
      with the k-th status and, unless its check fires, the rest runs with the
      next one. */
  lemma RunSend(c: Command, p: Policy, q: seq<Step>, o: Oracle, k: nat, st: State)
    ensures Run([Send(c, p)] + q, o, k, st)
         == if Stops(p, o(k)) then Outcome([Dcs(c)], o(k), st)
            else var rest := Run(q, o, k + 1, st); Outcome([Dcs(c)] + rest.trace, rest.ret, rest.state)
  {
    assert ([Send(c, p)] + q)[1..] == q;
  }
}
