/**
 The coalescing process sampler: callers share one running sample, and a caller that needs a
 younger one waits for the running sample to end first.
 */
module Flight {
  import opened Options

  /** One shared sample; its result is published before `done` is closed. */
  datatype Call = Call(started: int, finished: bool, closed: bool)

  datatype Phase = Entering | Awaiting(call: nat) | Joined(call: nat) | Got(call: nat) | GaveUp

  /** A caller of `Do`; `waits` counts the older samples it waited for. */
  datatype Caller = Caller(notBefore: int, arrived: int, phase: Phase, waits: nat)
  {
    /** The caller asks for nothing younger than its own arrival. */
    predicate Fair() { notBefore <= arrived }
  }

  datatype State = State(clock: int, calls: seq<Call>, current: Option<nat>, callers: seq<Caller>)

  /** Each step is one critical section, one channel event, or the clock. */
  datatype Step =
    | Tick(now: int)
    | Arrive(notBefore: int)
    | Enter(who: nat)
    | Finish(call: nat)
    | Close(call: nat)
    | Wake(who: nat)
    | Cancel(who: nat)

  const INITIAL := State(0, [], None, [])

  predicate Enabled(s: State, step: Step) {
    match step
    case Tick(now) => s.clock <= now
    case Arrive(_) => true
    case Enter(who) => who < |s.callers| && s.callers[who].phase.Entering?
    case Finish(c) => c < |s.calls| && !s.calls[c].finished
    case Close(c) => c < |s.calls| && s.calls[c].finished
    case Wake(who) =>
      who < |s.callers| &&
      (match s.callers[who].phase
       case Awaiting(c) => c < |s.calls| && s.calls[c].closed
       case Joined(c) => c < |s.calls| && s.calls[c].closed
       case _ => false)
    case Cancel(who) => who < |s.callers| && (s.callers[who].phase.Awaiting? || s.callers[who].phase.Joined?)
  }

  function Move(s: State, who: nat, phase: Phase): State
    requires who < |s.callers|
  {
    s.(callers := s.callers[who := s.callers[who].(phase := phase)])
  }

  /** The locked section of `Do`: wait for an older sample, join a young enough one, or start one. */
  function EnterDo(s: State, who: nat): State
    requires who < |s.callers| && (s.current.Some? ==> s.current.value < |s.calls|)
  {
    var me := s.callers[who];
    if s.current.None? then
      Move(s.(calls := s.calls + [Call(s.clock, false, false)], current := Some(|s.calls|)), who, Joined(|s.calls|))
    else if s.calls[s.current.value].started < me.notBefore then
      s.(callers := s.callers[who := me.(phase := Awaiting(s.current.value), waits := me.waits + 1)])
    else Move(s, who, Joined(s.current.value))
  }

  function Next(s: State, step: Step): State
    requires Enabled(s, step) && (s.current.Some? ==> s.current.value < |s.calls|)
  {
    match step
    case Tick(now) => s.(clock := now)
    case Arrive(notBefore) => s.(callers := s.callers + [Caller(notBefore, s.clock, Entering, 0)])
    case Enter(who) => EnterDo(s, who)
    case Finish(c) =>
      s.(calls := s.calls[c := s.calls[c].(finished := true)],
         current := if s.current == Some(c) then None else s.current)
    case Close(c) => s.(calls := s.calls[c := s.calls[c].(closed := true)])
    case Wake(who) =>
      if s.callers[who].phase.Awaiting? then Move(s, who, Entering) else Move(s, who, Got(s.callers[who].phase.call))
    case Cancel(who) => Move(s, who, GaveUp)
  }

  // ----- The invariant -----

  /** Samples run one at a time, the last one started being the only one that may still run. */
  predicate SoundCalls(s: State) {
    && (s.current.Some? ==> s.current.value + 1 == |s.calls| && !s.calls[s.current.value].finished)
    && (forall c :: 0 <= c < |s.calls| ==>
          && s.calls[c].started <= s.clock && (s.calls[c].closed ==> s.calls[c].finished)
          && (!s.calls[c].finished ==> s.current == Some(c)))
  }

  predicate SoundCaller(s: State, me: Caller) {
    && me.arrived <= s.clock
    && (match me.phase
        case Entering =>
          me.Fair() ==>
            me.waits <= 1 && (me.waits == 1 && s.current.Some? ==> me.notBefore <= Started(s, s.current.value))
        case Awaiting(c) =>
          && c < |s.calls|
          && (me.Fair() ==> me.waits == 1 && forall d :: c < d < |s.calls| ==> me.notBefore <= s.calls[d].started)
        case Joined(c) => c < |s.calls| && (me.Fair() ==> me.waits <= 1 && me.notBefore <= s.calls[c].started)
        case Got(c) =>
          && c < |s.calls| && s.calls[c].finished
          && (me.Fair() ==> me.waits <= 1 && me.notBefore <= s.calls[c].started)
        case GaveUp => me.Fair() ==> me.waits <= 1)
  }

  function Started(s: State, c: nat): int { if c < |s.calls| then s.calls[c].started else 0 }

  predicate Inv(s: State) {
    SoundCalls(s) && forall i :: 0 <= i < |s.callers| ==> SoundCaller(s, s.callers[i])
  }

  lemma EnterKeepsInv(s: State, who: nat)
    requires Inv(s) && Enabled(s, Enter(who))
    ensures Inv(EnterDo(s, who))
  {
    var s' := EnterDo(s, who);
    assert SoundCalls(s');
    assert SoundCaller(s', s'.callers[who]) by {
      assert SoundCaller(s, s.callers[who]);
    }
    forall i | 0 <= i < |s'.callers| && i != who ensures SoundCaller(s', s'.callers[i]) {
      assert SoundCaller(s, s.callers[i]) && s'.callers[i] == s.callers[i];
    }
  }

  lemma WakeKeepsInv(s: State, who: nat)
    requires Inv(s) && Enabled(s, Wake(who))
    ensures Inv(Next(s, Wake(who)))
  {
    var s' := Next(s, Wake(who));
    forall i | 0 <= i < |s'.callers| ensures SoundCaller(s', s'.callers[i]) {
      assert SoundCaller(s, s.callers[i]);
    }
  }

  lemma OthersKeepInv(s: State, step: Step)
    requires Inv(s) && Enabled(s, step) && !step.Enter? && !step.Wake?
    ensures Inv(Next(s, step))
  {
    var s' := Next(s, step);
    assert SoundCalls(s');
    forall i | 0 <= i < |s'.callers| ensures SoundCaller(s', s'.callers[i]) {
      if i < |s.callers| {
        assert SoundCaller(s, s.callers[i]);
      }
    }
  }

  lemma StepKeepsInv(s: State, step: Step)
    requires Inv(s) && Enabled(s, step)
    ensures Inv(Next(s, step))
  {
    hide Inv;
    match step {
      case Enter(who) => EnterKeepsInv(s, who);
      case Wake(who) => WakeKeepsInv(s, who);
      case _ => OthersKeepInv(s, step);
    }
  }

  // ----- Every run -----

  predicate EnabledRun(s: State, steps: seq<Step>)
    decreases |steps|
  {
    (s.current.Some? ==> s.current.value < |s.calls|) &&
    (steps != [] ==> Enabled(s, steps[0]) && EnabledRun(Next(s, steps[0]), steps[1..]))
  }

  function Run(s: State, steps: seq<Step>): State
    requires EnabledRun(s, steps)
    decreases |steps|
  {
    if steps == [] then s else Run(Next(s, steps[0]), steps[1..])
  }

  lemma {:induction false} RunKeepsInv(s: State, steps: seq<Step>)
    requires Inv(s) && EnabledRun(s, steps)
    ensures Inv(Run(s, steps))
    decreases |steps|
  {
    if steps != [] {
      StepKeepsInv(s, steps[0]);
      RunKeepsInv(Next(s, steps[0]), steps[1..]);
    }
  }

  /** At most one sample runs at any time. */
  lemma OneSampleAtATime(steps: seq<Step>, c: nat, d: nat)
    requires EnabledRun(INITIAL, steps)
    requires var s := Run(INITIAL, steps);
             c < |s.calls| && d < |s.calls| && !s.calls[c].finished && !s.calls[d].finished
    ensures c == d
  {
    RunKeepsInv(INITIAL, steps);
  }

  /**
   A caller that asks for nothing younger than its arrival gets a sample started no earlier than it
   asked for, after waiting for at most one older sample.
   */
  lemma FreshAfterOneWait(steps: seq<Step>, who: nat)
    requires EnabledRun(INITIAL, steps)
    requires var s := Run(INITIAL, steps); who < |s.callers| && s.callers[who].Fair()
    ensures var s := Run(INITIAL, steps);
            var me := s.callers[who];
            && me.waits <= 1
            && (me.phase.Got? ==> me.phase.call < |s.calls| && s.calls[me.phase.call].finished
                                  && me.notBefore <= s.calls[me.phase.call].started)
  {
    RunKeepsInv(INITIAL, steps);
    var s := Run(INITIAL, steps);
    assert SoundCaller(s, s.callers[who]);
  }
}
