/**
 Staged kills: SIGTERM now, SIGKILL on a later pass.  The log of one daemon run is judged,
 per process identity, by an automaton whose `Broken` phase no run reaches.
 */
module Terminations {
  import opened Model
  import opened Sequences
  import opened Scopes
  import opened Planning

  // ----- What a run may do to one identity -----

  datatype Event =
    | Term(id: Identity, at: Time)
    | Pass(allowed: set<Identity>, reached: set<Identity>)
    | Spared(id: Identity)
    | Gone(id: Identity)
    | GaveUp(id: Identity)
    | Kill(id: Identity, at: Time)

  datatype Phase = Idle | Signalled(at: Time) | Pardoned | Escalated | Broken

  function Next(phase: Phase, id: Identity, e: Event, grace: int): Phase {
    match e
    case Pass(allowed, reached) =>
      if phase.Pardoned? then Broken
      else if id in allowed && id in reached && (phase.Signalled? || phase.Escalated?) then Pardoned
      else phase
    case _ =>
      if e.id != id then phase
      else
        match e
        case Term(_, at) => if phase.Idle? then Signalled(at) else Broken
        case Spared(_) => if phase.Idle? || phase.Broken? then Broken else Idle
        case Gone(_) => if phase.Signalled? || phase.Escalated? then Idle else Broken
        case GaveUp(_) => if phase.Escalated? then Idle else Broken
        case Kill(_, at) => if phase.Signalled? && phase.at + grace <= at then Escalated else Broken
  }

  /** The phase of `id` after the log; `Broken` is never left. */
  function PhaseOf(log: seq<Event>, id: Identity, grace: int): Phase {
    if log == [] then Idle else Next(PhaseOf(log[..|log| - 1], id, grace), id, log[|log| - 1], grace)
  }

  /** The event concerns `id`: a signal, the end of its tracking, or a pass that had to spare it. */
  predicate About(e: Event, id: Identity) {
    match e
    case Pass(allowed, reached) => id in allowed && id in reached
    case _ => e.id == id
  }

  /** `i` is the signal to which everything after it, up to `until`, has added nothing. */
  predicate QuietSince(log: seq<Event>, id: Identity, i: nat, until: nat) {
    i < until <= |log| && log[i].Term? && log[i].id == id && forall k :: i < k < until ==> !About(log[k], id)
  }

  lemma {:induction false} SignalledSince(log: seq<Event>, id: Identity, grace: int) returns (i: nat)
    requires PhaseOf(log, id, grace).Signalled?
    ensures QuietSince(log, id, i, |log|) && log[i].at == PhaseOf(log, id, grace).at
  {
    var n := |log| - 1;
    if PhaseOf(log[..n], id, grace).Signalled? {
      i := SignalledSince(log[..n], id, grace);
      assert forall k :: i < k < n ==> log[k] == log[..n][k];
    } else {
      i := n;
    }
  }

  lemma StaysUnbroken(log: seq<Event>, id: Identity, grace: int, n: nat)
    requires !PhaseOf(log, id, grace).Broken? && n <= |log|
    ensures !PhaseOf(log[..n], id, grace).Broken?
  {
    PrefixClosed((l: seq<Event>) => !PhaseOf(l, id, grace).Broken?, log, n);
  }

  /**
   A SIGKILL comes at least the grace period after a SIGTERM to the same identity, and in between
   no pass that reached the identity allowed it, no bypass or exit was seen, and no other signal
   went out.
   */
  lemma KillIsLegitimate(log: seq<Event>, id: Identity, grace: int, j: nat) returns (i: nat)
    requires !PhaseOf(log, id, grace).Broken? && j < |log| && log[j].Kill? && log[j].id == id
    ensures QuietSince(log, id, i, j) && log[i].at + grace <= log[j].at
  {
    StaysUnbroken(log, id, grace, j + 1);
    assert log[..j + 1][..j] == log[..j] && log[..j + 1][j] == log[j];
    i := SignalledSince(log[..j], id, grace);
    assert forall k :: i < k < j ==> log[k] == log[..j][k];
  }

  /** Between two SIGKILLs to one identity lies another SIGTERM: at most one SIGKILL per SIGTERM. */
  lemma OneKillPerTerm(log: seq<Event>, id: Identity, grace: int, j: nat, j': nat) returns (i: nat)
    requires !PhaseOf(log, id, grace).Broken? && j < j' < |log|
    requires log[j].Kill? && log[j].id == id && log[j'].Kill? && log[j'].id == id
    ensures j < i < j' && log[i].Term? && log[i].id == id
  {
    i := KillIsLegitimate(log, id, grace, j');
    assert About(log[j], id);
  }

  predicate EndsTracking(e: Event, id: Identity) { (e.Spared? || e.Gone? || e.GaveUp?) && e.id == id }

  lemma {:induction false} IdleAfterTerm(log: seq<Event>, id: Identity, grace: int, i: nat) returns (k: nat)
    requires PhaseOf(log, id, grace).Idle? && i < |log| && log[i].Term? && log[i].id == id
    ensures i < k < |log| && EndsTracking(log[k], id)
  {
    var n := |log| - 1;
    if EndsTracking(log[n], id) {
      k := n;
    } else {
      assert i < n;
      assert log[..n][i] == log[i];
      k := IdleAfterTerm(log[..n], id, grace, i);
    }
  }

  /** A second SIGTERM to one identity comes only after its tracking has ended. */
  lemma NoSecondTermWhileTracked(log: seq<Event>, id: Identity, grace: int, i: nat, j: nat) returns (k: nat)
    requires !PhaseOf(log, id, grace).Broken? && i < j < |log|
    requires log[i].Term? && log[i].id == id && log[j].Term? && log[j].id == id
    ensures i < k < j && EndsTracking(log[k], id)
  {
    StaysUnbroken(log, id, grace, j + 1);
    assert log[..j + 1][..j] == log[..j] && log[..j + 1][j] == log[j];
    k := IdleAfterTerm(log[..j], id, grace, i);
  }

  /** Every SIGKILL of the log follows a SIGTERM to the same identity by the grace period, undisturbed. */
  ghost predicate KillsAreLegitimate(log: seq<Event>, grace: int) {
    forall j :: 0 <= j < |log| && log[j].Kill? ==>
      exists i :: 0 <= i < j && QuietSince(log, log[j].id, i, j) && log[i].at + grace <= log[j].at
  }

  /** Between two SIGKILLs to one identity there is a SIGTERM. */
  ghost predicate OneKillEach(log: seq<Event>) {
    forall j, j' :: 0 <= j < j' < |log| && log[j].Kill? && log[j'].Kill? && log[j].id == log[j'].id ==>
      exists i :: j < i < j' && log[i].Term? && log[i].id == log[j].id
  }

  /** Between two SIGTERMs to one identity its tracking ends. */
  ghost predicate OneTermEach(log: seq<Event>) {
    forall i, j :: 0 <= i < j < |log| && log[i].Term? && log[j].Term? && log[i].id == log[j].id ==>
      exists k :: i < k < j && EndsTracking(log[k], log[i].id)
  }

  ghost predicate Legitimate(log: seq<Event>, grace: int) {
    KillsAreLegitimate(log, grace) && OneKillEach(log) && OneTermEach(log)
  }

  /** A log that is broken for no identity is legitimate. */
  lemma UnbrokenIsLegitimate(log: seq<Event>, grace: int)
    requires forall id :: !PhaseOf(log, id, grace).Broken?
    ensures Legitimate(log, grace)
  {
    hide PhaseOf;
    forall j | 0 <= j < |log| && log[j].Kill?
      ensures exists i :: 0 <= i < j && QuietSince(log, log[j].id, i, j) && log[i].at + grace <= log[j].at {
      var i := KillIsLegitimate(log, log[j].id, grace, j);
    }
    forall j, j' | 0 <= j < j' < |log| && log[j].Kill? && log[j'].Kill? && log[j].id == log[j'].id
      ensures exists i :: j < i < j' && log[i].Term? && log[i].id == log[j].id {
      var i := OneKillPerTerm(log, log[j].id, grace, j, j');
    }
    forall i, j | 0 <= i < j < |log| && log[i].Term? && log[j].Term? && log[i].id == log[j].id
      ensures exists k :: i < k < j && EndsTracking(log[k], log[i].id) {
      var k := NoSecondTermWhileTracked(log, log[i].id, grace, i, j);
    }
  }

  // ----- The tracker -----

  datatype Entry = Entry(request: KillRequest, deadline: Time, escalated: bool)

  /** What the host answers while a pass escalates: identity reads, SIGKILL results, bypass rules. */
  datatype Probe = Probe(
    info: Identity -> InfoAnswer, forceKill: Identity -> bool, recheck: Identity -> InfoAnswer,
    bypassed: ProcInfo -> bool)

  /** The signalled process is gone: no such PID, or the PID belongs to another process. */
  predicate HasExited(id: Identity, answer: InfoAnswer) {
    answer.Exited? || (answer.Known? && Identity(answer.info.pid, answer.info.startTime) != id)
  }

  /** One escalation: whom the pass allowed, the host's answers and the clock. */
  datatype Sweep = Sweep(allowed: set<Identity>, probe: Probe, now: Time)
  {
    /** The process is still the signalled one, and neither allowed nor bypassed. */
    predicate Exposes(id: Identity) {
      && id !in allowed && probe.info(id).Known? && !HasExited(id, probe.info(id))
      && !probe.bypassed(probe.info(id).info)
    }
  }

  /** What escalation does with one entry it reaches: nothing, or one logged event. */
  function Outcome(id: Identity, entry: Entry, sweep: Sweep): seq<Event> {
    var probe := sweep.probe;
    if id in sweep.allowed then [Spared(id)]
    else if probe.info(id).Unreadable? then []
    else if HasExited(id, probe.info(id)) then [Gone(id)]
    else if probe.bypassed(probe.info(id).info) then [Spared(id)]
    else if entry.escalated then [GaveUp(id)]
    else if sweep.now < entry.deadline then []
    else if probe.forceKill(id) then [Event.Kill(id, sweep.now)]
    else if HasExited(id, probe.recheck(id)) then [Gone(id)]
    else []
  }

  /** An entry after its outcome: kept, flagged, or forgotten. */
  function Settle(pending: map<Identity, Entry>, id: Identity, outcome: seq<Event>): map<Identity, Entry>
    requires id in pending
  {
    if outcome == [] then pending
    else if outcome[0].Kill? then pending[id := pending[id].(escalated := true)]
    else pending - {id}
  }

  predicate Before(a: Identity, b: Identity) { a.pid < b.pid || (a.pid == b.pid && a.startTime < b.startTime) }

  predicate InOrder(ids: seq<Identity>) {
    forall i, j :: 0 <= i < j < |ids| ==> Before(ids[i], ids[j])
  }

  function InsertIdentity(ids: seq<Identity>, id: Identity): seq<Identity> {
    if ids == [] || Before(id, ids[0]) then [id] + ids else [ids[0]] + InsertIdentity(ids[1..], id)
  }

  lemma {:induction false} InsertInOrder(ids: seq<Identity>, id: Identity)
    requires InOrder(ids) && id !in ids
    ensures InOrder(InsertIdentity(ids, id))
    ensures forall x :: x in InsertIdentity(ids, id) <==> x in ids || x == id
  {
    if ids != [] && !Before(id, ids[0]) {
      var rest := InsertIdentity(ids[1..], id);
      InsertInOrder(ids[1..], id);
      assert forall i :: 0 <= i < |rest| ==> rest[i] in rest;
      assert forall x :: x in ids ==> x == ids[0] || x in ids[1..];
    }
  }

  class Tracker {
    var pending: map<Identity, Entry>

    constructor ()
      ensures pending == map[]
    {
      pending := map[];
    }

    method Record(request: KillRequest, deadline: Time)
      modifies this
      ensures pending == old(pending)[request.Target() := Entry(request, deadline, false)]
    {
      var id := Identity(request.view.process.pid, request.view.info.startTime);
      pending := pending[id := Entry(request, deadline, false)];
    }

    method Remove(id: Identity)
      modifies this
      ensures pending == old(pending) - {id}
    {
      pending := pending - {id};
    }

    method MarkEscalated(id: Identity)
      modifies this
      ensures pending
           == if id in old(pending) then old(pending)[id := old(pending)[id].(escalated := true)] else old(pending)
    {
      if id in pending {
        pending := pending[id := pending[id].(escalated := true)];
      }
    }

    /** All tracked identities, ordered by PID and start time. */
    method Entries() returns (ids: seq<Identity>)
      ensures Lists(ids, pending.Keys)
    {
      ids := [];
      var rest := pending.Keys;
      while rest != {}
        invariant InOrder(ids) && rest <= pending.Keys
        invariant forall id :: id in ids <==> id in pending && id !in rest
        decreases rest
      {
        var id :| id in rest;
        InsertInOrder(ids, id);
        ids := InsertIdentity(ids, id);
        rest := rest - {id};
      }
    }
  }

  // ----- The run -----

  /** What the tracker knows about `id` is what the log says about it. */
  predicate Agrees(pending: map<Identity, Entry>, id: Identity, phase: Phase, grace: int) {
    if id !in pending then phase.Idle?
    else if pending[id].escalated then phase.Escalated?
    else phase.Signalled? && phase.at + grace <= pending[id].deadline
  }

  ghost predicate AllAgree(pending: map<Identity, Entry>, log: seq<Event>, grace: int) {
    forall id :: Agrees(pending, id, PhaseOf(log, id, grace), grace)
  }

  /** While a pass escalates: reached identities the pass allowed wait to be spared. */
  predicate Awaits(pending: map<Identity, Entry>, id: Identity, phase: Phase, grace: int, pardoned: bool) {
    if pardoned && id in pending then phase.Pardoned? else Agrees(pending, id, phase, grace)
  }

  lemma PhaseSnoc(log: seq<Event>, e: Event, id: Identity, grace: int)
    ensures PhaseOf(log + [e], id, grace) == Next(PhaseOf(log, id, grace), id, e, grace)
  {
    assert (log + [e])[..|log|] == log;
  }

  lemma PassPardons(pending: map<Identity, Entry>, log: seq<Event>, grace: int, allowed: set<Identity>,
                    reached: set<Identity>)
    requires AllAgree(pending, log, grace)
    ensures forall id :: Awaits(pending, id, PhaseOf(log + [Pass(allowed, reached)], id, grace), grace,
                                id in allowed && id in reached)
  {
    hide PhaseOf;
    forall id ensures Awaits(pending, id, PhaseOf(log + [Pass(allowed, reached)], id, grace), grace,
                             id in allowed && id in reached) {
      PhaseSnoc(log, Pass(allowed, reached), id, grace);
      assert Agrees(pending, id, PhaseOf(log, id, grace), grace);
    }
  }

  /** One reached entry is settled in the tracker and in the log alike; others are untouched. */
  lemma OutcomeAgrees(pending: map<Identity, Entry>, log: seq<Event>, grace: int, target: Identity, sweep: Sweep,
                      id: Identity, awaiting: bool)
    requires target in pending && (id == target ==> awaiting == (target in sweep.allowed))
    requires Awaits(pending, id, PhaseOf(log, id, grace), grace, awaiting)
    ensures var outcome := Outcome(target, pending[target], sweep);
            Awaits(Settle(pending, target, outcome), id, PhaseOf(log + outcome, id, grace), grace,
                   awaiting && id != target)
  {
    hide PhaseOf, HasExited;
    var outcome := Outcome(target, pending[target], sweep);
    if outcome == [] {
      assert log + outcome == log;
    } else {
      assert outcome == [outcome[0]];
      PhaseSnoc(log, outcome[0], id, grace);
    }
  }

  /** The tracker after a pass whose escalation settled the identities in `reached`. */
  function AfterEscalation(pending: map<Identity, Entry>, reached: set<Identity>, sweep: Sweep): map<Identity, Entry> {
    map id | id in pending && (id in reached ==> Survives(Outcome(id, pending[id], sweep))) ::
      if id in reached && Outcome(id, pending[id], sweep) != [] then pending[id].(escalated := true) else pending[id]
  }

  /** The entry outlives its outcome: nothing happened, or SIGKILL went out. */
  predicate Survives(outcome: seq<Event>) { outcome == [] || outcome[0].Kill? }

  lemma SettleOne(pending: map<Identity, Entry>, done: set<Identity>, sweep: Sweep, id: Identity)
    requires id in pending && id !in done
    ensures var m := AfterEscalation(pending, done, sweep);
            && id in m && m[id] == pending[id]
            && AfterEscalation(pending, done + {id}, sweep) == Settle(m, id, Outcome(id, pending[id], sweep))
  {
    hide Outcome;
  }

  /** The events of an escalation, entry by entry. */
  function Outcomes(ids: seq<Identity>, pending: map<Identity, Entry>, sweep: Sweep): seq<Event>
    requires forall id :: id in ids ==> id in pending
  {
    if ids == [] then []
    else
      var n := |ids| - 1;
      Outcomes(ids[..n], pending, sweep) + Outcome(ids[n], pending[ids[n]], sweep)
  }

  lemma {:induction false} OutcomesHold(ids: seq<Identity>, pending: map<Identity, Entry>, sweep: Sweep, e: Event)
    requires forall id :: id in ids ==> id in pending
    ensures e in Outcomes(ids, pending, sweep) <==> exists id :: id in ids && e in Outcome(id, pending[id], sweep)
  {
    hide Outcome;
    if ids != [] {
      var n := |ids| - 1;
      OutcomesHold(ids[..n], pending, sweep, e);
      assert ids[n] in ids;
      assert forall id :: id in ids <==> id in ids[..n] || id == ids[n];
    }
  }

  // ----- Which entries an escalation reaches -----

  function Preceding(keys: set<Identity>, id: Identity): set<Identity> { set k | k in keys && Before(k, id) }

  /** The identities that fewer than `cancelAt` tracked ones precede. */
  function Reached(keys: set<Identity>, cancelAt: nat): set<Identity> {
    set id | id in keys && |Preceding(keys, id)| < cancelAt
  }

  ghost predicate Lists(ids: seq<Identity>, keys: set<Identity>) {
    InOrder(ids) && forall id :: id in ids <==> id in keys
  }

  function Prefix(ids: seq<Identity>, n: nat): set<Identity>
    requires n <= |ids|
  {
    set i | 0 <= i < n :: ids[i]
  }

  lemma PrefixStep(ids: seq<Identity>, n: nat, limit: nat)
    requires InOrder(ids) && n < limit <= |ids|
    ensures Prefix(ids, n + 1) == Prefix(ids, n) + {ids[n]} && ids[n] !in Prefix(ids, n) && ids[n] in Prefix(ids, limit)
    ensures ids[n] in ids
  {
    forall i | 0 <= i < n ensures ids[i] != ids[n] {
      assert Before(ids[i], ids[n]);
    }
  }

  lemma EnoughForAll(ids: seq<Identity>, keys: set<Identity>)
    requires InOrder(ids) && forall id :: id in ids <==> id in keys
    ensures |ids| == |keys|
    decreases |ids|
  {
    if ids == [] {
      assert keys == {};
    } else {
      var rest := ids[1..];
      assert forall id :: id in rest <==> id in keys - {ids[0]} by {
        assert forall id :: id in ids <==> id == ids[0] || id in rest;
        assert forall i :: 0 <= i < |rest| ==> Before(ids[0], rest[i]);
      }
      EnoughForAll(rest, keys - {ids[0]});
    }
  }

  /** In the sorted list, the position of an identity is the number of those before it. */
  lemma RankIsPosition(ids: seq<Identity>, keys: set<Identity>, n: nat)
    requires Lists(ids, keys) && n < |ids|
    ensures Preceding(keys, ids[n]) == Prefix(ids, n) && |Prefix(ids, n)| == n
  {
    var front := ids[..n];
    assert forall i :: 0 <= i < n ==> front[i] == ids[i];
    EnoughForAll(front, Prefix(ids, n));
    forall k | k in keys ensures Before(k, ids[n]) <==> k in Prefix(ids, n) {
      var i :| 0 <= i < |ids| && ids[i] == k;
    }
  }

  lemma ReachedIsPrefix(ids: seq<Identity>, keys: set<Identity>, cancelAt: nat)
    requires Lists(ids, keys)
    ensures Prefix(ids, if cancelAt < |ids| then cancelAt else |ids|) == Reached(keys, cancelAt)
  {
    hide InOrder;
    var limit := if cancelAt < |ids| then cancelAt else |ids|;
    forall n | 0 <= n < |ids| ensures ids[n] in Reached(keys, cancelAt) <==> n < limit {
      RankIsPosition(ids, keys, n);
    }
    InOrderIsDistinct(ids);
  }

  lemma InOrderIsDistinct(ids: seq<Identity>)
    requires InOrder(ids)
    ensures forall i, j :: 0 <= i < j < |ids| ==> ids[i] != ids[j]
  {
    assert forall i, j :: 0 <= i < j < |ids| ==> Before(ids[i], ids[j]);
  }

  // ----- SIGTERM batches -----

  /** The identities that a pass's decisions allow. */
  function AllowedBy(decisions: seq<Decision>): set<Identity> {
    set d | d in decisions && d.action.Allow? && 0 < d.process.pid :: Identity(d.process.pid, d.info.startTime)
  }

  /** The SIGTERMs of a batch of kill requests; `sent(i)` says whether request `i` was delivered. */
  function TermsOf(requests: seq<KillRequest>, sent: nat -> bool, sentAt: nat -> Time): seq<Event> {
    if requests == [] then []
    else
      var n := |requests| - 1;
      TermsOf(requests[..n], sent, sentAt) + if sent(n) then [Term(requests[n].Target(), sentAt(n))] else []
  }

  /** Every event is a SIGTERM, and no two go to the same PID. */
  predicate OneTermPerPID(events: seq<Event>) {
    && (forall e :: e in events ==> e.Term?)
    && (forall i, j :: 0 <= i < j < |events| ==>
          events[i].Term? && events[j].Term? && events[i].id.pid != events[j].id.pid)
  }

  predicate DistinctRequestPIDs(requests: seq<KillRequest>) {
    forall i, j :: 0 <= i < j < |requests| ==> requests[i].view.process.pid != requests[j].view.process.pid
  }

  lemma {:induction false} TermsAreRequested(requests: seq<KillRequest>, sent: nat -> bool, sentAt: nat -> Time,
                                             e: Event)
    requires e in TermsOf(requests, sent, sentAt)
    ensures e.Term? && exists k :: k in requests && e.id == k.Target()
  {
    var n := |requests| - 1;
    if e in TermsOf(requests[..n], sent, sentAt) {
      TermsAreRequested(requests[..n], sent, sentAt, e);
    } else {
      assert requests[n] in requests;
    }
  }

  lemma {:induction false} TermsAreDistinct(requests: seq<KillRequest>, sent: nat -> bool, sentAt: nat -> Time)
    requires DistinctRequestPIDs(requests)
    ensures OneTermPerPID(TermsOf(requests, sent, sentAt))
  {
    if requests != [] {
      var n := |requests| - 1;
      var front := TermsOf(requests[..n], sent, sentAt);
      TermsAreDistinct(requests[..n], sent, sentAt);
      forall e | e in front ensures e.Term? && e.id.pid != requests[n].view.process.pid {
        TermsAreRequested(requests[..n], sent, sentAt, e);
      }
      assert forall i :: 0 <= i < |front| ==> front[i] in front;
    }
  }

  lemma OneTermPerPIDConcat(xs: seq<Event>, ys: seq<Event>)
    requires OneTermPerPID(xs) && OneTermPerPID(ys)
    requires forall x, y :: x in xs && y in ys ==> x.id.pid != y.id.pid
    ensures OneTermPerPID(xs + ys)
  {
    assert forall i :: 0 <= i < |xs| ==> xs[i] in xs;
    assert forall i :: 0 <= i < |ys| ==> ys[i] in ys;
  }

  predicate DistinctTargets(requests: seq<KillRequest>) {
    forall i, j :: 0 <= i < j < |requests| ==> requests[i].Target() != requests[j].Target()
  }

  /** The tracker after the batch: each delivered request waits from its recording on. */
  function Recorded(pending: map<Identity, Entry>, requests: seq<KillRequest>, sent: nat -> bool,
                    recordedAt: nat -> Time, grace: int): map<Identity, Entry>
  {
    if requests == [] then pending
    else
      var n := |requests| - 1;
      var m := Recorded(pending, requests[..n], sent, recordedAt, grace);
      if sent(n) then m[requests[n].Target() := Entry(requests[n], recordedAt(n) + grace, false)] else m
  }

  lemma {:induction false} RecordedKeys(pending: map<Identity, Entry>, requests: seq<KillRequest>, sent: nat -> bool,
                                        recordedAt: nat -> Time, grace: int, id: Identity)
    requires id in Recorded(pending, requests, sent, recordedAt, grace)
    ensures var m := Recorded(pending, requests, sent, recordedAt, grace);
            || (id in pending && m[id] == pending[id])
            || exists i :: 0 <= i < |requests| && sent(i) && requests[i].Target() == id
                           && m[id] == Entry(requests[i], recordedAt(i) + grace, false)
  {
    if requests != [] {
      var n := |requests| - 1;
      if !(sent(n) && requests[n].Target() == id) {
        RecordedKeys(pending, requests[..n], sent, recordedAt, grace, id);
      }
    }
  }

  lemma NotYetRecorded(pending: map<Identity, Entry>, requests: seq<KillRequest>, n: nat, sent: nat -> bool,
                       recordedAt: nat -> Time, grace: int)
    requires n < |requests| && DistinctTargets(requests) && requests[n].Target() !in pending
    ensures requests[n].Target() !in Recorded(pending, requests[..n], sent, recordedAt, grace)
  {
    if requests[n].Target() in Recorded(pending, requests[..n], sent, recordedAt, grace) {
      RecordedKeys(pending, requests[..n], sent, recordedAt, grace, requests[n].Target());
    }
  }

  lemma {:induction false} RecordedEntry(pending: map<Identity, Entry>, requests: seq<KillRequest>, sent: nat -> bool,
                                         recordedAt: nat -> Time, grace: int, i: nat)
    requires i < |requests| && sent(i) && DistinctTargets(requests)
    ensures var m, id := Recorded(pending, requests, sent, recordedAt, grace), requests[i].Target();
            id in m && m[id] == Entry(requests[i], recordedAt(i) + grace, false)
  {
    var n := |requests| - 1;
    if i < n {
      RecordedEntry(pending, requests[..n], sent, recordedAt, grace, i);
    }
  }

  lemma {:induction false} RecordedOthers(pending: map<Identity, Entry>, requests: seq<KillRequest>, sent: nat -> bool,
                                          recordedAt: nat -> Time, grace: int, id: Identity)
    requires id in pending && forall k :: k in requests ==> k.Target() != id
    ensures var m := Recorded(pending, requests, sent, recordedAt, grace); id in m && m[id] == pending[id]
  {
    if requests != [] {
      RecordedOthers(pending, requests[..|requests| - 1], sent, recordedAt, grace, id);
    }
  }

  lemma {:induction false} SentIsLogged(requests: seq<KillRequest>, sent: nat -> bool, sentAt: nat -> Time, i: nat)
    requires i < |requests| && sent(i)
    ensures Term(requests[i].Target(), sentAt(i)) in TermsOf(requests, sent, sentAt)
  {
    var n := |requests| - 1;
    if i < n {
      SentIsLogged(requests[..n], sent, sentAt, i);
    }
  }

  // ----- Midway through an escalation -----

  /** The first identities of the list are settled, the others wait. */
  ghost predicate Progress(before: map<Identity, Entry>, start: seq<Event>, pending: map<Identity, Entry>,
                           log: seq<Event>,
                           grace: int, ids: seq<Identity>, n: nat, reached: set<Identity>, sweep: Sweep)
  {
    && n <= |ids| && (forall id :: id in ids ==> id in before)
    && pending == AfterEscalation(before, Prefix(ids, n), sweep)
    && log == start + Outcomes(ids[..n], before, sweep)
    && forall id :: Awaits(pending, id, PhaseOf(log, id, grace), grace,
                           id in sweep.allowed && id in reached && id !in Prefix(ids, n))
  }

  lemma ProgressStart(before: map<Identity, Entry>, start: seq<Event>, grace: int, ids: seq<Identity>,
                      reached: set<Identity>, sweep: Sweep)
    requires forall id :: id in ids ==> id in before
    requires forall id :: Awaits(before, id, PhaseOf(start, id, grace), grace, id in sweep.allowed && id in reached)
    ensures Progress(before, start, before, start, grace, ids, 0, reached, sweep)
  {
    hide PhaseOf, Outcome, Awaits;
    assert AfterEscalation(before, Prefix(ids, 0), sweep) == before;
    assert start + Outcomes([], before, sweep) == start && ids[..0] == [];
  }

  lemma ProgressStep(before: map<Identity, Entry>, start: seq<Event>, pending: map<Identity, Entry>, log: seq<Event>,
                     grace: int, ids: seq<Identity>, n: nat, reached: set<Identity>, sweep: Sweep)
    requires Progress(before, start, pending, log, grace, ids, n, reached, sweep)
    requires InOrder(ids) && n < |ids| && ids[n] in reached
    ensures ids[n] in pending && pending[ids[n]] == before[ids[n]]
    ensures var outcome := Outcome(ids[n], before[ids[n]], sweep);
            Progress(before, start, Settle(pending, ids[n], outcome), log + outcome, grace, ids, n + 1, reached, sweep)
  {
    hide AfterEscalation, Awaits, Outcome, PhaseOf, Settle;
    PrefixStep(ids, n, n + 1);
    SettleOne(before, Prefix(ids, n), sweep, ids[n]);
    OutcomesAgree(pending, log, grace, ids[n], sweep, reached, Prefix(ids, n));
    assert ids[..n + 1][..n] == ids[..n];
    assert log + Outcome(ids[n], before[ids[n]], sweep)
        == start + (Outcomes(ids[..n], before, sweep) + Outcome(ids[n], before[ids[n]], sweep));
  }

  lemma ProgressDone(before: map<Identity, Entry>, start: seq<Event>, pending: map<Identity, Entry>, log: seq<Event>,
                     grace: int, ids: seq<Identity>, n: nat, reached: set<Identity>, sweep: Sweep)
    requires Progress(before, start, pending, log, grace, ids, n, reached, sweep) && reached == Prefix(ids, n)
    ensures AllAgree(pending, log, grace)
  {
    hide PhaseOf, AfterEscalation, Outcomes;
    forall id ensures Agrees(pending, id, PhaseOf(log, id, grace), grace) {
      assert Awaits(pending, id, PhaseOf(log, id, grace), grace,
                    id in sweep.allowed && id in reached && id !in Prefix(ids, n));
    }
  }

  /** One settled entry, for every identity at once. */
  lemma OutcomesAgree(pending: map<Identity, Entry>, log: seq<Event>, grace: int, target: Identity, sweep: Sweep,
                      reached: set<Identity>, done: set<Identity>)
    requires target in pending && target in reached && target !in done
    requires forall id :: Awaits(pending, id, PhaseOf(log, id, grace), grace,
                                 id in sweep.allowed && id in reached && id !in done)
    ensures var outcome := Outcome(target, pending[target], sweep);
            forall id :: Awaits(Settle(pending, target, outcome), id, PhaseOf(log + outcome, id, grace), grace,
                                id in sweep.allowed && id in reached && id !in done + {target})
  {
    hide Awaits, Outcome, PhaseOf;
    var outcome := Outcome(target, pending[target], sweep);
    forall id ensures Awaits(Settle(pending, target, outcome), id, PhaseOf(log + outcome, id, grace), grace,
                             id in sweep.allowed && id in reached && id !in done + {target}) {
      OutcomeAgrees(pending, log, grace, target, sweep, id, id in sweep.allowed && id in reached && id !in done);
    }
  }

  /** The staged killer of one daemon: its tracker and, for the proof, everything it ever did. */
  class Enforcer {
    const tracker: Tracker
    const grace: int
    ghost var log: seq<Event>

    constructor (grace: int)
      ensures Valid() && fresh(tracker) && tracker.pending == map[] && this.grace == grace && log == []
    {
      tracker := new Tracker();
      this.grace := grace;
      log := [];
    }

    ghost predicate Valid()
      reads this, tracker
    {
      AllAgree(tracker.pending, log, grace)
    }

    /** Delivers SIGTERM to every request that still validates, and starts its grace period. */
    method ExecutePendingKills(requests: seq<KillRequest>, sent: nat -> bool, sentAt: nat -> Time,
                               recordedAt: nat -> Time)
      returns (failed: bool)
      requires Valid() && forall i :: sentAt(i) <= recordedAt(i)
      requires forall k :: k in requests ==> k.Target() !in tracker.pending
      requires DistinctTargets(requests)
      modifies this, tracker
      ensures Valid() && log == old(log) + TermsOf(requests, sent, sentAt)
      ensures tracker.pending == Recorded(old(tracker.pending), requests, sent, recordedAt, grace)
      ensures failed <==> exists i :: 0 <= i < |requests| && !sent(i)
    {
      hide AllAgree;
      failed := false;
      for n := 0 to |requests|
        invariant Valid() && log == old(log) + TermsOf(requests[..n], sent, sentAt)
        invariant tracker.pending == Recorded(old(tracker.pending), requests[..n], sent, recordedAt, grace)
        invariant failed <==> exists i :: 0 <= i < n && !sent(i)
      {
        assert requests[..n + 1][..n] == requests[..n];
        if !sent(n) {
          failed := true;
        } else {
          NotYetRecorded(old(tracker.pending), requests, n, sent, recordedAt, grace);
          TermAgrees(tracker.pending, log, grace, requests[n], sentAt(n), recordedAt(n));
          tracker.Record(requests[n], recordedAt(n) + grace);
          log := log + [Term(requests[n].Target(), sentAt(n))];
        }
      }
      assert requests[..|requests|] == requests;
    }

    /**
     Escalation at the end of a pass: identities the pass allowed are spared, exits confirmed,
     SIGKILL sent after the grace period.  The context ends before entry `cancelAt` of the list,
     which is sorted by PID and start time.
     */
    method EscalateTerminations(decisions: seq<Decision>, probe: Probe, now: Time, cancelAt: nat)
      requires Valid()
      modifies this, tracker
      ensures Valid()
      ensures Escalates(old(log), old(tracker.pending), log, tracker.pending,
                        Sweep(AllowedBy(decisions), probe, now), cancelAt)
      ensures forall id :: id in old(tracker.pending) && id in AllowedBy(decisions) ==>
                (id !in tracker.pending <==> |Preceding(old(tracker.pending).Keys, id)| < cancelAt)
    {
      hide AllAgree, AfterEscalation, Outcome, Outcomes, PhaseOf, Progress, InOrder;
      var sweep := Sweep(AllowedBy(decisions), probe, now);
      var ids := tracker.Entries();
      var limit := if cancelAt < |ids| then cancelAt else |ids|;
      ghost var before, reached := tracker.pending, Reached(tracker.pending.Keys, cancelAt);
      ReachedIsPrefix(ids, before.Keys, cancelAt);
      PassPardons(before, log, grace, sweep.allowed, reached);
      ghost var past, start := log, log + [Pass(sweep.allowed, reached)];
      ProgressStart(before, start, grace, ids, reached, sweep);
      log := start;
      for n := 0 to limit
        invariant Progress(before, start, tracker.pending, log, grace, ids, n, reached, sweep)
      {
        PrefixStep(ids, n, limit);
        ProgressStep(before, start, tracker.pending, log, grace, ids, n, reached, sweep);
        EscalateOne(ids[n], sweep);
      }
      ProgressDone(before, start, tracker.pending, log, grace, ids, limit, reached, sweep);
      EscalationDone(past, start, log, grace, ids, limit, before, tracker.pending, reached, sweep);
      forall id | id in before && id in sweep.allowed { AllowedIsSparedIff(before, sweep, cancelAt, id); }
    }

    /** Settles one entry: the branch that applies, and its log event. */
    method EscalateOne(id: Identity, sweep: Sweep)
      requires id in tracker.pending
      modifies this, tracker
      ensures log == old(log) + Outcome(id, old(tracker.pending)[id], sweep)
      ensures tracker.pending == Settle(old(tracker.pending), id, Outcome(id, old(tracker.pending)[id], sweep))
    {
      var entry, probe := tracker.pending[id], sweep.probe;
      if id in sweep.allowed {
        tracker.Remove(id);
        log := log + [Spared(id)];
        return;
      }
      var answer := probe.info(id);
      if answer.Unreadable? {
        return;
      }
      if HasExited(id, answer) {
        tracker.Remove(id);
        log := log + [Gone(id)];
        return;
      }
      if probe.bypassed(answer.info) {
        tracker.Remove(id);
        log := log + [Spared(id)];
        return;
      }
      if entry.escalated {
        tracker.Remove(id);
        log := log + [GaveUp(id)];
        return;
      }
      if sweep.now < entry.deadline {
        return;
      }
      if !probe.forceKill(id) {
        if HasExited(id, probe.recheck(id)) {
          tracker.Remove(id);
          log := log + [Gone(id)];
        }
        return;
      }
      tracker.MarkEscalated(id);
      log := log + [Event.Kill(id, sweep.now)];
    }
  }

  /** The log of a pass's escalation: the pass itself, then what happened to each identity it reached, in order. */
  ghost predicate Escalation(before: seq<Event>, after: seq<Event>, ids: seq<Identity>, pending: map<Identity, Entry>,
                             reached: set<Identity>, sweep: Sweep)
  {
    && Lists(ids, reached) && (forall id :: id in ids ==> id in pending)
    && after == before + [Pass(sweep.allowed, reached)] + Outcomes(ids, pending, sweep)
  }

  /** What one escalation makes of the log and the tracker. */
  ghost predicate Escalates(log: seq<Event>, pending: map<Identity, Entry>, log': seq<Event>,
                            pending': map<Identity, Entry>,
                            sweep: Sweep, cancelAt: nat)
  {
    && pending' == AfterEscalation(pending, Reached(pending.Keys, cancelAt), sweep)
    && exists ids :: Escalation(log, log', ids, pending, Reached(pending.Keys, cancelAt), sweep)
  }

  lemma EscalationDone(past: seq<Event>, start: seq<Event>, log: seq<Event>, grace: int, ids: seq<Identity>, n: nat,
                       before: map<Identity, Entry>, pending: map<Identity, Entry>, reached: set<Identity>,
                       sweep: Sweep)
    requires Progress(before, start, pending, log, grace, ids, n, reached, sweep)
    requires InOrder(ids) && reached == Prefix(ids, n) && start == past + [Pass(sweep.allowed, reached)]
    ensures Escalation(past, log, ids[..n], before, reached, sweep)
    ensures pending == AfterEscalation(before, reached, sweep)
  {
    hide PhaseOf, AfterEscalation, Outcomes, Awaits;
    assert forall i :: 0 <= i < n ==> ids[..n][i] == ids[i];
  }

  lemma TermAgrees(pending: map<Identity, Entry>, log: seq<Event>, grace: int, request: KillRequest, sentAt: Time,
                   recordedAt: Time)
    requires AllAgree(pending, log, grace) && request.Target() !in pending && sentAt <= recordedAt
    ensures AllAgree(pending[request.Target() := Entry(request, recordedAt + grace, false)],
                     log + [Term(request.Target(), sentAt)], grace)
  {
    hide PhaseOf;
    var target := request.Target();
    forall id ensures Agrees(pending[target := Entry(request, recordedAt + grace, false)], id,
                             PhaseOf(log + [Term(target, sentAt)], id, grace), grace) {
      PhaseSnoc(log, Term(target, sentAt), id, grace);
      assert Agrees(pending, id, PhaseOf(log, id, grace), grace);
    }
  }

  // ----- What an allow decision is worth -----

  /** A tracked identity that a pass allows is let go exactly when fewer than `cancelAt` tracked ones precede it. */
  lemma AllowedIsSparedIff(pending: map<Identity, Entry>, sweep: Sweep, cancelAt: nat, id: Identity)
    requires id in pending && id in sweep.allowed
    ensures id !in AfterEscalation(pending, Reached(pending.Keys, cancelAt), sweep)
            <==> |Preceding(pending.Keys, id)| < cancelAt
  {
    assert Outcome(id, pending[id], sweep) == [Spared(id)];
  }

  lemma ListOfNone(ids: seq<Identity>)
    requires Lists(ids, {})
    ensures ids == []
  {
    EnoughForAll(ids, {});
  }

  lemma ListOfOne(ids: seq<Identity>, id: Identity)
    requires Lists(ids, {id})
    ensures ids == [id]
  {
    EnoughForAll(ids, {id});
    assert ids[0] in ids;
  }

  /**
   A run in which an allow saves nobody: SIGTERM, a pass that allows the process but ends before
   its entry, and SIGKILL on the next pass.
   */
  method CutPassDoesNotSpare(request: KillRequest, probe: Probe, grace: nat, sentAt: Time) returns (e: Enforcer)
    requires 0 < request.view.process.pid && probe.forceKill(request.Target())
    requires Sweep({}, probe, sentAt + grace).Exposes(request.Target())
    ensures fresh(e) && fresh(e.tracker) && e.Valid()
    ensures var id := request.Target();
            e.log == [Term(id, sentAt), Pass({id}, {}), Pass({}, {id}), Event.Kill(id, sentAt + grace)]
  {
    hide AllAgree, Reached, Preceding, AfterEscalation, TermsOf, Recorded, Lists, Outcomes;
    ghost var id := request.Target();
    e := new Enforcer(grace);
    SingleBatch(request, sentAt, grace);
    var _ := e.ExecutePendingKills([request], (i: nat) => true, (i: nat) => sentAt, (i: nat) => sentAt);
    ghost var pending := e.tracker.pending;
    assert pending == map[id := Entry(request, sentAt + grace, false)] && e.log == [Term(id, sentAt)];
    assert pending.Keys == {id};
    var allow := Plain(request.view.process, request.view.info, Allow, ByAuthorization);
    assert AllowedBy([allow]) == {id};
    SingleReached(id);
    e.EscalateTerminations([allow], probe, sentAt, 0);
    ghost var none :| Escalation([Term(id, sentAt)], e.log, none, pending, {}, Sweep({id}, probe, sentAt));
    ListOfNone(none);
    NothingReached(pending, Sweep({id}, probe, sentAt));
    assert e.log == [Term(id, sentAt), Pass({id}, {})];
    assert AllowedBy([]) == {};
    e.EscalateTerminations([], probe, sentAt + grace, 1);
    ghost var one :| Escalation([Term(id, sentAt), Pass({id}, {})], e.log, one, pending, {id},
                                Sweep({}, probe, sentAt + grace));
    ListOfOne(one, id);
    OutcomesOfOne(pending, Sweep({}, probe, sentAt + grace), id);
  }

  lemma NothingReached(pending: map<Identity, Entry>, sweep: Sweep)
    ensures AfterEscalation(pending, {}, sweep) == pending && Outcomes([], pending, sweep) == []
  {
  }

  lemma OutcomesOfOne(pending: map<Identity, Entry>, sweep: Sweep, id: Identity)
    requires id in pending
    ensures Outcomes([id], pending, sweep) == Outcome(id, pending[id], sweep)
  {
    assert [id][..0] == [] && Outcomes([], pending, sweep) == [];
  }

  lemma SingleBatch(request: KillRequest, sentAt: Time, grace: int)
    ensures TermsOf([request], (i: nat) => true, (i: nat) => sentAt) == [Term(request.Target(), sentAt)]
    ensures Recorded(map[], [request], (i: nat) => true, (i: nat) => sentAt, grace)
         == map[request.Target() := Entry(request, sentAt + grace, false)]
  {
    assert [request][..0] == [];
  }

  lemma SingleReached(id: Identity)
    ensures Reached({id}, 0) == {} && Reached({id}, 1) == {id}
  {
    assert Preceding({id}, id) == {};
  }

  // ----- Both signals in one pass -----

  /** A reached, exposed process with a fresh entry gets SIGKILL in this pass exactly when its grace period is over. */
  lemma KilledAtOnceIff(pending: map<Identity, Entry>, ids: seq<Identity>, cancelAt: nat, sweep: Sweep, id: Identity)
    requires Lists(ids, Reached(pending.Keys, cancelAt)) && id in pending && |Preceding(pending.Keys, id)| < cancelAt
    requires sweep.Exposes(id) && sweep.probe.forceKill(id) && !pending[id].escalated
    ensures Event.Kill(id, sweep.now) in Outcomes(ids, pending, sweep) <==> pending[id].deadline <= sweep.now
  {
    hide InOrder, Preceding;
    OutcomesHold(ids, pending, sweep, Event.Kill(id, sweep.now));
    forall k | k in ids && Event.Kill(id, sweep.now) in Outcome(k, pending[k], sweep) ensures k == id {
    }
  }

  /** Within the new part of a log, a process that got SIGTERM also got SIGKILL exactly from its deadline on. */
  ghost predicate BothSignalsIff(added: seq<Event>, id: Identity, sentAt: Time, deadline: Time,
                                 tracked: map<Identity, Entry>, sweep: Sweep, cancelAt: nat)
  {
    |Preceding(tracked.Keys, id)| < cancelAt && sweep.Exposes(id) && sweep.probe.forceKill(id) ==>
      Term(id, sentAt) in added && (Event.Kill(id, sweep.now) in added <==> deadline <= sweep.now)
  }

  lemma BothSignalsLogged(added: seq<Event>, terms: seq<Event>, ids: seq<Identity>, id: Identity, sentAt: Time,
                          tracked: map<Identity, Entry>, sweep: Sweep, cancelAt: nat)
    requires Lists(ids, Reached(tracked.Keys, cancelAt)) && id in tracked && !tracked[id].escalated
    requires added == terms + [Pass(sweep.allowed, Reached(tracked.Keys, cancelAt))] + Outcomes(ids, tracked, sweep)
    requires Term(id, sentAt) in terms && forall e :: e in terms ==> e.Term?
    ensures BothSignalsIff(added, id, sentAt, tracked[id].deadline, tracked, sweep, cancelAt)
  {
    hide Outcomes, Reached, Preceding, InOrder, Outcome;
    if |Preceding(tracked.Keys, id)| < cancelAt && sweep.Exposes(id) && sweep.probe.forceKill(id) {
      KilledAtOnceIff(tracked, ids, cancelAt, sweep, id);
    }
  }
}
