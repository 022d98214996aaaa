/**
 The signals of one monitor pass: two batches of SIGTERMs and the escalation after them, and the
 decisions that they carry out.
 */
module Signalling {
  import opened Model
  import opened Sequences
  import opened StoreOps
  import opened StoreRuns
  import opened Scopes
  import opened Planning
  import opened Eviction
  import opened EnforcePass
  import opened StateRules
  import opened Terminations
  import opened Cleanup

  /** How one batch of SIGTERMs fares: which are delivered, when, and when each is recorded. */
  datatype Delivery = Delivery(sent: nat -> bool, sentAt: nat -> Time, recordedAt: nat -> Time)
  {
    ghost predicate Causal() { forall i :: sentAt(i) <= recordedAt(i) }
  }

  datatype SignalEnv = SignalEnv(
    evictAt: Time, enforceAt: Time, escalateAt: Time, evictCancel: nat, escalateCancel: nat,
    evictKills: Delivery, enforceKills: Delivery, probe: Probe)
  {
    ghost predicate Causal() { evictKills.Causal() && enforceKills.Causal() }
  }

  lemma DistinctPIDsDistinctTargets(requests: seq<KillRequest>)
    requires DistinctRequestPIDs(requests)
    ensures DistinctTargets(requests)
  {
  }

  /** PIDs that eviction decided about are out of the sample that enforcement sees. */
  function Remaining(rows: seq<GPUProcess>, decisions: seq<Decision>): seq<GPUProcess> {
    var targeted := set d | d in decisions && 0 < d.process.pid :: d.process.pid;
    Filter((row: GPUProcess) => row.pid !in targeted, rows)
  }

  lemma EnforcedPIDsDiffer(rules: Enforcement.Rules, rows: seq<GPUProcess>, evicted: seq<Decision>,
                           enforced: seq<Decision>, k: KillRequest, k': KillRequest)
    requires forall d :: d in evicted ==> 0 < d.process.pid
    requires KillDecision(k.view, k.blame) in evicted && KillDecision(k'.view, k'.blame) in enforced
    requires AllJustified(rules, Remaining(rows, evicted), enforced)
    ensures k.view.process.pid != k'.view.process.pid
  {
    hide AllJustified;
    KillIsJustified(rules, Remaining(rows, evicted), enforced, KillDecision(k'.view, k'.blame));
  }

  lemma KillIsJustified(rules: Enforcement.Rules, rows: seq<GPUProcess>, decisions: seq<Decision>, d: Decision)
    requires AllJustified(rules, rows, decisions) && d in decisions && d.action.Kill?
    ensures d.process in rows
  {
  }

  /** The kill requests of eviction and of enforcement, in the order of their delivery. */
  datatype Batches = Batches(first: seq<KillRequest>, second: seq<KillRequest>)

  lemma BatchesAreDistinct(rules: Enforcement.Rules, rows: seq<GPUProcess>, evicted: seq<Decision>,
                           enforced: seq<Decision>, b: Batches)
    requires DistinctRequestPIDs(b.first) && DistinctRequestPIDs(b.second)
    requires forall e :: e in evicted ==> 0 < e.process.pid
    requires forall k :: k in b.first ==> KillDecision(k.view, k.blame) in evicted
    requires forall k :: k in b.second ==> KillDecision(k.view, k.blame) in enforced
    requires AllJustified(rules, Remaining(rows, evicted), enforced)
    ensures DistinctRequestPIDs(b.first + b.second)
  {
    hide AllJustified, Remaining;
    var both := b.first + b.second;
    forall i, j | 0 <= i < j < |both| ensures both[i].view.process.pid != both[j].view.process.pid {
      if i < |b.first| <= j {
        assert both[i] in b.first && both[j] in b.second;
        EnforcedPIDsDiffer(rules, rows, evicted, enforced, both[i], both[j]);
      }
    }
  }

  predicate NoTerms(events: seq<Event>) { forall e :: e in events ==> !e.Term? }

  /** Each SIGTERM carries out a kill decision, on the very process that was decided about. */
  predicate CarryOut(terms: seq<Event>, decisions: seq<Decision>) {
    forall t :: t in terms ==>
      t.Term? && exists d :: d in decisions && d.action.Kill? && t.id == Identity(d.process.pid, d.info.startTime)
  }

  lemma BatchCarriesOut(requests: seq<KillRequest>, d: Delivery, decisions: seq<Decision>)
    requires forall k :: k in requests ==> KillDecision(k.view, k.blame) in decisions
    ensures CarryOut(TermsOf(requests, d.sent, d.sentAt), decisions)
  {
    hide TermsOf;
    forall t | t in TermsOf(requests, d.sent, d.sentAt)
      ensures t.Term?
      ensures exists e :: e in decisions && e.action.Kill? && t.id == Identity(e.process.pid, e.info.startTime) {
      TermsAreRequested(requests, d.sent, d.sentAt, t);
      var k :| k in requests && t.id == k.Target();
      assert KillDecision(k.view, k.blame) in decisions;
    }
  }

  lemma CarryOutTogether(first: seq<Event>, evicted: seq<Decision>, second: seq<Event>, enforced: seq<Decision>)
    requires CarryOut(first, evicted) && CarryOut(second, enforced)
    ensures CarryOut(first + second, evicted + enforced)
  {
  }

  lemma OutcomesAreNoTerms(ids: seq<Identity>, pending: map<Identity, Entry>, sweep: Sweep)
    requires forall id :: id in ids ==> id in pending
    ensures NoTerms(Outcomes(ids, pending, sweep))
  {
    hide Outcomes;
    forall e | e in Outcomes(ids, pending, sweep) ensures !e.Term? {
      OutcomesHold(ids, pending, sweep, e);
    }
  }

  /**
   Eviction decides about exactly the first row to be evicted of each PID; enforcement about the
   rest, as its rules demand, about each row unless a lookup failed, and gives up abandoned claims.
   */
  ghost predicate FollowsEvidence(snapshot: State, host: Host, rows: seq<GPUProcess>, env: SignalEnv,
                                  evicted: seq<Decision>, enforced: seq<Decision>)
  {
    && Decides(Inspect(snapshot, host, env.evictAt), LookedAt(snapshot, rows, env.evictAt, env.evictCancel), evicted)
    && Enforces(RulesFor(snapshot, host, env.enforceAt), Remaining(rows, evicted), enforced)
  }

  ghost predicate Enforces(rules: Enforcement.Rules, rows: seq<GPUProcess>, decisions: seq<Decision>) {
    && AllJustified(rules, rows, decisions)
    && (Answered(decisions) == multiset(rows) || EnforcePass.LookupFailed(rules, rows))
    && forall claim :: claim in rules.softClaims && Abandoned(rules, rows, claim) ==>
         ReleaseDecision(claim) in decisions
  }

  lemma EvictedPIDsAreReal(led: Ledger, rows: seq<GPUProcess>, decisions: seq<Decision>)
    requires Decides(led, rows, decisions)
    ensures forall d :: d in decisions ==> 0 < d.process.pid
  {
    hide Decides;
    DecidesMeans(led, rows, decisions);
  }

  // ----- All signals of a pass -----

  function TermsOfPass(b: Batches, env: SignalEnv): seq<Event> {
    TermsOf(b.first, env.evictKills.sent, env.evictKills.sentAt)
    + TermsOf(b.second, env.enforceKills.sent, env.enforceKills.sentAt)
  }

  /** The tracker between the SIGTERMs of a pass and its escalation. */
  function TrackedInPass(pending: map<Identity, Entry>, b: Batches, env: SignalEnv, grace: int): map<Identity, Entry> {
    Recorded(Recorded(pending, b.first, env.evictKills.sent, env.evictKills.recordedAt, grace),
             b.second, env.enforceKills.sent, env.enforceKills.recordedAt, grace)
  }

  function SweepOf(decisions: seq<Decision>, env: SignalEnv): Sweep {
    Sweep(AllowedBy(decisions), env.probe, env.escalateAt)
  }

  /**
   What a pass does to the log and the tracker: SIGTERMs to distinct PIDs, each carrying out a kill
   decision, every kill decision requested or under way, and then an escalation.
   */
  ghost predicate PassSignals(log: seq<Event>, pending: map<Identity, Entry>, log': seq<Event>,
                              pending': map<Identity, Entry>, decisions: seq<Decision>, b: Batches, env: SignalEnv,
                              grace: int, dryRun: bool)
  {
    && DistinctRequestPIDs(b.first + b.second) && OneTermPerPID(TermsOfPass(b, env))
    && CarryOut(TermsOfPass(b, env), decisions) && Queued(decisions, b.first + b.second, pending.Keys, dryRun)
    && if dryRun then b == Batches([], []) && log' == log && pending' == pending
       else Escalates(log + TermsOfPass(b, env), TrackedInPass(pending, b, env, grace), log', pending',
                      SweepOf(decisions, env), env.escalateCancel)
  }

  lemma DistinctHalves(first: seq<KillRequest>, second: seq<KillRequest>)
    requires DistinctRequestPIDs(first + second)
    ensures DistinctRequestPIDs(first) && DistinctRequestPIDs(second)
    ensures forall k, k' :: k in first && k' in second ==> k.view.process.pid != k'.view.process.pid
  {
    var both := first + second;
    assert forall i :: 0 <= i < |first| ==> both[i] == first[i];
    assert forall i :: 0 <= i < |second| ==> both[|first| + i] == second[i];
    forall k, k' | k in first && k' in second ensures k.view.process.pid != k'.view.process.pid {
      var i :| 0 <= i < |first| && first[i] == k;
      var j :| 0 <= j < |second| && second[j] == k';
      assert both[i] == k && both[|first| + j] == k';
    }
  }

  lemma BatchTerms(b: Batches, env: SignalEnv)
    requires DistinctRequestPIDs(b.first + b.second)
    ensures OneTermPerPID(TermsOfPass(b, env))
  {
    hide TermsOf, OneTermPerPID, DistinctRequestPIDs;
    var d, d' := env.evictKills, env.enforceKills;
    var xs, ys := TermsOf(b.first, d.sent, d.sentAt), TermsOf(b.second, d'.sent, d'.sentAt);
    DistinctHalves(b.first, b.second);
    TermsAreDistinct(b.first, d.sent, d.sentAt);
    TermsAreDistinct(b.second, d'.sent, d'.sentAt);
    TermsOnly(b, env);
    forall x, y | x in xs && y in ys ensures x.id.pid != y.id.pid {
      TermsAreRequested(b.first, d.sent, d.sentAt, x);
      TermsAreRequested(b.second, d'.sent, d'.sentAt, y);
      var k :| k in b.first && x.id == k.Target();
      var k' :| k' in b.second && y.id == k'.Target();
    }
    OneTermPerPIDConcat(xs, ys);
  }

  /** Of a batch: who got SIGTERM in this pass also got SIGKILL in it exactly from the end of the grace period on. */
  ghost predicate BothIff(added: seq<Event>, requests: seq<KillRequest>, d: Delivery, grace: int,
                          tracked: map<Identity, Entry>, sweep: Sweep, cancelAt: nat)
  {
    forall i :: 0 <= i < |requests| && d.sent(i) ==>
      BothSignalsIff(added, requests[i].Target(), d.sentAt(i), d.recordedAt(i) + grace, tracked, sweep, cancelAt)
  }

  /** Both signals in one pass, for both batches. */
  ghost predicate BothSignals(log: seq<Event>, pending: map<Identity, Entry>, log': seq<Event>,
                              decisions: seq<Decision>, b: Batches, env: SignalEnv, grace: int)
    requires |log| <= |log'|
  {
    var tracked, sweep := TrackedInPass(pending, b, env, grace), SweepOf(decisions, env);
    && BothIff(log'[|log|..], b.first, env.evictKills, grace, tracked, sweep, env.escalateCancel)
    && BothIff(log'[|log|..], b.second, env.enforceKills, grace, tracked, sweep, env.escalateCancel)
  }

  /** What both batches leave in the tracker. */
  lemma TrackedEntries(pending: map<Identity, Entry>, b: Batches, env: SignalEnv, grace: int)
    requires DistinctRequestPIDs(b.first + b.second)
    ensures var tracked := TrackedInPass(pending, b, env, grace);
            && (forall i :: 0 <= i < |b.first| && env.evictKills.sent(i) ==>
                  var id := b.first[i].Target();
                  id in tracked && tracked[id] == Entry(b.first[i], env.evictKills.recordedAt(i) + grace, false))
            && (forall i :: 0 <= i < |b.second| && env.enforceKills.sent(i) ==>
                  var id := b.second[i].Target();
                  id in tracked && tracked[id] == Entry(b.second[i], env.enforceKills.recordedAt(i) + grace, false))
  {
    hide Recorded;
    var d, d', both := env.evictKills, env.enforceKills, b.first + b.second;
    assert forall i :: 0 <= i < |b.first| ==> both[i] == b.first[i];
    assert forall i :: 0 <= i < |b.second| ==> both[|b.first| + i] == b.second[i];
    var after := Recorded(pending, b.first, d.sent, d.recordedAt, grace);
    forall i | 0 <= i < |b.first| && d.sent(i)
      ensures var id, tracked := b.first[i].Target(), TrackedInPass(pending, b, env, grace);
              id in tracked && tracked[id] == Entry(b.first[i], d.recordedAt(i) + grace, false) {
      RecordedEntry(pending, b.first, d.sent, d.recordedAt, grace, i);
      forall k | k in b.second ensures k.Target() != b.first[i].Target() {
        var j :| 0 <= j < |b.second| && b.second[j] == k;
        assert both[i].view.process.pid != both[|b.first| + j].view.process.pid;
      }
      RecordedOthers(after, b.second, d'.sent, d'.recordedAt, grace, b.first[i].Target());
    }
    forall i | 0 <= i < |b.second| && d'.sent(i)
      ensures var id, tracked := b.second[i].Target(), TrackedInPass(pending, b, env, grace);
              id in tracked && tracked[id] == Entry(b.second[i], d'.recordedAt(i) + grace, false) {
      assert DistinctTargets(b.second);
      RecordedEntry(after, b.second, d'.sent, d'.recordedAt, grace, i);
    }
  }

  /** A pass sends both signals to a process that it reaches, exposed and killable, exactly from its deadline on. */
  lemma PassSendsBothIff(log: seq<Event>, pending: map<Identity, Entry>, log': seq<Event>,
                         pending': map<Identity, Entry>, decisions: seq<Decision>, b: Batches, env: SignalEnv,
                         grace: int)
    requires PassSignals(log, pending, log', pending', decisions, b, env, grace, false)
    ensures |log| <= |log'| && BothSignals(log, pending, log', decisions, b, env, grace)
  {
    hide TermsOf, Recorded, AfterEscalation, Outcomes, Reached, Preceding, OneTermPerPID, CarryOut, Queued;
    hide BothSignalsIff;
    var terms, tracked, sweep := TermsOfPass(b, env), TrackedInPass(pending, b, env, grace), SweepOf(decisions, env);
    var reached := Reached(tracked.Keys, env.escalateCancel);
    var ids :| Escalation(log + terms, log', ids, tracked, reached, sweep);
    var added := log'[|log|..];
    assert added == terms + [Pass(sweep.allowed, reached)] + Outcomes(ids, tracked, sweep);
    TermsOnly(b, env);
    TrackedEntries(pending, b, env, grace);
    forall i | 0 <= i < |b.first| && env.evictKills.sent(i)
      ensures BothSignalsIff(added, b.first[i].Target(), env.evictKills.sentAt(i), env.evictKills.recordedAt(i) + grace,
                             tracked, sweep, env.escalateCancel) {
      SentIsLogged(b.first, env.evictKills.sent, env.evictKills.sentAt, i);
      BothSignalsLogged(added, terms, ids, b.first[i].Target(), env.evictKills.sentAt(i), tracked, sweep,
                        env.escalateCancel);
    }
    forall i | 0 <= i < |b.second| && env.enforceKills.sent(i)
      ensures BothSignalsIff(added, b.second[i].Target(), env.enforceKills.sentAt(i),
                             env.enforceKills.recordedAt(i) + grace, tracked, sweep, env.escalateCancel) {
      SentIsLogged(b.second, env.enforceKills.sent, env.enforceKills.sentAt, i);
      BothSignalsLogged(added, terms, ids, b.second[i].Target(), env.enforceKills.sentAt(i), tracked, sweep,
                        env.escalateCancel);
    }
  }

  lemma TermsOnly(b: Batches, env: SignalEnv)
    ensures forall e :: e in TermsOfPass(b, env) ==> e.Term?
  {
    hide TermsOf;
    forall e | e in TermsOfPass(b, env) ensures e.Term? {
      if e in TermsOf(b.first, env.evictKills.sent, env.evictKills.sentAt) {
        TermsAreRequested(b.first, env.evictKills.sent, env.evictKills.sentAt, e);
      } else {
        TermsAreRequested(b.second, env.enforceKills.sent, env.enforceKills.sentAt, e);
      }
    }
  }

  /** An escalation continues the log and sends no SIGTERM. */
  lemma EscalationContinues(log: seq<Event>, pending: map<Identity, Entry>, log': seq<Event>,
                            pending': map<Identity, Entry>, sweep: Sweep, cancelAt: nat)
    requires Escalates(log, pending, log', pending', sweep, cancelAt)
    ensures log <= log' && NoTerms(log'[|log|..]) && forall h :: |log| <= h < |log'| ==> !log'[h].Term?
  {
    hide Outcomes, AfterEscalation, Reached;
    var reached := Reached(pending.Keys, cancelAt);
    var ids :| Escalation(log, log', ids, pending, reached, sweep);
    OutcomesAreNoTerms(ids, pending, sweep);
    var tail := log'[|log|..];
    assert tail == [Pass(sweep.allowed, reached)] + Outcomes(ids, pending, sweep);
    forall h | |log| <= h < |log'| ensures !log'[h].Term? {
      assert tail[h - |log|] in tail && tail[h - |log|] == log'[h];
    }
  }

  lemma PassContinues(log: seq<Event>, pending: map<Identity, Entry>, log': seq<Event>,
                      pending': map<Identity, Entry>, decisions: seq<Decision>, b: Batches, env: SignalEnv, grace: int,
                      dryRun: bool)
    requires PassSignals(log, pending, log', pending', decisions, b, env, grace, dryRun)
    ensures log <= log'
  {
    hide Escalates, TermsOfPass, TrackedInPass, OneTermPerPID, CarryOut, Queued;
    if !dryRun {
      var terms := TermsOfPass(b, env);
      EscalationContinues(log + terms, TrackedInPass(pending, b, env, grace), log', pending', SweepOf(decisions, env),
                          env.escalateCancel);
    }
  }

  /** Requests of the second batch may be under way because of the first. */
  lemma QueuedTogether(evicted: seq<Decision>, enforced: seq<Decision>, b: Batches, pending: map<Identity, Entry>,
                       env: SignalEnv, grace: int, dryRun: bool)
    requires Queued(evicted, b.first, pending.Keys, dryRun)
    requires Queued(enforced, b.second,
                    Recorded(pending, b.first, env.evictKills.sent, env.evictKills.recordedAt, grace).Keys, dryRun)
    ensures Queued(evicted + enforced, b.first + b.second, pending.Keys, dryRun)
  {
    hide Recorded;
    var d0 := env.evictKills;
    forall d | d in evicted + enforced && d.action.Kill? && !dryRun
      ensures var id := Identity(d.process.pid, d.info.startTime);
              id in pending.Keys || exists k :: k in b.first + b.second && k.Target() == id {
      var id := Identity(d.process.pid, d.info.startTime);
      if d in evicted {
        assert id in pending.Keys || exists k :: k in b.first && k.Target() == id;
      } else if id in Recorded(pending, b.first, d0.sent, d0.recordedAt, grace) {
        RecordedKeys(pending, b.first, d0.sent, d0.recordedAt, grace, id);
        if id !in pending {
          var i :| 0 <= i < |b.first| && d0.sent(i) && b.first[i].Target() == id;
          assert b.first[i] in b.first + b.second;
        }
      }
    }
  }

  // ----- Claims -----

  /** The store operation behind a claim decision, if any. */
  function ClaimApplied(s: State, d: Decision, now: Time, id: string, saved: bool): State {
    if d.action.MakeClaim? then Apply(s, UpsertSoftClaimOp(d.claim, id, now), saved)
    else if d.action.ReleaseClaim? then Apply(s, ReleaseSoftClaimOp(d.claimID), saved)
    else s
  }

  function AfterClaims(s: State, decisions: seq<Decision>, now: Time, freshID: nat -> string, saved: nat -> bool): State
  {
    if decisions == [] then s
    else
      var n := |decisions| - 1;
      ClaimApplied(AfterClaims(s, decisions[..n], now, freshID, saved), decisions[n], now, freshID(n), saved(n))
  }

  lemma {:induction false} AfterClaimsKeeps(s: State, decisions: seq<Decision>, now: Time, freshID: nat -> string,
                                            saved: nat -> bool, clock: Time)
    requires Healthy(s, clock)
    ensures var s' := AfterClaims(s, decisions, now, freshID, saved); Healthy(s', clock) && SameGrants(s, s')
  {
    hide Healthy, Apply;
    if decisions != [] {
      var n := |decisions| - 1;
      AfterClaimsKeeps(s, decisions[..n], now, freshID, saved, clock);
      var s1, d := AfterClaims(s, decisions[..n], now, freshID, saved), decisions[n];
      if d.action.MakeClaim? {
        ClaimsKeepHealthy(s1, UpsertSoftClaimOp(d.claim, freshID(n), now), saved(n), clock);
      } else if d.action.ReleaseClaim? {
        ClaimsKeepHealthy(s1, ReleaseSoftClaimOp(d.claimID), saved(n), clock);
      }
    }
  }

  lemma {:induction false} AfterClaimsStep(s: State, decisions: seq<Decision>, now: Time, freshID: nat -> string,
                                           saved: nat -> bool, n: nat)
    requires n < |decisions|
    ensures AfterClaims(s, decisions[..n + 1], now, freshID, saved)
         == ClaimApplied(AfterClaims(s, decisions[..n], now, freshID, saved), decisions[n], now, freshID(n), saved(n))
  {
    assert decisions[..n + 1][..n] == decisions[..n];
  }
}
