/**
 The daemon's monitor loop: eviction, enforcement, escalation, cleanup and pruning over the
 stored state, pass after pass, with client requests in between.
 */
module Daemon {
  import opened Model
  import opened Sequences
  import opened StoreOps
  import opened StoreRuns
  import opened Naming
  import opened Scopes
  import opened Planning
  import opened Eviction
  import opened EnforcePass
  import opened StateRules
  import opened Terminations
  import opened Retention
  import opened Cleanup
  import opened Rounds
  import opened Signalling
  import opened DaemonRuns

  class Server {
    var state: State
    var evictionClean: map<ScopeKey, nat>
    /** The latest clock reading. */
    var clock: Time
    const enforcer: Enforcer
    const dryRun: bool
    ghost var history: seq<Round>

    ghost function Current(): World
      reads this, enforcer, enforcer.tracker
    {
      World(state, evictionClean, history, clock, enforcer.log, enforcer.tracker.pending)
    }

    ghost predicate Valid()
      reads this, enforcer, enforcer.tracker
    {
      Consistent(Current(), enforcer.grace)
    }

    /** A daemon starts from the stored state, without counters and without tracked kills. */
    constructor (state: State, clock: Time, grace: int, dryRun: bool)
      requires Healthy(state, clock)
      ensures Valid() && Current() == World(state, map[], [], clock, [], map[])
      ensures fresh(enforcer) && fresh(enforcer.tracker) && enforcer.grace == grace && this.dryRun == dryRun
    {
      this.state, this.clock, this.dryRun := state, clock, dryRun;
      evictionClean, history := map[], [];
      enforcer := new Enforcer(grace);
    }

    /** Counts consecutive clean samples of each assessed scope and forgets the others. */
    method RecordEvictionAssessment(a: Assessment, ghost round: Round)
      requires Counts(evictionClean, history) && round.assessment == a
      modifies this`evictionClean, this`history
      ensures Counts(evictionClean, history) && history == old(history) + [round]
    {
      hide Counts, Tallied;
      ghost var before := evictionClean;
      assert Tallied(before, evictionClean, a, {}) by { NothingTallied(before, a); }
      var seen: set<ScopeKey> := {};
      var ids := a.authorizations.Keys;
      while ids != {}
        invariant ids <= a.authorizations.Keys
        invariant forall key :: key in seen <==> key.OfAuthorization? && key.id in a.authorizations && key.id !in ids
        invariant Tallied(before, evictionClean, a, seen) && history == old(history)
        decreases ids
      {
        var id :| id in ids;
        var key := OfAuthorization(id);
        TallyOne(before, evictionClean, a, seen, key);
        evictionClean := evictionClean[key := if a.authorizations[id] then Count(evictionClean, key) + 1 else 0];
        seen := seen + {key};
        ids := ids - {id};
      }
      ids := a.leases.Keys;
      while ids != {}
        invariant ids <= a.leases.Keys
        invariant forall key :: key in seen <==> SeenIn(a, key) && (key.OfLease? ==> key.id !in ids)
        invariant Tallied(before, evictionClean, a, seen) && history == old(history)
        decreases ids
      {
        var id :| id in ids;
        var key := OfLease(id);
        TallyOne(before, evictionClean, a, seen, key);
        evictionClean := evictionClean[key := if a.leases[id] then Count(evictionClean, key) + 1 else 0];
        seen := seen + {key};
        ids := ids - {id};
      }
      TallyAll(before, evictionClean, history, round, seen);
      evictionClean := map key | key in evictionClean && key in seen :: evictionClean[key];
      history := history + [round];
    }

    /** Plans and delivers the evictions of a sample, and counts its assessment. */
    method Evict(snapshot: State, host: Host, rows: seq<GPUProcess>, env: SignalEnv)
      returns (decisions: seq<Decision>, requests: seq<KillRequest>, failed: bool, ghost round: Round)
      requires Counts(evictionClean, history) && enforcer.Valid() && env.evictKills.Causal()
      modifies this`evictionClean, this`history, enforcer, enforcer.tracker
      ensures Counts(evictionClean, history) && enforcer.Valid()
      ensures history == old(history) + [round] && round.Sound()
      ensures round == Round(snapshot, host, rows, env.evictAt, env.evictCancel, failed, round.assessment)
      ensures failed <==> || PlanningFails(snapshot, host, rows, env.evictAt, env.evictCancel)
                          || exists i :: 0 <= i < |requests| && !env.evictKills.sent(i)
      ensures Decides(Inspect(snapshot, host, env.evictAt), LookedAt(snapshot, rows, env.evictAt, env.evictCancel),
                      decisions)
      ensures DistinctRequestPIDs(requests) && forall k :: k in requests ==> KillDecision(k.view, k.blame) in decisions
      ensures Queued(decisions, requests, old(enforcer.tracker.pending).Keys, dryRun) && (dryRun ==> requests == [])
      ensures enforcer.log == old(enforcer.log) + TermsOf(requests, env.evictKills.sent, env.evictKills.sentAt)
      ensures enforcer.tracker.pending
           == Recorded(old(enforcer.tracker.pending), requests, env.evictKills.sent, env.evictKills.recordedAt,
                       enforcer.grace)
    {
      hide Inspect, TermsOf, Recorded, Counts, AllAgree, FreshAssessment, PlanningFails, LookedAt, Assessed;
      hide Uncertain, Decides;
      hide Queued;
      var plan := new Plan(if dryRun then {} else enforcer.tracker.pending.Keys, dryRun);
      var assessment, planFailed := EvictExpiredReservedProcesses(snapshot, host, rows, env.evictAt, env.evictCancel,
                                                                  plan);
      requests := plan.pending;
      DistinctPIDsDistinctTargets(requests);
      var kills := env.evictKills;
      var killFailed := enforcer.ExecutePendingKills(requests, kills.sent, kills.sentAt, kills.recordedAt);
      failed := planFailed || killFailed;
      FailedAssessment(Inspect(snapshot, host, env.evictAt), FreshAssessment(snapshot, env.evictAt),
                       LookedAt(snapshot, rows, env.evictAt, env.evictCancel), planFailed);
      if killFailed {
        assessment := Uncertain(assessment);
      }
      decisions := plan.decisions;
      QueuedAnyway(decisions, requests, old(enforcer.tracker.pending), dryRun);
      round := Round(snapshot, host, rows, env.evictAt, env.evictCancel, failed, assessment);
      RecordEvictionAssessment(assessment, round);
    }

    /** Plans and delivers the kills of regular enforcement. */
    method Police(snapshot: State, host: Host, rows: seq<GPUProcess>, env: SignalEnv)
      returns (decisions: seq<Decision>, requests: seq<KillRequest>)
      requires enforcer.Valid() && env.enforceKills.Causal()
      modifies enforcer, enforcer.tracker
      ensures enforcer.Valid()
      ensures Enforces(RulesFor(snapshot, host, env.enforceAt), rows, decisions)
      ensures DistinctRequestPIDs(requests) && |requests| <= MAX_KILLS_PER_PASS
      ensures forall k :: k in requests ==> KillDecision(k.view, k.blame) in decisions
      ensures Queued(decisions, requests, old(enforcer.tracker.pending).Keys, dryRun) && (dryRun ==> requests == [])
      ensures enforcer.log == old(enforcer.log) + TermsOf(requests, env.enforceKills.sent, env.enforceKills.sentAt)
      ensures enforcer.tracker.pending == Recorded(old(enforcer.tracker.pending), requests, env.enforceKills.sent,
                                                   env.enforceKills.recordedAt, enforcer.grace)
    {
      hide AllJustified, Abandoned, RulesFor, TermsOf, Recorded, AllAgree, EnforcePass.LookupFailed, Answered, Queued;
      var plan := new Plan(if dryRun then {} else enforcer.tracker.pending.Keys, dryRun);
      var _ := Enforce(RulesFor(snapshot, host, env.enforceAt), rows, plan);
      requests := plan.pending;
      DistinctPIDsDistinctTargets(requests);
      var kills := env.enforceKills;
      var _ := enforcer.ExecutePendingKills(requests, kills.sent, kills.sentAt, kills.recordedAt);
      decisions := plan.decisions;
      QueuedAnyway(decisions, requests, old(enforcer.tracker.pending), dryRun);
    }

    /**
     All signals of one pass: eviction, then enforcement of the remaining rows, then escalation.
     No PID gets two SIGTERMs, whatever eviction and enforcement each decided, every SIGTERM carries
     out a kill decision of the pass, and every kill decision is carried out or under way.
     */
    method Signal(snapshot: State, host: Host, rows: seq<GPUProcess>, env: SignalEnv)
      returns (evicted: seq<Decision>, enforced: seq<Decision>, failed: bool, ghost round: Round,
               ghost batches: Batches)
      requires Counts(evictionClean, history) && enforcer.Valid() && env.Causal()
      modifies this`evictionClean, this`history, enforcer, enforcer.tracker
      ensures Counts(evictionClean, history) && enforcer.Valid()
      ensures history == old(history) + [round] && round.Sound()
      ensures round == Round(snapshot, host, rows, env.evictAt, env.evictCancel, failed, round.assessment)
      ensures failed <==> || PlanningFails(snapshot, host, rows, env.evictAt, env.evictCancel)
                          || exists i :: 0 <= i < |batches.first| && !env.evictKills.sent(i)
      ensures FollowsEvidence(snapshot, host, rows, env, evicted, enforced)
      ensures PassSignals(old(enforcer.log), old(enforcer.tracker.pending), enforcer.log, enforcer.tracker.pending,
                          evicted + enforced, batches, env, enforcer.grace, dryRun)
      ensures |old(enforcer.log)| <= |enforcer.log|
      ensures !dryRun ==>
                BothSignals(old(enforcer.log), old(enforcer.tracker.pending), enforcer.log, evicted + enforced,
                                      batches, env, enforcer.grace)
    {
      hide Round.Sound, Inspect, LookedAt, Decides, RulesFor, TermsOf, Recorded, Counts, AllAgree, PlanningFails;
      hide Enforces;
      hide OneTermPerPID, Remaining, CarryOut, Queued, Escalates, BothSignals, DistinctRequestPIDs, SweepOf;
      ghost var log, pending := enforcer.log, enforcer.tracker.pending;
      var first, second: seq<KillRequest>;
      evicted, first, failed, round := Evict(snapshot, host, rows, env);
      enforced, second := Police(snapshot, host, Remaining(rows, evicted), env);
      batches := Batches(first, second);
      SignalsOfBatches(snapshot, host, rows, env, evicted, enforced, batches, pending, enforcer.grace, dryRun);
      assert enforcer.log == log + TermsOfPass(batches, env);
      if !dryRun {
        Escalate(evicted + enforced, env);
        PassSendsBothIff(log, pending, enforcer.log, enforcer.tracker.pending, evicted + enforced, batches, env,
                         enforcer.grace);
      } else {
        NoBatches(pending, env, enforcer.grace);
      }
    }

    method Escalate(decisions: seq<Decision>, env: SignalEnv)
      requires enforcer.Valid()
      modifies enforcer, enforcer.tracker
      ensures enforcer.Valid()
      ensures Escalates(old(enforcer.log), old(enforcer.tracker.pending), enforcer.log, enforcer.tracker.pending,
                        SweepOf(decisions, env), env.escalateCancel)
      ensures old(enforcer.log) <= enforcer.log && NoTerms(enforcer.log[|old(enforcer.log)|..])
    {
      hide AllAgree, Escalates;
      ghost var log, pending := enforcer.log, enforcer.tracker.pending;
      enforcer.EscalateTerminations(decisions, env.probe, env.escalateAt, env.escalateCancel);
      EscalationContinues(log, pending, enforcer.log, enforcer.tracker.pending, SweepOf(decisions, env),
                          env.escalateCancel);
    }

    /** One store write: the new state if the save reached its commit point. */
    method Commit(op: Op, saved: bool, synced: bool) returns (failed: bool)
      modifies this`state
      ensures state == Apply(old(state), op, saved)
      ensures failed <==> Lost(old(state), op, saved && synced)
    {
      var effect := Perform(state, op);
      failed := effect.Refused? || (effect.Write? && !(saved && synced));
      if effect.Write? && saved {
        state := effect.state;
      }
    }

    method CleanupExpiredReservations(snapshot: State, env: CleanupEnv) returns (ok: bool)
      modifies this`state
      ensures state == Apply(old(state), ReservationRelease(snapshot, env), env.saved(0))
      ensures ok <==> !Lost(old(state), ReservationRelease(snapshot, env), env.Through(0))
    {
      hide Apply, Lost;
      var released: set<string>, now := {}, env.reservationsAt;
      for i := 0 to |snapshot.reservations|
        invariant released == set r | r in snapshot.reservations[..i] && ReservationEnded(r, now) :: r.id
      {
        var r := snapshot.reservations[i];
        if !r.active || (!r.revoked && now < r.expiresAt) {
          continue;
        }
        released := released + {r.id};
      }
      assert snapshot.reservations[..|snapshot.reservations|] == snapshot.reservations;
      if released == {} {
        ReleaseNothing(state, env.saved(0));
        return true;
      }
      var failed := Commit(ReleaseScopesOp(released, {}, {}), env.saved(0), env.synced(0));
      ok := !failed;
    }

    /** Releases every ended authorization that is ready; reports whether none had to be put off. */
    method CleanupExpiredAuthorizations(snapshot: State, env: CleanupEnv) returns (ok: bool)
      modifies this`state
      ensures var op := AuthorizationRelease(snapshot, evictionClean, env);
              && state == Apply(old(state), op, env.saved(1))
              && (ok <==> NonePutOff(snapshot, evictionClean, env) && !Lost(old(state), op, env.Through(1)))
    {
      hide Apply, Lost, TokensByHash, Ended;
      ok := true;
      var tokens, now := TokensByHash(snapshot.tokens), env.authorizationsAt;
      var released: set<string> := {};
      for i := 0 to |snapshot.authorizations|
        invariant released
               == ReleasedAuthorizations(snapshot.authorizations[..i], tokens, evictionClean, env.stopped, now)
        invariant ok <==> forall j :: 0 <= j < i && Ended(tokens, snapshot.authorizations[j], now) ==>
                            Ready(snapshot.authorizations[j], evictionClean, env.stopped)
      {
        var a := snapshot.authorizations[i];
        if !Ended(tokens, a, now) {
          continue;
        }
        if a.cgroupPath != "" {
          if !env.stopped(a.cgroupPath) {
            ok := false;
            continue;
          }
        } else if !a.mode.Bare? && !EvictionScopeReady(OfAuthorization(a.id)) {
          ok := false;
          continue;
        }
        released := released + {a.id};
      }
      assert snapshot.authorizations[..|snapshot.authorizations|] == snapshot.authorizations;
      if released == {} {
        ReleaseNothing(state, env.saved(1));
        return;
      }
      var failed := Commit(ReleaseScopesOp({}, released, {}), env.saved(1), env.synced(1));
      ok := ok && !failed;
    }

    method CleanupExpiredLeases(snapshot: State, env: CleanupEnv) returns (ok: bool)
      modifies this`state
      ensures var op := LeaseRelease(snapshot, evictionClean, env);
              && state == Apply(old(state), op, env.saved(3))
              && (ok <==> NoLeasePutOff(snapshot, evictionClean, env) && !Lost(old(state), op, env.Through(3)))
    {
      hide Apply, Lost, TokensByHash, LeaseEnded;
      ok := true;
      var tokens, now := TokensByHash(snapshot.tokens), env.leasesAt;
      var released: set<string> := {};
      for i := 0 to |snapshot.leases|
        invariant released == ReleasedLeases(snapshot.leases[..i], tokens, evictionClean, env.stopped, now)
        invariant ok <==> forall j :: 0 <= j < i && LeaseEnded(tokens, snapshot.leases[j], now) ==>
                            LeaseReady(snapshot.leases[j], evictionClean, env.stopped)
      {
        var l := snapshot.leases[i];
        if !LeaseEnded(tokens, l, now) {
          continue;
        }
        if l.cgroupPath != "" {
          if !env.stopped(l.cgroupPath) {
            ok := false;
            continue;
          }
        } else if !l.mode.Bare? && !EvictionScopeReady(OfLease(l.id)) {
          ok := false;
          continue;
        }
        released := released + {l.id};
      }
      assert snapshot.leases[..|snapshot.leases|] == snapshot.leases;
      if released == {} {
        ReleaseNothing(state, env.saved(3));
        return;
      }
      var failed := Commit(ReleaseScopesOp({}, {}, released), env.saved(3), env.synced(3));
      ok := ok && !failed;
    }

    /**
     The end of a pass: ended reservations, authorizations and leases are released and, when nothing
     had to be put off and eviction did not fail, the store is pruned at the earlier instant `now`.
     */
    method Cleanup(snapshot: State, evictionFailed: bool, env: CleanupEnv)
      requires Healthy(state, clock) && SameGrants(snapshot, state) && env.Ordered(clock)
      modifies this`state, this`clock
      ensures Healthy(state, clock) && clock == env.leasesAt
      ensures state == AfterCleanup(old(state), snapshot, evictionClean, evictionFailed, env)
    {
      hide Healthy, Apply, Lost, NonePutOff, NoLeasePutOff;
      hide ReservationRelease, AuthorizationRelease, BareRelease, LeaseRelease, BareLeaseRelease;
      CleanupKeepsHealthy(state, snapshot, evictionClean, evictionFailed, env, clock);
      var ok := CleanupExpiredReservations(snapshot, env);
      var allReady := CleanupExpiredAuthorizations(snapshot, env);
      var _ := Commit(BareRelease(snapshot, env), env.saved(2), env.synced(2));
      var leasesReady := CleanupExpiredLeases(snapshot, env);
      var _ := Commit(BareLeaseRelease(snapshot, env), env.saved(4), env.synced(4));
      if !evictionFailed && ok && allReady && leasesReady {
        var _ := Commit(PruneOp(env.now), env.saved(5), env.synced(5));
      }
      clock := env.leasesAt;
    }

    /** Stores the claims that the pass opened and gives up those it released. */
    method ApplyClaims(decisions: seq<Decision>, now: Time, freshID: nat -> string, saved: nat -> bool)
      modifies this`state
      ensures state == AfterClaims(old(state), decisions, now, freshID, saved)
    {
      hide Apply;
      for i := 0 to |decisions|
        invariant state == AfterClaims(old(state), decisions[..i], now, freshID, saved)
      {
        AfterClaimsStep(old(state), decisions, now, freshID, saved, i);
        var d := decisions[i];
        if d.action.MakeClaim? {
          var _ := Commit(UpsertSoftClaimOp(d.claim, freshID(i), now), saved(i), true);
        } else if d.action.ReleaseClaim? {
          var _ := Commit(ReleaseSoftClaimOp(d.claimID), saved(i), true);
        }
      }
      assert decisions[..|decisions|] == decisions;
    }

    /**
     One pass over a GPU sample.  A lasting scope that is gone afterwards has been found clean in
     this pass and in the two before it, each of them without an eviction error.
     */
    method RunPass(task: Task) returns (ghost record: PassRecord)
      requires Valid() && task.Sampled? && task.Causal() && task.Enabled(state, clock)
      modifies this, enforcer, enforcer.tracker
      ensures Valid() && Passes(old(Current()), task, Current(), record, enforcer.grace, dryRun)
      ensures forall key :: Holds(old(state), key) && !Holds(state, key) ==>
                EVICTION_CLEAN_SAMPLES <= CleanRun(history, key)
      ensures !dryRun ==>
                BothSignals(old(enforcer.log), old(enforcer.tracker.pending), enforcer.log, record.Decisions(),
                                      record.batches, task.signals, enforcer.grace)
    {
      hide Healthy, AllAgree, Round.Sound, FollowsEvidence, PassSignals, BothSignals, AllSound;
      hide CleanRun, AfterCleanup, AfterClaims, Counts, Holds, PlanningFails;
      ghost var start := Current();
      var snapshot, env := state, task.env;
      var evicted, enforced, failed;
      ghost var round, batches;
      evicted, enforced, failed, round, batches := Signal(snapshot, task.host, task.rows, task.signals);
      record := PassRecord(evicted, enforced, batches);
      AfterClaimsKeeps(state, evicted + enforced, env.now, task.freshID, task.savedClaims, clock);
      ApplyClaims(evicted + enforced, env.now, task.freshID, task.savedClaims);
      Cleanup(snapshot, failed, env);
      SoundSnoc(start.history, round);
      assert history[..|start.history|] == start.history;
      forall key | Holds(snapshot, key) && !Holds(state, key) ensures EVICTION_CLEAN_SAMPLES <= CleanRun(history, key) {
        PassThatEnds(start, task, Current(), record, enforcer.grace, dryRun, key);
      }
    }

    method CleanupManagedCgroups(env: CleanupEnv, removable: string -> bool)
      modifies this`state
      ensures state == AfterOutage(old(state), evictionClean, env, removable)
    {
      hide Apply, AuthorizationRelease, LeaseRelease, RemovedScopes, Lost, NonePutOff, NoLeasePutOff;
      var managed := InCgroups(state);
      var _ := CleanupExpiredAuthorizations(managed, env);
      var _ := CleanupExpiredLeases(managed, env);
      var _ := Commit(RemovedScopes(state, removable), env.saved(4), env.synced(4));
      var _ := Commit(PruneUnreferencedOp(env.leasesAt), env.saved(5), env.synced(5));
    }

    /**
     While no GPU sample is to be had: managed cgroups are still cleaned up and unreferenced
     entitlements pruned, but every scope outside cgroups stays as it is.
     */
    method RunOutagePass(task: Task)
      requires Valid() && task.Unsampled? && task.Enabled(state, clock)
      modifies this, enforcer, enforcer.tracker
      ensures Valid() && Bridges(old(Current()), task, Current(), dryRun)
      ensures OutsideCgroupsKept(old(state), state)
      ensures old(enforcer.log) <= enforcer.log && NoTerms(enforcer.log[|old(enforcer.log)|..])
    {
      hide Healthy, AllAgree, Counts, AllSound, OutsideCgroupsKept, Escalates, AfterOutage;
      OutageKeepsOthers(state, evictionClean, task.env, task.removable, clock);
      CleanupManagedCgroups(task.env, task.removable);
      clock := task.env.leasesAt;
      if !dryRun {
        Escalate([], task.signals);
      }
    }

    /** A client's store operation: no scope outside cgroups loses its standing by it, and nobody is signalled. */
    method Serve(op: Op, saved: bool, synced: bool) returns (failed: bool)
      requires Valid() && Task.Request(op, saved, synced).Enabled(state, clock)
      modifies this`state
      ensures Valid() && Current() == old(Current()).(state := Apply(old(state), op, saved))
      ensures failed <==> Lost(old(state), op, saved && synced)
      ensures forall key :: Holds(old(state), key) ==> Holds(state, key)
    {
      hide Healthy, Admissible, WellNamed, ClientOp, Apply, AllAgree, Holds, Counts, AllSound, Lost;
      ClientOpKeepsHealthy(state, op, saved, clock);
      ghost var before := state;
      failed := Commit(op, saved, synced);
      forall key | Holds(before, key) ensures Holds(state, key) {
        ClientOpKeepsHolds(before, op, saved, key);
      }
    }

    predicate EvictionScopeReady(key: ScopeKey)
      reads this
    {
      EVICTION_CLEAN_SAMPLES <= Count(evictionClean, key)
    }
  }

  lemma ReleaseNothing(s: State, saved: bool)
    ensures Apply(s, ReleaseScopesOp({}, {}, {}), saved) == s
    ensures forall through :: !Lost(s, ReleaseScopesOp({}, {}, {}), through)
  {
    ReleaseApplied(s, {}, {}, {}, saved);
    assert Released(s, {}, {}, {}) == s;
  }

  lemma SoundSnoc(history: seq<Round>, round: Round)
    requires AllSound(history) && round.Sound()
    ensures AllSound(history + [round])
  {
    hide Round.Sound;
  }

  /** Without staged kills nothing is under way, but then nothing has to be. */
  lemma QueuedAnyway(decisions: seq<Decision>, requests: seq<KillRequest>, pending: map<Identity, Entry>, dryRun: bool)
    ensures dryRun ==> Queued(decisions, requests, pending.Keys, dryRun)
  {
  }

  lemma NoBatches(pending: map<Identity, Entry>, env: SignalEnv, grace: int)
    ensures TermsOfPass(Batches([], []), env) == [] && TrackedInPass(pending, Batches([], []), env, grace) == pending
  {
  }

  /** What planning promises of the two batches of a pass. */
  lemma SignalsOfBatches(snapshot: State, host: Host, rows: seq<GPUProcess>, env: SignalEnv, evicted: seq<Decision>,
                         enforced: seq<Decision>, b: Batches, pending: map<Identity, Entry>, grace: int, dryRun: bool)
    requires FollowsEvidence(snapshot, host, rows, env, evicted, enforced)
    requires DistinctRequestPIDs(b.first) && DistinctRequestPIDs(b.second)
    requires forall k :: k in b.first ==> KillDecision(k.view, k.blame) in evicted
    requires forall k :: k in b.second ==> KillDecision(k.view, k.blame) in enforced
    requires Queued(evicted, b.first, pending.Keys, dryRun)
    requires Queued(enforced, b.second,
                    Recorded(pending, b.first, env.evictKills.sent, env.evictKills.recordedAt, grace).Keys, dryRun)
    ensures DistinctRequestPIDs(b.first + b.second) && OneTermPerPID(TermsOfPass(b, env))
    ensures CarryOut(TermsOfPass(b, env), evicted + enforced)
    ensures Queued(evicted + enforced, b.first + b.second, pending.Keys, dryRun)
  {
    hide Inspect, LookedAt, Decides, RulesFor, AllJustified, Answered, TermsOf, Recorded, CarryOut, Queued;
    hide OneTermPerPID;
    hide DistinctRequestPIDs, Remaining, Abandoned, EnforcePass.LookupFailed;
    EvictedPIDsAreReal(Inspect(snapshot, host, env.evictAt), LookedAt(snapshot, rows, env.evictAt, env.evictCancel),
                       evicted);
    BatchesAreDistinct(RulesFor(snapshot, host, env.enforceAt), rows, evicted, enforced, b);
    BatchTerms(b, env);
    BatchCarriesOut(b.first, env.evictKills, evicted);
    BatchCarriesOut(b.second, env.enforceKills, enforced);
    CarryOutTogether(TermsOf(b.first, env.evictKills.sent, env.evictKills.sentAt), evicted,
                     TermsOf(b.second, env.enforceKills.sent, env.enforceKills.sentAt), enforced);
    QueuedTogether(evicted, enforced, b, pending, env, grace, dryRun);
  }

  // ----- The daemon at work -----

  /**
   The daemon over any sequence of tasks, up to the first that cannot occur.  Its trace is that of the
   tasks: whatever lasting scope is gone at the end was given up at a pass that closed three quiet
   samples, and whatever signals went out were legitimate.
   */
  method Run(server: Server, tasks: seq<Task>) returns (ghost trace: seq<World>, n: nat)
    requires server.Valid() && forall task :: task in tasks ==> task.Causal()
    modifies server, server.enforcer, server.enforcer.tracker
    ensures server.Valid() && n <= |tasks| && Linked(trace, tasks[..n], server.enforcer.grace, server.dryRun)
    ensures trace[0] == old(server.Current()) && trace[n] == server.Current()
    ensures n < |tasks| ==> !tasks[n].Enabled(server.state, server.clock)
    ensures forall key :: old(server.history) == [] && Holds(old(server.state), key) && !Holds(server.state, key) ==>
              exists i, j, k :: GivenUp(trace, tasks[..n], i, j, k, key)
    ensures old(server.enforcer.log) <= server.enforcer.log && Legitimate(server.enforcer.log, server.enforcer.grace)
  {
    hide Consistent, Steps, Holds, GivenUp, Legitimate, Task.Enabled;
    trace, n := [server.Current()], 0;
    while n < |tasks| && tasks[n].Enabled(server.state, server.clock)
      invariant n <= |tasks| && server.Valid() && Linked(trace, tasks[..n], server.enforcer.grace, server.dryRun)
      invariant trace[0] == old(server.Current()) && trace[n] == server.Current()
    {
      Handle(server, tasks[n]);
      trace := trace + [server.Current()];
      n := n + 1;
    }
    ghost var grace := server.enforcer.grace;
    SignalsAreLegitimate(trace, tasks[..n], grace, server.dryRun, n);
    forall key | trace[0].history == [] && Holds(trace[0].state, key) && !Holds(server.state, key)
      ensures exists i, j, k :: GivenUp(trace, tasks[..n], i, j, k, key) {
      ScopeEndsOnlyWhenQuiet(trace, tasks[..n], grace, server.dryRun, key);
    }
  }

  method Handle(server: Server, task: Task)
    requires server.Valid() && task.Causal() && task.Enabled(server.state, server.clock)
    modifies server, server.enforcer, server.enforcer.tracker
    ensures server.Valid()
    ensures Steps(old(server.Current()), task, server.Current(), server.enforcer.grace, server.dryRun)
  {
    hide Consistent, Passes, Bridges, Apply, Lost, Holds, OutsideCgroupsKept, BothSignals, CleanRun, Task.Enabled;
    match task
    case Sampled(_, _, _, _, _, _) =>
      ghost var _ := server.RunPass(task);
    case Unsampled(_, _, _) =>
      server.RunOutagePass(task);
    case Request(op, saved, synced) =>
      var _ := server.Serve(op, saved, synced);
  }
}
