/**
 Runs of the daemon: any sequence of monitor passes with or without a sample and of client
 requests, and what they guarantee about scopes and signals.
 */
module DaemonRuns {
  import opened Model
  import opened StoreOps
  import opened StoreRuns
  import opened Naming
  import opened Scopes
  import opened Planning
  import opened Eviction
  import opened Retention
  import opened Terminations
  import opened Cleanup
  import opened Rounds
  import opened Signalling

  /** What a run is about: the stored state, the counters, the rounds so far, the clock, and the signals. */
  datatype World = World(
    state: State, clean: map<ScopeKey, nat>, history: seq<Round>, clock: Time,
    log: seq<Event>, pending: map<Identity, Entry>)

  ghost predicate AllSound(history: seq<Round>) { forall round :: round in history ==> round.Sound() }

  ghost predicate Consistent(w: World, grace: int) {
    && Healthy(w.state, w.clock) && Counts(w.clean, w.history) && AllSound(w.history)
    && AllAgree(w.pending, w.log, grace)
  }

  /** What the daemon does next: a pass with or without a sample, or a client's request. */
  datatype Task =
    | Sampled(host: Host, rows: seq<GPUProcess>, signals: SignalEnv, env: CleanupEnv,
              freshID: nat -> string, savedClaims: nat -> bool)
    | Unsampled(env: CleanupEnv, removable: string -> bool, signals: SignalEnv)
    | Request(op: Op, saved: bool, synced: bool)
  {
    ghost predicate Causal() { Sampled? ==> signals.Causal() }

    /** The clock does not run backwards, and randomly drawn names are new. */
    predicate Enabled(s: State, clock: Time) {
      match this
      case Sampled(_, _, _, env, _, _) => env.Ordered(clock)
      case Unsampled(env, _, _) => env.Ordered(clock)
      case Request(op, _, _) =>
        Admissible(s, op) && WellNamed(s, op) && ClientOp(s, op) && (op.RegisterScheduledOp? ==> 0 <= op.req.now)
    }
  }

  /** What one pass decided and requested. */
  datatype PassRecord = PassRecord(evicted: seq<Decision>, enforced: seq<Decision>, batches: Batches)
  {
    function Decisions(): seq<Decision> { evicted + enforced }
  }

  /** The round that the task's own sample makes of the state it starts from. */
  ghost predicate RoundOf(round: Round, s: State, task: Task)
    requires task.Sampled?
  {
    round == Round(s, task.host, task.rows, task.signals.evictAt, task.signals.evictCancel,
                   round.failed, round.assessment)
  }

  /** Eviction failed: in planning, or in delivering a SIGTERM. */
  predicate EvictionFails(s: State, task: Task, requests: seq<KillRequest>)
    requires task.Sampled?
  {
    || PlanningFails(s, task.host, task.rows, task.signals.evictAt, task.signals.evictCancel)
    || exists i :: 0 <= i < |requests| && !task.signals.evictKills.sent(i)
  }

  /** A pass over the task's sample, with everything it decides, signals, records and stores. */
  ghost predicate Passes(w: World, task: Task, w': World, p: PassRecord, grace: int, dryRun: bool)
    requires task.Sampled?
  {
    && |w'.history| == |w.history| + 1 && w'.history[..|w.history|] == w.history && w'.clock == task.env.leasesAt
    && var round := w'.history[|w.history|];
       && RoundOf(round, w.state, task) && (round.failed <==> EvictionFails(w.state, task, p.batches.first))
       && FollowsEvidence(w.state, task.host, task.rows, task.signals, p.evicted, p.enforced)
       && PassSignals(w.log, w.pending, w'.log, w'.pending, p.Decisions(), p.batches, task.signals, grace, dryRun)
       && var claimed := AfterClaims(w.state, p.Decisions(), task.env.now, task.freshID, task.savedClaims);
          w'.state == AfterCleanup(claimed, w.state, w'.clean, round.failed, task.env)
  }

  /** A pass without a sample: managed cgroups are cleaned up, and escalation goes on. */
  ghost predicate Bridges(w: World, task: Task, w': World, dryRun: bool)
    requires task.Unsampled?
  {
    && w'.state == AfterOutage(w.state, w.clean, task.env, task.removable)
    && w'.clean == w.clean && w'.history == w.history && w'.clock == task.env.leasesAt
    && if dryRun then w'.log == w.log && w'.pending == w.pending
       else Escalates(w.log, w.pending, w'.log, w'.pending, SweepOf([], task.signals), task.signals.escalateCancel)
  }

  ghost predicate Steps(w: World, task: Task, w': World, grace: int, dryRun: bool) {
    match task
    case Sampled(_, _, _, _, _, _) => exists p :: Passes(w, task, w', p, grace, dryRun)
    case Unsampled(_, _, _) => Bridges(w, task, w', dryRun)
    case Request(op, saved, _) => w' == w.(state := Apply(w.state, op, saved))
  }

  /** The trace of a run: before each task a consistent world in which it can happen, and its effect after it. */
  ghost predicate Linked(trace: seq<World>, tasks: seq<Task>, grace: int, dryRun: bool) {
    && |trace| == |tasks| + 1 && (forall i :: 0 <= i < |trace| ==> Consistent(trace[i], grace))
    && forall i :: 0 <= i < |tasks| ==>
         tasks[i].Enabled(trace[i].state, trace[i].clock) && Steps(trace[i], tasks[i], trace[i + 1], grace, dryRun)
  }

  // ----- One step -----

  /** Only a pass adds a round, and exactly one. */
  lemma StepHistory(w: World, task: Task, w': World, grace: int, dryRun: bool)
    requires Steps(w, task, w', grace, dryRun)
    ensures if task.Sampled? then
              && |w'.history| == |w.history| + 1 && w'.history[..|w.history|] == w.history
              && RoundOf(w'.history[|w.history|], w.state, task)
            else w'.history == w.history
  {
    hide FollowsEvidence, PassSignals, AfterCleanup, AfterClaims, Escalates, AfterOutage, Apply, EvictionFails;
  }

  /** No step takes anything from the log. */
  lemma StepLog(w: World, task: Task, w': World, grace: int, dryRun: bool)
    requires Steps(w, task, w', grace, dryRun)
    ensures w.log <= w'.log
  {
    hide FollowsEvidence, PassSignals, AfterCleanup, AfterClaims, Escalates, AfterOutage, Apply, EvictionFails;
    if task.Sampled? {
      var p :| Passes(w, task, w', p, grace, dryRun);
      PassContinues(w.log, w.pending, w'.log, w'.pending, p.Decisions(), p.batches, task.signals, grace, dryRun);
    } else if task.Unsampled? && !dryRun {
      EscalationContinues(w.log, w.pending, w'.log, w'.pending, SweepOf([], task.signals), task.signals.escalateCancel);
    }
  }

  /** SIGTERMs come from passes with a sample only. */
  lemma StepTerms(w: World, task: Task, w': World, grace: int, dryRun: bool)
    requires Steps(w, task, w', grace, dryRun) && !task.Sampled?
    ensures w.log <= w'.log && forall h :: |w.log| <= h < |w'.log| ==> !w'.log[h].Term?
  {
    hide AfterOutage, Apply, Escalates;
    if task.Unsampled? && !dryRun {
      EscalationContinues(w.log, w.pending, w'.log, w'.pending, SweepOf([], task.signals), task.signals.escalateCancel);
    }
  }

  /** Only a pass ends a lasting scope, and only one that was clean in the last three rounds. */
  lemma StepThatEnds(w: World, task: Task, w': World, grace: int, dryRun: bool, key: ScopeKey)
    requires Consistent(w, grace) && Consistent(w', grace) && task.Enabled(w.state, w.clock)
    requires Steps(w, task, w', grace, dryRun) && Holds(w.state, key) && !Holds(w'.state, key)
    ensures task.Sampled? && EVICTION_CLEAN_SAMPLES <= CleanRun(w'.history, key)
  {
    hide Healthy, Holds, AfterCleanup, AfterOutage, Apply, AllAgree, FollowsEvidence, PassSignals, AllSound;
    hide Admissible, WellNamed, ClientOp, OutsideCgroupsKept, Escalates, EvictionFails;
    if task.Unsampled? {
      OutageKeepsOthers(w.state, w.clean, task.env, task.removable, w.clock);
      KeptOutsideHolds(w.state, w'.state, key);
    } else if task.Request? {
      ClientOpKeepsHolds(w.state, task.op, task.saved, key);
    } else {
      var p :| Passes(w, task, w', p, grace, dryRun);
      PassThatEnds(w, task, w', p, grace, dryRun, key);
    }
  }

  lemma PassThatEnds(w: World, task: Task, w': World, p: PassRecord, grace: int, dryRun: bool, key: ScopeKey)
    requires Healthy(w.state, w.clock) && Counts(w'.clean, w'.history)
    requires task.Sampled? && task.env.Ordered(w.clock) && Passes(w, task, w', p, grace, dryRun)
    requires Holds(w.state, key) && !Holds(w'.state, key)
    ensures EVICTION_CLEAN_SAMPLES <= CleanRun(w'.history, key)
  {
    hide Inv, AllBacked, AllGrouped, AllApart, Distinct, AfterCleanup, AfterClaims, CleanRun, Holds;
    hide FollowsEvidence, PassSignals, RoundOf, EvictionFails;
    AfterClaimsKeeps(w.state, p.Decisions(), task.env.now, task.freshID, task.savedClaims, w.clock);
    var claimed := AfterClaims(w.state, p.Decisions(), task.env.now, task.freshID, task.savedClaims);
    OnlyCleanScopesLeave(claimed, w.state, w'.clean, w'.history[|w.history|].failed, task.env, w.clock, key);
  }

  // ----- Scopes over a run -----

  /**
   Task `m` is a pass in which eviction did not fail, and whose sample had nothing against the scope
   in the state it started from.
   */
  ghost predicate QuietAt(trace: seq<World>, tasks: seq<Task>, m: nat, key: ScopeKey)
    requires m < |tasks| < |trace|
  {
    && tasks[m].Sampled? && |trace[m].history| < |trace[m + 1].history|
    && !trace[m + 1].history[|trace[m].history|].failed
    && var t := tasks[m];
       SawNothing(trace[m].state, t.host, t.rows, t.signals.evictAt, t.signals.evictCancel, key)
  }

  ghost predicate NoSampleBetween(tasks: seq<Task>, m: nat, n: nat) {
    forall i :: m < i < n && i < |tasks| ==> !tasks[i].Sampled?
  }

  /** Task `k` ends the scope, and it and the two sampled tasks before it had nothing against it. */
  ghost predicate GivenUp(trace: seq<World>, tasks: seq<Task>, i: nat, j: nat, k: nat, key: ScopeKey)
    requires |tasks| < |trace|
  {
    && i < j < k < |tasks| && Holds(trace[k].state, key) && !Holds(trace[k + 1].state, key)
    && QuietAt(trace, tasks, i, key) && QuietAt(trace, tasks, j, key) && QuietAt(trace, tasks, k, key)
    && NoSampleBetween(tasks, i, j) && NoSampleBetween(tasks, j, k)
  }

  lemma {:induction false} HistoryGrows(trace: seq<World>, tasks: seq<Task>, grace: int, dryRun: bool, i: nat, j: nat)
    requires Linked(trace, tasks, grace, dryRun) && i <= j < |trace|
    ensures trace[i].history <= trace[j].history
    decreases j - i
  {
    hide Consistent, Steps, Task.Enabled, RoundOf;
    if i < j {
      HistoryGrows(trace, tasks, grace, dryRun, i, j - 1);
      StepHistory(trace[j - 1], tasks[j - 1], trace[j], grace, dryRun);
    }
  }

  /** The task that recorded round `h`: a pass, about the state it started from and its own sample. */
  lemma {:induction false} RecordedBy(trace: seq<World>, tasks: seq<Task>, grace: int, dryRun: bool, n: nat, h: nat)
    returns (m: nat)
    requires Linked(trace, tasks, grace, dryRun) && n < |trace| && |trace[0].history| <= h < |trace[n].history|
    ensures m < n && tasks[m].Sampled? && |trace[m].history| == h < |trace[m + 1].history|
    ensures trace[m + 1].history[h] == trace[n].history[h] && RoundOf(trace[n].history[h], trace[m].state, tasks[m])
    decreases n
  {
    hide Consistent, Steps, Task.Enabled, RoundOf;
    StepHistory(trace[n - 1], tasks[n - 1], trace[n], grace, dryRun);
    if |trace[n - 1].history| <= h {
      m := n - 1;
    } else {
      m := RecordedBy(trace, tasks, grace, dryRun, n - 1, h);
      HistoryGrows(trace, tasks, grace, dryRun, n - 1, n);
    }
  }

  /** Between the tasks that record two successive rounds there is no sample. */
  lemma NothingBetween(trace: seq<World>, tasks: seq<Task>, grace: int, dryRun: bool, i: nat, j: nat)
    requires Linked(trace, tasks, grace, dryRun) && i < |tasks| && j < |tasks| && tasks[i].Sampled?
    requires |trace[j].history| == |trace[i].history| + 1
    ensures i < j && NoSampleBetween(tasks, i, j)
  {
    hide Consistent, Steps, Task.Enabled, RoundOf;
    if j <= i {
      HistoryGrows(trace, tasks, grace, dryRun, j, i);
    } else {
      StepHistory(trace[i], tasks[i], trace[i + 1], grace, dryRun);
      forall m | i < m < j ensures !tasks[m].Sampled? {
        HistoryGrows(trace, tasks, grace, dryRun, i + 1, m);
        StepHistory(trace[m], tasks[m], trace[m + 1], grace, dryRun);
        HistoryGrows(trace, tasks, grace, dryRun, m + 1, j);
      }
    }
  }

  /** The round that task `m` recorded is clean about the scope, so its sample had nothing against it. */
  lemma CleanSoQuiet(trace: seq<World>, tasks: seq<Task>, m: nat, round: Round, key: ScopeKey)
    requires m < |tasks| < |trace| && tasks[m].Sampled? && RoundOf(round, trace[m].state, tasks[m])
    requires |trace[m].history| < |trace[m + 1].history| && trace[m + 1].history[|trace[m].history|] == round
    requires round.Sound() && CleanIn(round.assessment, key)
    ensures QuietAt(trace, tasks, m, key)
  {
    hide SawNothing, Round.Sound;
    CleanIffQuiet(round, key);
  }

  /** When task `k` ends the scope, the last three rounds are clean, and so the last three samples quiet. */
  lemma EndingIsQuiet(trace: seq<World>, tasks: seq<Task>, grace: int, dryRun: bool, k: nat, key: ScopeKey)
    returns (i: nat, j: nat)
    requires Linked(trace, tasks, grace, dryRun) && trace[0].history == [] && k < |tasks|
    requires Holds(trace[k].state, key) && !Holds(trace[k + 1].state, key)
    ensures GivenUp(trace, tasks, i, j, k, key)
  {
    hide Healthy, Holds, Counts, AllAgree, CleanRun, Steps, Task.Enabled, RoundOf, QuietAt, NoSampleBetween;
    hide Round.Sound;
    StepThatEnds(trace[k], tasks[k], trace[k + 1], grace, dryRun, key);
    var history := trace[k + 1].history;
    var n := |history|;
    CleanRunMeansClean(history, key, EVICTION_CLEAN_SAMPLES);
    assert Consistent(trace[k + 1], grace);
    assert history[n - 1] in history && history[n - 2] in history && history[n - 3] in history;
    StepHistory(trace[k], tasks[k], trace[k + 1], grace, dryRun);
    j := RecordedBy(trace, tasks, grace, dryRun, k + 1, n - 2);
    i := RecordedBy(trace, tasks, grace, dryRun, k + 1, n - 3);
    NothingBetween(trace, tasks, grace, dryRun, j, k);
    NothingBetween(trace, tasks, grace, dryRun, i, j);
    CleanSoQuiet(trace, tasks, k, history[n - 1], key);
    CleanSoQuiet(trace, tasks, j, history[n - 2], key);
    CleanSoQuiet(trace, tasks, i, history[n - 3], key);
  }

  /** The step at which the scope goes. */
  lemma {:induction false} StepOfEnd(trace: seq<World>, key: ScopeKey) returns (k: nat)
    requires trace != [] && Holds(trace[0].state, key) && !Holds(trace[|trace| - 1].state, key)
    ensures k + 1 < |trace| && Holds(trace[k].state, key) && !Holds(trace[k + 1].state, key)
  {
    hide Holds;
    var n := |trace| - 1;
    if Holds(trace[n - 1].state, key) {
      k := n - 1;
    } else {
      k := StepOfEnd(trace[..n], key);
    }
  }

  /**
   Over every run of a daemon: a lasting scope is given up only at a pass, and only when that pass and
   the two sampled passes before it worked, knew the scope to be stale, and had no row in their own
   samples that speaks against it, except behind a row on which the same PID is evicted.
   */
  lemma ScopeEndsOnlyWhenQuiet(trace: seq<World>, tasks: seq<Task>, grace: int, dryRun: bool, key: ScopeKey)
    requires Linked(trace, tasks, grace, dryRun) && trace[0].history == []
    requires Holds(trace[0].state, key) && !Holds(trace[|tasks|].state, key)
    ensures exists i, j, k :: GivenUp(trace, tasks, i, j, k, key)
  {
    hide Consistent, Holds, Steps, Task.Enabled, GivenUp;
    var k := StepOfEnd(trace, key);
    var i, j := EndingIsQuiet(trace, tasks, grace, dryRun, k, key);
  }

  // ----- Signals over a run -----

  lemma {:induction false} LogGrows(trace: seq<World>, tasks: seq<Task>, grace: int, dryRun: bool, i: nat, j: nat)
    requires Linked(trace, tasks, grace, dryRun) && i <= j < |trace|
    ensures trace[i].log <= trace[j].log
    decreases j - i
  {
    hide Consistent, Steps, Task.Enabled;
    if i < j {
      LogGrows(trace, tasks, grace, dryRun, i, j - 1);
      StepLog(trace[j - 1], tasks[j - 1], trace[j], grace, dryRun);
    }
  }

  /** The task is a pass that decided to kill the identity. */
  ghost predicate Orders(w: World, task: Task, w': World, grace: int, dryRun: bool, id: Identity) {
    task.Sampled? && exists p :: Passes(w, task, w', p, grace, dryRun) && OrdersKill(p, id)
  }

  predicate OrdersKill(p: PassRecord, id: Identity) {
    exists d :: d in p.Decisions() && d.action.Kill? && id == Identity(d.process.pid, d.info.startTime)
  }

  /** Every SIGTERM of a run carries out a kill decision of one of its sampled passes. */
  lemma {:induction false} TermsAreOrdered(trace: seq<World>, tasks: seq<Task>, grace: int, dryRun: bool, n: nat,
                                           h: nat)
    returns (m: nat)
    requires Linked(trace, tasks, grace, dryRun) && n < |trace| && |trace[0].log| <= h < |trace[n].log|
    requires trace[n].log[h].Term?
    ensures m < n && Orders(trace[m], tasks[m], trace[m + 1], grace, dryRun, trace[n].log[h].id)
    decreases n
  {
    hide Consistent, Steps, Task.Enabled, Orders;
    var w, task, w' := trace[n - 1], tasks[n - 1], trace[n];
    StepLog(w, task, w', grace, dryRun);
    if h < |w.log| {
      m := TermsAreOrdered(trace, tasks, grace, dryRun, n - 1, h);
    } else {
      m := n - 1;
      NewTermIsOrdered(w, task, w', grace, dryRun, h);
    }
  }

  lemma NewTermIsOrdered(w: World, task: Task, w': World, grace: int, dryRun: bool, h: nat)
    requires Steps(w, task, w', grace, dryRun) && |w.log| <= h < |w'.log| && w'.log[h].Term?
    ensures Orders(w, task, w', grace, dryRun, w'.log[h].id)
  {
    hide FollowsEvidence, PassSignals, AfterCleanup, AfterClaims, Escalates, AfterOutage, Apply, EvictionFails;
    hide OrdersKill;
    if !task.Sampled? {
      StepTerms(w, task, w', grace, dryRun);
    } else {
      var p :| Passes(w, task, w', p, grace, dryRun);
      PassTermIsOrdered(w.log, w.pending, w'.log, w'.pending, p, task.signals, grace, dryRun, h);
    }
  }

  lemma PassTermIsOrdered(log: seq<Event>, pending: map<Identity, Entry>, log': seq<Event>,
                          pending': map<Identity, Entry>, p: PassRecord, env: SignalEnv, grace: int, dryRun: bool,
                          h: nat)
    requires PassSignals(log, pending, log', pending', p.Decisions(), p.batches, env, grace, dryRun)
    requires |log| <= h < |log'| && log'[h].Term?
    ensures OrdersKill(p, log'[h].id)
  {
    hide Escalates, TermsOfPass, TrackedInPass, OneTermPerPID, Queued;
    var terms := TermsOfPass(p.batches, env);
    EscalationContinues(log + terms, TrackedInPass(pending, p.batches, env, grace), log', pending',
                        SweepOf(p.Decisions(), env), env.escalateCancel);
    if h < |log + terms| {
      assert log'[h] == terms[h - |log|] && terms[h - |log|] in terms;
    }
  }

  /**
   Over every run: the log only grows, every SIGKILL in it follows its SIGTERM undisturbed by at least
   the grace period, there is one SIGKILL at most per SIGTERM, and no SIGTERM while one is tracked.
   */
  lemma SignalsAreLegitimate(trace: seq<World>, tasks: seq<Task>, grace: int, dryRun: bool, n: nat)
    requires Linked(trace, tasks, grace, dryRun) && n < |trace|
    ensures trace[0].log <= trace[n].log <= trace[|tasks|].log && Legitimate(trace[n].log, grace)
  {
    hide Steps, Task.Enabled, Healthy, Counts, AllSound, Legitimate, PhaseOf;
    LogGrows(trace, tasks, grace, dryRun, 0, n);
    LogGrows(trace, tasks, grace, dryRun, n, |tasks|);
    assert Consistent(trace[n], grace);
    AgreeingIsLegitimate(trace[n].pending, trace[n].log, grace);
  }

  lemma AgreeingIsLegitimate(pending: map<Identity, Entry>, log: seq<Event>, grace: int)
    requires AllAgree(pending, log, grace)
    ensures Legitimate(log, grace)
  {
    hide PhaseOf, Legitimate;
    forall id ensures !PhaseOf(log, id, grace).Broken? {
      assert Agrees(pending, id, PhaseOf(log, id, grace), grace);
    }
    UnbrokenIsLegitimate(log, grace);
  }
}
