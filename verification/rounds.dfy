/**
 What the passes of a daemon saw: one round per pass, and the counters of consecutive clean ones.
 */
module Rounds {
  import opened Model
  import opened Scopes
  import opened Eviction
  import opened Cleanup

  predicate CleanIn(a: Assessment, key: ScopeKey) {
    match key
    case OfAuthorization(id) => Clean(a.authorizations, id)
    case OfLease(id) => Clean(a.leases, id)
  }

  predicate SeenIn(a: Assessment, key: ScopeKey) {
    match key
    case OfAuthorization(id) => id in a.authorizations
    case OfLease(id) => id in a.leases
  }

  /** A row that is looked at speaks against the scope. */
  predicate SpokenAgainst(led: Ledger, rows: seq<GPUProcess>, key: ScopeKey) {
    match key
    case OfAuthorization(id) => exists i :: 0 <= i < |rows| && Considered(led, rows, i) && Speaks(led, rows[i], id)
    case OfLease(id) => exists i :: 0 <= i < |rows| && Considered(led, rows, i) && SpeaksLease(led, rows[i], id)
  }

  predicate Assesses(s: State, now: Time, key: ScopeKey) {
    match key
    case OfAuthorization(id) => id in AssessedAuthorizations(s, now)
    case OfLease(id) => id in AssessedLeases(s, now)
  }

  /**
   Planning did not fail, the scope's entitlement had ended, and no sampled row speaks against it,
   except behind a row on which the same PID is evicted.
   */
  predicate SawNothing(s: State, host: Host, rows: seq<GPUProcess>, at: Time, cancelAt: nat, key: ScopeKey) {
    && !PlanningFails(s, host, rows, at, cancelAt) && Assesses(s, at, key)
    && !SpokenAgainst(Inspect(s, host, at), rows, key)
  }

  /** One pass as eviction saw it: what it looked at, whether it failed, and its assessment. */
  datatype Round = Round(snapshot: State, host: Host, rows: seq<GPUProcess>, at: Time, cancelAt: nat,
                         failed: bool, assessment: Assessment)
  {
    /** The assessment is that of the sample; a failure of planning or of a kill is a failure of the round. */
    predicate Sound() {
      && (PlanningFails(snapshot, host, rows, at, cancelAt) ==> failed)
      && assessment == Assessed(Inspect(snapshot, host, at), FreshAssessment(snapshot, at),
                                LookedAt(snapshot, rows, at, cancelAt), failed)
    }

    predicate Quiet(key: ScopeKey) { !failed && SawNothing(snapshot, host, rows, at, cancelAt, key) }
  }

  /** A round calls a scope clean if and only if it did not fail and saw nothing of the scope. */
  lemma CleanIffQuiet(round: Round, key: ScopeKey)
    requires round.Sound()
    ensures CleanIn(round.assessment, key) <==> round.Quiet(key)
  {
    hide Assessed, SomeRowFails, AssessedAuthorizations, AssessedLeases, SpeaksAgainst, SpeaksAgainstLease, Considered;
    hide Worthwhile, Inspect;
    var led := Inspect(round.snapshot, round.host, round.at);
    var rows := LookedAt(round.snapshot, round.rows, round.at, round.cancelAt);
    LedgerHolds(round.snapshot, round.host, round.at);
    var initial := FreshAssessment(round.snapshot, round.at);
    if !round.failed {
      LookedAtAll(round.snapshot, round.host, round.rows, round.at, round.cancelAt);
    }
    match key
    case OfAuthorization(id) => CleanIff(led, initial, rows, round.failed, id);
    case OfLease(id) => CleanLeaseIff(led, initial, rows, round.failed, id);
  }

  lemma LedgerHolds(s: State, host: Host, now: Time)
    ensures Inspect(s, host, now).authorizations == s.authorizations && Inspect(s, host, now).leases == s.leases
  {
  }

  lemma LookedAtAll(s: State, host: Host, rows: seq<GPUProcess>, now: Time, cancelAt: nat)
    requires !PlanningFails(s, host, rows, now, cancelAt)
    ensures LookedAt(s, rows, now, cancelAt) == rows
  {
  }

  /** How many of the latest passes in a row found the scope clean. */
  function CleanRun(history: seq<Round>, key: ScopeKey): nat {
    if history == [] || !CleanIn(history[|history| - 1].assessment, key) then 0
    else 1 + CleanRun(history[..|history| - 1], key)
  }

  lemma {:induction false} CleanRunMeansClean(history: seq<Round>, key: ScopeKey, n: nat)
    requires n <= CleanRun(history, key)
    ensures n <= |history| && forall i :: |history| - n <= i < |history| ==> CleanIn(history[i].assessment, key)
  {
    if 0 < n {
      CleanRunMeansClean(history[..|history| - 1], key, n - 1);
    }
  }

  ghost predicate Counts(clean: map<ScopeKey, nat>, history: seq<Round>) {
    forall key :: Count(clean, key) == CleanRun(history, key)
  }

  /** The counter of one assessed scope after the assessment. */
  function Recount(clean: map<ScopeKey, nat>, a: Assessment, key: ScopeKey): nat {
    if CleanIn(a, key) then Count(clean, key) + 1 else 0
  }

  lemma RecountCounts(clean: map<ScopeKey, nat>, clean': map<ScopeKey, nat>, history: seq<Round>, round: Round)
    requires Counts(clean, history)
    requires forall key :: key in clean' <==> SeenIn(round.assessment, key)
    requires forall key :: key in clean' ==> clean'[key] == Recount(clean, round.assessment, key)
    ensures Counts(clean', history + [round])
  {
    assert (history + [round])[..|history|] == history;
  }

  /** Midway through recording: the scopes in `seen` are recounted, the others as before. */
  ghost predicate Tallied(before: map<ScopeKey, nat>, clean: map<ScopeKey, nat>, a: Assessment, seen: set<ScopeKey>) {
    && (forall key :: key in clean <==> key in before || key in seen)
    && (forall key :: key in clean ==> clean[key] == if key in seen then Recount(before, a, key) else before[key])
  }

  lemma NothingTallied(clean: map<ScopeKey, nat>, a: Assessment)
    ensures Tallied(clean, clean, a, {})
  {
  }

  lemma TallyOne(before: map<ScopeKey, nat>, clean: map<ScopeKey, nat>, a: Assessment, seen: set<ScopeKey>,
                 key: ScopeKey)
    requires Tallied(before, clean, a, seen) && key !in seen
    ensures Tallied(before, clean[key := if CleanIn(a, key) then Count(clean, key) + 1 else 0], a, seen + {key})
  {
  }

  lemma TallyAll(before: map<ScopeKey, nat>, clean: map<ScopeKey, nat>, history: seq<Round>, round: Round,
                 seen: set<ScopeKey>)
    requires Counts(before, history) && Tallied(before, clean, round.assessment, seen)
    requires forall key :: key in seen <==> SeenIn(round.assessment, key)
    ensures Counts(map key | key in clean && key in seen :: clean[key], history + [round])
  {
    hide Counts;
    RecountCounts(before, map key | key in clean && key in seen :: clean[key], history, round);
  }
}
