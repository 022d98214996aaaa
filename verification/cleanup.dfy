/**
 The end of a monitor pass on values: which scopes cleanup and pruning let go, and why every
 other one stays.
 */
module Cleanup {
  import opened Model
  import opened Sequences
  import opened StoreOps
  import opened StoreRuns
  import opened Naming
  import opened Retention

  const EVICTION_CLEAN_SAMPLES := 3

  datatype ScopeKey = OfAuthorization(id: string) | OfLease(id: string)

  function Count(clean: map<ScopeKey, nat>, key: ScopeKey): nat { if key in clean then clean[key] else 0 }

  /** What holds of the stored state between the daemon's steps. */
  predicate Healthy(s: State, clock: Time) { Inv(s) && Named(s) && AllBacked(s, clock) }

  /** An active scope that only eviction evidence can end. */
  predicate Lasting(a: Authorization) { a.active && !a.mode.Bare? && a.cgroupPath == "" }

  predicate LastingLease(l: Lease) { l.active && !l.mode.Bare? && l.cgroupPath == "" }

  /** The state has a lasting scope of that key. */
  predicate Holds(s: State, key: ScopeKey) {
    match key
    case OfAuthorization(id) => exists a :: a in s.authorizations && Lasting(a) && a.id == id
    case OfLease(id) => exists l :: l in s.leases && LastingLease(l) && l.id == id
  }

  /** The parts of the state that claims do not touch. */
  predicate SameGrants(s: State, t: State) {
    && s.tokens == t.tokens && s.reservations == t.reservations
    && s.authorizations == t.authorizations && s.leases == t.leases
  }

  // ----- Cleanup -----

  /** Cleanup may let go of the ended authorization: its cgroup is gone, or its scope was clean often enough. */
  predicate Ready(a: Authorization, clean: map<ScopeKey, nat>, stopped: string -> bool) {
    if a.cgroupPath != "" then stopped(a.cgroupPath)
    else a.mode.Bare? || EVICTION_CLEAN_SAMPLES <= Count(clean, OfAuthorization(a.id))
  }

  predicate LeaseReady(l: Lease, clean: map<ScopeKey, nat>, stopped: string -> bool) {
    if l.cgroupPath != "" then stopped(l.cgroupPath)
    else l.mode.Bare? || EVICTION_CLEAN_SAMPLES <= Count(clean, OfLease(l.id))
  }

  function ReleasedAuthorizations(auths: seq<Authorization>, tokens: map<string, Token>, clean: map<ScopeKey, nat>,
                                  stopped: string -> bool, now: Time): set<string>
  {
    set a | a in auths && Ended(tokens, a, now) && Ready(a, clean, stopped) :: a.id
  }

  function ReleasedLeases(leases: seq<Lease>, tokens: map<string, Token>, clean: map<ScopeKey, nat>,
                          stopped: string -> bool, now: Time): set<string>
  {
    set l | l in leases && LeaseEnded(tokens, l, now) && LeaseReady(l, clean, stopped) :: l.id
  }

  function FinishedBare(auths: seq<Authorization>, finished: Authorization -> bool): set<string> {
    set a | a in auths && a.active && a.mode.Bare? && 0 < a.rootPID && finished(a) :: a.id
  }

  function FinishedBareLeases(leases: seq<Lease>, finished: Lease -> bool): set<string> {
    set l | l in leases && l.active && l.mode.Bare? && 0 < l.rootPID && finished(l) :: l.id
  }

  /** Clock readings and outcomes of one cleanup: cgroup stops, finished bare runs, store saves. */
  datatype CleanupEnv = CleanupEnv(
    now: Time, reservationsAt: Time, authorizationsAt: Time, leasesAt: Time,
    stopped: string -> bool, finished: Authorization -> bool, leaseFinished: Lease -> bool,
    saved: nat -> bool, synced: nat -> bool)
  {
    /** Save `i` came through: renamed, and the directory synced after it. */
    predicate Through(i: nat) { saved(i) && synced(i) }

    predicate Ordered(clock: Time) { clock <= now <= reservationsAt <= authorizationsAt <= leasesAt }
  }

  /** The releases of one cleanup, each decided on the snapshot of the pass. */
  function ReservationRelease(snapshot: State, env: CleanupEnv): Op {
    ReleaseScopesOp(EndedReservations(snapshot, env.reservationsAt), {}, {})
  }

  function AuthorizationRelease(snapshot: State, clean: map<ScopeKey, nat>, env: CleanupEnv): Op {
    ReleaseScopesOp({}, ReleasedAuthorizations(snapshot.authorizations, TokensByHash(snapshot.tokens), clean,
                                               env.stopped, env.authorizationsAt), {})
  }

  function BareRelease(snapshot: State, env: CleanupEnv): Op {
    ReleaseScopesOp({}, FinishedBare(snapshot.authorizations, env.finished), {})
  }

  function LeaseRelease(snapshot: State, clean: map<ScopeKey, nat>, env: CleanupEnv): Op {
    ReleaseScopesOp({}, {}, ReleasedLeases(snapshot.leases, TokensByHash(snapshot.tokens), clean,
                                           env.stopped, env.leasesAt))
  }

  function BareLeaseRelease(snapshot: State, env: CleanupEnv): Op {
    ReleaseScopesOp({}, {}, FinishedBareLeases(snapshot.leases, env.leaseFinished))
  }

  function AfterAuthorizations(s: State, snapshot: State, clean: map<ScopeKey, nat>, env: CleanupEnv): State {
    Apply(Apply(s, AuthorizationRelease(snapshot, clean, env), env.saved(1)), BareRelease(snapshot, env), env.saved(2))
  }

  function AfterLeases(s: State, snapshot: State, clean: map<ScopeKey, nat>, env: CleanupEnv): State {
    Apply(Apply(s, LeaseRelease(snapshot, clean, env), env.saved(3)), BareLeaseRelease(snapshot, env), env.saved(4))
  }

  /** The operation reports an error: it was refused, or the save of its write did not come through. */
  predicate Lost(s: State, op: Op, through: bool) {
    Perform(s, op).Refused? || (Perform(s, op).Write? && !through)
  }

  predicate NonePutOff(snapshot: State, clean: map<ScopeKey, nat>, env: CleanupEnv) {
    forall a :: a in snapshot.authorizations && Ended(TokensByHash(snapshot.tokens), a, env.authorizationsAt) ==>
      Ready(a, clean, env.stopped)
  }

  predicate NoLeasePutOff(snapshot: State, clean: map<ScopeKey, nat>, env: CleanupEnv) {
    forall l :: l in snapshot.leases && LeaseEnded(TokensByHash(snapshot.tokens), l, env.leasesAt) ==>
      LeaseReady(l, clean, env.stopped)
  }

  /** The state after cleanup, which prunes when eviction worked and nothing ended had to be put off. */
  function AfterCleanup(s: State, snapshot: State, clean: map<ScopeKey, nat>, evictionFailed: bool,
                        env: CleanupEnv): State
  {
    var s1 := Apply(s, ReservationRelease(snapshot, env), env.saved(0));
    var s2 := AfterAuthorizations(s1, snapshot, clean, env);
    var s3 := AfterLeases(s2, snapshot, clean, env);
    if !evictionFailed && !Lost(s, ReservationRelease(snapshot, env), env.Through(0))
       && NonePutOff(snapshot, clean, env) && !Lost(s1, AuthorizationRelease(snapshot, clean, env), env.Through(1))
       && NoLeasePutOff(snapshot, clean, env) && !Lost(s2, LeaseRelease(snapshot, clean, env), env.Through(3))
    then Apply(s3, PruneOp(env.now), env.saved(5))
    else s3
  }

  // ----- Releases one at a time -----

  lemma ReleaseApplied(s: State, rs: set<string>, auths: set<string>, ls: set<string>, saved: bool)
    ensures Apply(s, ReleaseScopesOp(rs, auths, ls), saved) == if saved then Released(s, rs, auths, ls) else s
    ensures Lost(s, ReleaseScopesOp(rs, auths, ls), saved) <==> !saved && Released(s, rs, auths, ls) != s
  {
  }

  /** Which authorizations and leases a release leaves as they are. */
  lemma ReleaseSpares(s: State, rs: set<string>, auths: set<string>, ls: set<string>, saved: bool)
    ensures var s' := Apply(s, ReleaseScopesOp(rs, auths, ls), saved);
            && s'.tokens == s.tokens
            && (auths == {} ==> s'.authorizations == s.authorizations)
            && (ls == {} ==> s'.leases == s.leases)
            && (forall a :: a in s.authorizations && (a.id !in auths || !saved) ==> a in s'.authorizations)
            && (forall l :: l in s.leases && (l.id !in ls || !saved) ==> l in s'.leases)
            && (saved ==> forall a :: a in s'.authorizations && a.id in auths ==> !a.active)
            && (saved ==> forall l :: l in s'.leases && l.id in ls ==> !l.active)
  {
    ReleaseApplied(s, rs, auths, ls, saved);
    var s' := Apply(s, ReleaseScopesOp(rs, auths, ls), saved);
    forall a | a in s.authorizations && (a.id !in auths || !saved) ensures a in s'.authorizations {
      var i :| 0 <= i < |s.authorizations| && s.authorizations[i] == a;
      assert s'.authorizations[i] == a;
    }
    forall l | l in s.leases && (l.id !in ls || !saved) ensures l in s'.leases {
      var i :| 0 <= i < |s.leases| && s.leases[i] == l;
      assert s'.leases[i] == l;
    }
  }

  lemma ScopeReleaseKeepsHealthy(s: State, auths: set<string>, ls: set<string>, saved: bool, clock: Time)
    requires Healthy(s, clock)
    ensures Healthy(Apply(s, ReleaseScopesOp({}, auths, ls), saved), clock)
  {
    hide Inv, Named, AllBacked, Apply;
    var op := ReleaseScopesOp({}, auths, ls);
    StepKeepsInv(s, op, saved);
    StepKeepsNamed(s, op, saved);
    ScopeReleaseKeepsBacked(s, auths, ls, saved, clock);
  }

  lemma ScopeReleaseKeepsBacked(s: State, auths: set<string>, ls: set<string>, saved: bool, clock: Time)
    requires AllBacked(s, clock)
    ensures AllBacked(Apply(s, ReleaseScopesOp({}, auths, ls), saved), clock)
  {
    hide AllBacked;
    if Perform(s, ReleaseScopesOp({}, auths, ls)).Write? && saved {
      OtherReleasesKeepBacked(s, auths, ls, clock);
    }
  }

  lemma ReservationReleaseKeepsHealthy(s: State, snapshot: State, env: CleanupEnv, clock: Time)
    requires Healthy(s, clock) && SameGrants(snapshot, s) && env.Ordered(clock)
    ensures Healthy(Apply(s, ReservationRelease(snapshot, env), env.saved(0)), env.reservationsAt)
  {
    hide Inv, AllBacked, AllGrouped, AllApart, Apply;
    var op := ReservationRelease(snapshot, env);
    assert EndedReservations(snapshot, env.reservationsAt) == EndedReservations(s, env.reservationsAt);
    StepKeepsInv(s, op, env.saved(0));
    StepKeepsNamed(s, op, env.saved(0));
    ReservationReleaseKeepsBacked(s, env.reservationsAt, env.saved(0), clock);
  }

  lemma ReservationReleaseKeepsBacked(s: State, now: Time, saved: bool, clock: Time)
    requires AllBacked(s, clock) && UniqueIDs(s) && clock <= now
    ensures AllBacked(Apply(s, ReleaseScopesOp(EndedReservations(s, now), {}, {}), saved), now)
  {
    hide AllBacked, UniqueIDs, EndedReservations;
    if Perform(s, ReleaseScopesOp(EndedReservations(s, now), {}, {})).Write? && saved {
      CleanupKeepsBacked(s, now, clock);
    } else {
      LaterStillBacked(s, clock, now);
    }
  }

  lemma PruneKeepsHealthy(s: State, now: Time, saved: bool, clock: Time)
    requires Healthy(s, clock) && now <= clock
    ensures Healthy(Apply(s, PruneOp(now), saved), clock)
  {
    hide Inv, Named, PrunedState, DeadHashes, AuthorizationIDs;
    StepKeepsInv(s, PruneOp(now), saved);
    StepKeepsNamed(s, PruneOp(now), saved);
    PruneKeepsBacked(s, now, clock);
  }

  lemma LaterStillHealthy(s: State, clock: Time, clock': Time)
    requires Healthy(s, clock) && clock <= clock'
    ensures Healthy(s, clock')
  {
    hide Inv, Named;
    LaterStillBacked(s, clock, clock');
  }

  lemma ClaimsKeepHealthy(s: State, op: Op, saved: bool, clock: Time)
    requires Healthy(s, clock) && (op.UpsertSoftClaimOp? || op.ReleaseSoftClaimOp?)
    ensures Healthy(Apply(s, op, saved), clock) && SameGrants(s, Apply(s, op, saved))
  {
    hide Inv, Named, AllBacked;
    StepKeepsInv(s, op, saved);
    StepKeepsNamed(s, op, saved);
    BackedBySameRows(s, Apply(s, op, saved), clock);
  }

  lemma BackedBySameRows(s: State, t: State, clock: Time)
    requires AllBacked(s, clock) && t.tokens == s.tokens && t.reservations == s.reservations
    ensures AllBacked(t, clock)
  {
  }

  // ----- What a cleanup keeps -----

  /** The stages of a cleanup before pruning all keep the state healthy and the tokens in place. */
  lemma StagesKeepHealthy(s: State, snapshot: State, clean: map<ScopeKey, nat>, env: CleanupEnv, clock: Time)
    requires Healthy(s, clock) && SameGrants(snapshot, s) && env.Ordered(clock)
    ensures var s1 := Apply(s, ReservationRelease(snapshot, env), env.saved(0));
            var s2 := AfterAuthorizations(s1, snapshot, clean, env);
            var s3 := AfterLeases(s2, snapshot, clean, env);
            Healthy(s3, env.reservationsAt) && s3.tokens == snapshot.tokens
  {
    hide Healthy, Apply, ReleasedAuthorizations, ReleasedLeases, EndedReservations, FinishedBare, FinishedBareLeases;
    ReservationReleaseKeepsHealthy(s, snapshot, env, clock);
    ReleaseSpares(s, EndedReservations(snapshot, env.reservationsAt), {}, {}, env.saved(0));
    var s1 := Apply(s, ReservationRelease(snapshot, env), env.saved(0));
    var op1, op2 := AuthorizationRelease(snapshot, clean, env), BareRelease(snapshot, env);
    ReleaseStage(s1, op1, env.saved(1), env.reservationsAt);
    ReleaseStage(Apply(s1, op1, env.saved(1)), op2, env.saved(2), env.reservationsAt);
    var s2 := AfterAuthorizations(s1, snapshot, clean, env);
    var op3, op4 := LeaseRelease(snapshot, clean, env), BareLeaseRelease(snapshot, env);
    ReleaseStage(s2, op3, env.saved(3), env.reservationsAt);
    ReleaseStage(Apply(s2, op3, env.saved(3)), op4, env.saved(4), env.reservationsAt);
  }

  lemma ReleaseStage(s: State, op: Op, saved: bool, clock: Time)
    requires Healthy(s, clock) && op.ReleaseScopesOp? && op.reservationIDs == {}
    ensures Healthy(Apply(s, op, saved), clock) && Apply(s, op, saved).tokens == s.tokens
  {
    hide Healthy, Apply;
    ScopeReleaseKeepsHealthy(s, op.authorizationIDs, op.leaseIDs, saved, clock);
    ReleaseSpares(s, {}, op.authorizationIDs, op.leaseIDs, saved);
  }

  lemma CleanupKeepsHealthy(s: State, snapshot: State, clean: map<ScopeKey, nat>, evictionFailed: bool,
                            env: CleanupEnv, clock: Time)
    requires Healthy(s, clock) && SameGrants(snapshot, s) && env.Ordered(clock)
    ensures Healthy(AfterCleanup(s, snapshot, clean, evictionFailed, env), env.leasesAt)
  {
    hide Healthy, Apply, NonePutOff, NoLeasePutOff, Lost;
    StagesKeepHealthy(s, snapshot, clean, env, clock);
    var s1 := Apply(s, ReservationRelease(snapshot, env), env.saved(0));
    var s3 := AfterLeases(AfterAuthorizations(s1, snapshot, clean, env), snapshot, clean, env);
    PruneKeepsHealthy(s3, env.now, env.saved(5), env.reservationsAt);
    LaterStillHealthy(s3, env.reservationsAt, env.leasesAt);
    LaterStillHealthy(Apply(s3, PruneOp(env.now), env.saved(5)), env.reservationsAt, env.leasesAt);
  }

  /** This cleanup lets go of the lasting authorization: it ended, was clean three times running, and the save held. */
  predicate LetsGo(snapshot: State, clean: map<ScopeKey, nat>, env: CleanupEnv, a: Authorization) {
    && Ended(TokensByHash(snapshot.tokens), a, env.authorizationsAt)
    && EVICTION_CLEAN_SAMPLES <= Count(clean, OfAuthorization(a.id)) && env.saved(1)
  }

  predicate LetsGoLease(snapshot: State, clean: map<ScopeKey, nat>, env: CleanupEnv, l: Lease) {
    && LeaseEnded(TokensByHash(snapshot.tokens), l, env.leasesAt)
    && EVICTION_CLEAN_SAMPLES <= Count(clean, OfLease(l.id)) && env.saved(3)
  }

  /** Of the released identifiers, a lasting authorization's is among them exactly when it ended and is ready. */
  lemma ReleasedIff(snapshot: State, tokens: map<string, Token>, clean: map<ScopeKey, nat>, env: CleanupEnv,
                    a: Authorization)
    requires UniqueIDs(snapshot) && a in snapshot.authorizations && Lasting(a)
    ensures a.id in ReleasedAuthorizations(snapshot.authorizations, tokens, clean, env.stopped, env.authorizationsAt)
            <==> Ended(tokens, a, env.authorizationsAt) && EVICTION_CLEAN_SAMPLES <= Count(clean, OfAuthorization(a.id))
    ensures a.id !in FinishedBare(snapshot.authorizations, env.finished)
  {
    hide Ended, Distinct;
    forall b | b in snapshot.authorizations && b.id == a.id ensures b == a {
      OneRow(AuthorizationID(), snapshot.authorizations, a, b);
    }
  }

  lemma LeaseReleasedIff(snapshot: State, tokens: map<string, Token>, clean: map<ScopeKey, nat>, env: CleanupEnv,
                         l: Lease)
    requires UniqueIDs(snapshot) && l in snapshot.leases && LastingLease(l)
    ensures l.id in ReleasedLeases(snapshot.leases, tokens, clean, env.stopped, env.leasesAt)
            <==> LeaseEnded(tokens, l, env.leasesAt) && EVICTION_CLEAN_SAMPLES <= Count(clean, OfLease(l.id))
    ensures l.id !in FinishedBareLeases(snapshot.leases, env.leaseFinished)
  {
    hide LeaseEnded, Distinct;
    forall m | m in snapshot.leases && m.id == l.id ensures m == l {
      OneRow(LeaseID(), snapshot.leases, l, m);
    }
  }

  /** A lasting authorization through the releases: kept as it is, or inactive, as `LetsGo` says. */
  lemma StagesDecide(s: State, snapshot: State, clean: map<ScopeKey, nat>, env: CleanupEnv, a: Authorization)
    requires SameGrants(snapshot, s) && UniqueIDs(snapshot) && a in snapshot.authorizations && Lasting(a)
    ensures var s1 := Apply(s, ReservationRelease(snapshot, env), env.saved(0));
            var s3 := AfterLeases(AfterAuthorizations(s1, snapshot, clean, env), snapshot, clean, env);
            if LetsGo(snapshot, clean, env, a) then forall b :: b in s3.authorizations && b.id == a.id ==> !b.active
            else a in s3.authorizations
  {
    hide Apply, ReleasedAuthorizations, ReleasedLeases, EndedReservations, FinishedBare, FinishedBareLeases, Ended;
    hide UniqueIDs, TokensByHash;
    var tokens := TokensByHash(snapshot.tokens);
    ReleasedIff(snapshot, tokens, clean, env, a);
    ReleaseSpares(s, EndedReservations(snapshot, env.reservationsAt), {}, {}, env.saved(0));
    var s1 := Apply(s, ReservationRelease(snapshot, env), env.saved(0));
    var ids := ReleasedAuthorizations(snapshot.authorizations, tokens, clean, env.stopped, env.authorizationsAt);
    ReleaseSpares(s1, {}, ids, {}, env.saved(1));
    var s1' := Apply(s1, AuthorizationRelease(snapshot, clean, env), env.saved(1));
    ReleaseSpares(s1', {}, FinishedBare(snapshot.authorizations, env.finished), {}, env.saved(2));
    ReleaseRevivesNone(s1', {}, FinishedBare(snapshot.authorizations, env.finished), {}, env.saved(2));
    var s2 := AfterAuthorizations(s1, snapshot, clean, env);
    var ls := ReleasedLeases(snapshot.leases, tokens, clean, env.stopped, env.leasesAt);
    ReleaseSpares(s2, {}, {}, ls, env.saved(3));
    ReleaseSpares(Apply(s2, LeaseRelease(snapshot, clean, env), env.saved(3)), {}, {},
                  FinishedBareLeases(snapshot.leases, env.leaseFinished), env.saved(4));
  }

  lemma LeaseStagesDecide(s: State, snapshot: State, clean: map<ScopeKey, nat>, env: CleanupEnv, l: Lease)
    requires SameGrants(snapshot, s) && UniqueIDs(snapshot) && l in snapshot.leases && LastingLease(l)
    ensures var s1 := Apply(s, ReservationRelease(snapshot, env), env.saved(0));
            var s3 := AfterLeases(AfterAuthorizations(s1, snapshot, clean, env), snapshot, clean, env);
            if LetsGoLease(snapshot, clean, env, l) then forall m :: m in s3.leases && m.id == l.id ==> !m.active
            else l in s3.leases
  {
    hide Apply, ReleasedAuthorizations, ReleasedLeases, EndedReservations, FinishedBare, FinishedBareLeases;
    hide LeaseEnded, UniqueIDs, TokensByHash;
    var tokens := TokensByHash(snapshot.tokens);
    LeaseReleasedIff(snapshot, tokens, clean, env, l);
    ReleaseSpares(s, EndedReservations(snapshot, env.reservationsAt), {}, {}, env.saved(0));
    var s1 := Apply(s, ReservationRelease(snapshot, env), env.saved(0));
    var ids := ReleasedAuthorizations(snapshot.authorizations, tokens, clean, env.stopped, env.authorizationsAt);
    ReleaseSpares(s1, {}, ids, {}, env.saved(1));
    ReleaseSpares(Apply(s1, AuthorizationRelease(snapshot, clean, env), env.saved(1)), {},
                  FinishedBare(snapshot.authorizations, env.finished), {}, env.saved(2));
    var s2 := AfterAuthorizations(s1, snapshot, clean, env);
    var ls := ReleasedLeases(snapshot.leases, tokens, clean, env.stopped, env.leasesAt);
    ReleaseSpares(s2, {}, {}, ls, env.saved(3));
    var s2' := Apply(s2, LeaseRelease(snapshot, clean, env), env.saved(3));
    ReleaseSpares(s2', {}, {}, FinishedBareLeases(snapshot.leases, env.leaseFinished), env.saved(4));
    ReleaseRevivesNone(s2', {}, {}, FinishedBareLeases(snapshot.leases, env.leaseFinished), env.saved(4));
  }

  /** Whatever is active after a release was there before it. */
  lemma ReleaseRevivesNone(s: State, rs: set<string>, auths: set<string>, ls: set<string>, saved: bool)
    ensures var s' := Apply(s, ReleaseScopesOp(rs, auths, ls), saved);
            && (forall a :: a in s'.authorizations && a.active ==> a in s.authorizations)
            && (forall l :: l in s'.leases && l.active ==> l in s.leases)
  {
    ReleaseApplied(s, rs, auths, ls, saved);
  }

  lemma PruneRevivesNone(s: State, now: Time, saved: bool)
    ensures var s' := Apply(s, PruneOp(now), saved);
            && (forall a :: a in s'.authorizations ==> a in s.authorizations)
            && (forall l :: l in s'.leases ==> l in s.leases)
  {
    hide DeadHashes, LiveHashes;
  }

  lemma ReleaseChanges(s: State, ids: set<string>, a: Authorization)
    requires a in s.authorizations && a.active
    ensures a.id in ids ==> Released(s, {}, ids, {}) != s
  {
    var i :| 0 <= i < |s.authorizations| && s.authorizations[i] == a;
    assert a.id in ids ==> !Released(s, {}, ids, {}).authorizations[i].active;
  }

  lemma LeaseReleaseChanges(s: State, ids: set<string>, l: Lease)
    requires l in s.leases && l.active
    ensures l.id in ids ==> Released(s, {}, {}, ids) != s
  {
    var i :| 0 <= i < |s.leases| && s.leases[i] == l;
    assert l.id in ids ==> !Released(s, {}, {}, ids).leases[i].active;
  }

  /** If cleanup goes on to prune, everything that ended was ready and its release saved. */
  lemma PutOffMeansNoPrune(s1: State, snapshot: State, clean: map<ScopeKey, nat>, env: CleanupEnv, a: Authorization)
    requires s1.authorizations == snapshot.authorizations && UniqueIDs(snapshot)
    requires a in snapshot.authorizations && Lasting(a) && !LetsGo(snapshot, clean, env, a)
    requires NonePutOff(snapshot, clean, env) && !Lost(s1, AuthorizationRelease(snapshot, clean, env), env.Through(1))
    ensures !Ended(TokensByHash(snapshot.tokens), a, env.authorizationsAt)
  {
    hide Ended, UniqueIDs, TokensByHash, Apply, ReleasedAuthorizations;
    var tokens := TokensByHash(snapshot.tokens);
    ReleasedIff(snapshot, tokens, clean, env, a);
    var ids := ReleasedAuthorizations(snapshot.authorizations, tokens, clean, env.stopped, env.authorizationsAt);
    ReleaseApplied(s1, {}, ids, {}, env.saved(1));
    ReleaseChanges(s1, ids, a);
  }

  lemma LeasePutOffMeansNoPrune(s2: State, snapshot: State, clean: map<ScopeKey, nat>, env: CleanupEnv, l: Lease)
    requires s2.leases == snapshot.leases && UniqueIDs(snapshot)
    requires l in snapshot.leases && LastingLease(l) && !LetsGoLease(snapshot, clean, env, l)
    requires NoLeasePutOff(snapshot, clean, env) && !Lost(s2, LeaseRelease(snapshot, clean, env), env.Through(3))
    ensures !LeaseEnded(TokensByHash(snapshot.tokens), l, env.leasesAt)
  {
    hide LeaseEnded, UniqueIDs, TokensByHash, Apply, ReleasedLeases;
    var tokens := TokensByHash(snapshot.tokens);
    LeaseReleasedIff(snapshot, tokens, clean, env, l);
    var ids := ReleasedLeases(snapshot.leases, tokens, clean, env.stopped, env.leasesAt);
    ReleaseApplied(s2, {}, {}, ids, env.saved(3));
    LeaseReleaseChanges(s2, ids, l);
  }

  /** A prune leaves a row that had not ended at cleanup. */
  lemma PruneKeepsUnended(s: State, now: Time, cleanupAt: Time, clock: Time, saved: bool, a: Authorization)
    requires Healthy(s, clock) && now <= clock <= cleanupAt
    requires a in s.authorizations && a.active && !Ended(TokensByHash(s.tokens), a, cleanupAt)
    ensures a in Apply(s, PruneOp(now), saved).authorizations
  {
    hide Inv, Named, AllBacked, Ended, TokensByHash, PrunedState, DeadHashes, AuthorizationIDs;
    PruneRetains(s, a, now, cleanupAt, clock);
  }

  lemma PruneKeepsUnendedLease(s: State, now: Time, cleanupAt: Time, clock: Time, saved: bool, l: Lease)
    requires Healthy(s, clock) && now <= clock <= cleanupAt
    requires l in s.leases && l.active && !LeaseEnded(TokensByHash(s.tokens), l, cleanupAt)
    ensures l in Apply(s, PruneOp(now), saved).leases
  {
    hide Inv, Named, AllBacked, LeaseEnded, TokensByHash, PrunedState, DeadHashes, AuthorizationIDs;
    PruneRetainsLease(s, l, now, cleanupAt, clock);
  }

  /**
   A lasting authorization survives the pass's cleanup exactly when the cleanup does not let it
   go; what it lets go is not active any more.
   */
  lemma AuthorizationLeavesIff(s: State, snapshot: State, clean: map<ScopeKey, nat>, evictionFailed: bool,
                               env: CleanupEnv, clock: Time, a: Authorization)
    requires Healthy(s, clock) && SameGrants(snapshot, s) && UniqueIDs(snapshot) && env.Ordered(clock)
    requires a in snapshot.authorizations && Lasting(a)
    ensures var s' := AfterCleanup(s, snapshot, clean, evictionFailed, env);
            if LetsGo(snapshot, clean, env, a) then forall b :: b in s'.authorizations && b.id == a.id ==> !b.active
            else a in s'.authorizations
  {
    hide Healthy, Apply, UniqueIDs, NonePutOff, NoLeasePutOff, Lost, Ended, TokensByHash, LetsGo;
    hide AuthorizationRelease, BareRelease, LeaseRelease, BareLeaseRelease, EndedReservations;
    StagesKeepHealthy(s, snapshot, clean, env, clock);
    StagesDecide(s, snapshot, clean, env, a);
    ReleaseSpares(s, EndedReservations(snapshot, env.reservationsAt), {}, {}, env.saved(0));
    var s1 := Apply(s, ReservationRelease(snapshot, env), env.saved(0));
    var s3 := AfterLeases(AfterAuthorizations(s1, snapshot, clean, env), snapshot, clean, env);
    PruneRevivesNone(s3, env.now, env.saved(5));
    if !LetsGo(snapshot, clean, env, a) && NonePutOff(snapshot, clean, env)
       && !Lost(s1, AuthorizationRelease(snapshot, clean, env), env.Through(1)) {
      PutOffMeansNoPrune(s1, snapshot, clean, env, a);
      PruneKeepsUnended(s3, env.now, env.authorizationsAt, env.reservationsAt, env.saved(5), a);
    }
  }

  lemma LeaseLeavesIff(s: State, snapshot: State, clean: map<ScopeKey, nat>, evictionFailed: bool,
                       env: CleanupEnv, clock: Time, l: Lease)
    requires Healthy(s, clock) && SameGrants(snapshot, s) && UniqueIDs(snapshot) && env.Ordered(clock)
    requires l in snapshot.leases && LastingLease(l)
    ensures var s' := AfterCleanup(s, snapshot, clean, evictionFailed, env);
            if LetsGoLease(snapshot, clean, env, l) then forall m :: m in s'.leases && m.id == l.id ==> !m.active
            else l in s'.leases
  {
    hide Healthy, Apply, UniqueIDs, NonePutOff, NoLeasePutOff, Lost, LeaseEnded, TokensByHash, LetsGoLease;
    hide LeaseRelease, BareLeaseRelease, EndedReservations, ReleasedAuthorizations, FinishedBare, AfterLeases;
    StagesKeepHealthy(s, snapshot, clean, env, clock);
    LeaseStagesDecide(s, snapshot, clean, env, l);
    ReleaseSpares(s, EndedReservations(snapshot, env.reservationsAt), {}, {}, env.saved(0));
    var s1 := Apply(s, ReservationRelease(snapshot, env), env.saved(0));
    LeasesUntouched(s1, snapshot, clean, env);
    var s2 := AfterAuthorizations(s1, snapshot, clean, env);
    var s3 := AfterLeases(s2, snapshot, clean, env);
    PruneRevivesNone(s3, env.now, env.saved(5));
    if !LetsGoLease(snapshot, clean, env, l) && NoLeasePutOff(snapshot, clean, env)
       && !Lost(s2, LeaseRelease(snapshot, clean, env), env.Through(3)) {
      LeasePutOffMeansNoPrune(s2, snapshot, clean, env, l);
      PruneKeepsUnendedLease(s3, env.now, env.leasesAt, env.reservationsAt, env.saved(5), l);
    }
  }

  lemma LeasesUntouched(s: State, snapshot: State, clean: map<ScopeKey, nat>, env: CleanupEnv)
    ensures AfterAuthorizations(s, snapshot, clean, env).leases == s.leases
  {
    hide Apply, ReleasedAuthorizations, FinishedBare;
    var ids := ReleasedAuthorizations(snapshot.authorizations, TokensByHash(snapshot.tokens), clean, env.stopped,
                                      env.authorizationsAt);
    ReleaseSpares(s, {}, ids, {}, env.saved(1));
    ReleaseSpares(Apply(s, AuthorizationRelease(snapshot, clean, env), env.saved(1)), {},
                  FinishedBare(snapshot.authorizations, env.finished), {}, env.saved(2));
  }

  /** What the pass's cleanup takes away was clean in the last three samples. */
  lemma OnlyCleanScopesLeave(s: State, snapshot: State, clean: map<ScopeKey, nat>, evictionFailed: bool,
                             env: CleanupEnv, clock: Time, key: ScopeKey)
    requires Healthy(s, clock) && SameGrants(snapshot, s) && UniqueIDs(snapshot) && env.Ordered(clock)
    requires Holds(snapshot, key) && !Holds(AfterCleanup(s, snapshot, clean, evictionFailed, env), key)
    ensures EVICTION_CLEAN_SAMPLES <= Count(clean, key)
  {
    hide Healthy, UniqueIDs, AfterCleanup, Lasting, LastingLease, Ended, LeaseEnded, TokensByHash;
    match key
    case OfAuthorization(id) =>
      var a :| a in snapshot.authorizations && Lasting(a) && a.id == id;
      AuthorizationLeavesIff(s, snapshot, clean, evictionFailed, env, clock, a);
    case OfLease(id) =>
      var l :| l in snapshot.leases && LastingLease(l) && l.id == id;
      LeaseLeavesIff(s, snapshot, clean, evictionFailed, env, clock, l);
  }

  // ----- While no sample is to be had -----

  function InCgroups(s: State): State {
    s.(authorizations := Filter((a: Authorization) => a.cgroupPath != "", s.authorizations),
       leases := Filter((l: Lease) => l.cgroupPath != "", s.leases))
  }

  /** Inactive scopes whose cgroup directory could be removed. */
  function RemovedScopes(s: State, removable: string -> bool): Op {
    PruneInactiveManagedScopesOp(
      set a | a in s.authorizations && !a.active && a.cgroupPath != "" && removable(a.cgroupPath) :: a.id,
      set l | l in s.leases && !l.active && l.cgroupPath != "" && removable(l.cgroupPath) :: l.id)
  }

  /** The state after a pass without a sample: only managed cgroups are cleaned up. */
  function AfterOutage(s: State, clean: map<ScopeKey, nat>, env: CleanupEnv, removable: string -> bool): State {
    var s1 := Apply(s, AuthorizationRelease(InCgroups(s), clean, env), env.saved(1));
    var s2 := Apply(s1, LeaseRelease(InCgroups(s), clean, env), env.saved(3));
    var s3 := Apply(s2, RemovedScopes(s2, removable), env.saved(4));
    Apply(s3, PruneUnreferencedOp(env.leasesAt), env.saved(5))
  }

  predicate OutsideCgroupsKept(s: State, s': State) {
    && (forall a :: a in s.authorizations && a.cgroupPath == "" ==> a in s'.authorizations)
    && (forall l :: l in s.leases && l.cgroupPath == "" ==> l in s'.leases)
  }

  lemma ManagedReleaseIsManaged(s: State, tokens: map<string, Token>, clean: map<ScopeKey, nat>, env: CleanupEnv)
    requires UniqueIDs(s)
    ensures var managed := InCgroups(s).authorizations;
            forall a :: a in s.authorizations && a.cgroupPath == "" ==>
              a.id !in ReleasedAuthorizations(managed, tokens, clean, env.stopped, env.authorizationsAt)
    ensures forall l :: l in s.leases && l.cgroupPath == "" ==>
              l.id !in ReleasedLeases(InCgroups(s).leases, tokens, clean, env.stopped, env.leasesAt)
  {
    hide Ended, LeaseEnded, Ready, LeaseReady, Distinct;
    forall a, b | a in s.authorizations && b in s.authorizations && a.id == b.id ensures a == b {
      OneRow(AuthorizationID(), s.authorizations, a, b);
    }
    forall l, m | l in s.leases && m in s.leases && l.id == m.id ensures l == m {
      OneRow(LeaseID(), s.leases, l, m);
    }
  }

  /** A release that names no row outside cgroups. */
  lemma ManagedReleaseKeeps(s: State, auths: set<string>, ls: set<string>, saved: bool, clock: Time)
    requires Healthy(s, clock)
    requires forall a :: a in s.authorizations && a.cgroupPath == "" ==> a.id !in auths
    requires forall l :: l in s.leases && l.cgroupPath == "" ==> l.id !in ls
    ensures var s' := Apply(s, ReleaseScopesOp({}, auths, ls), saved); Healthy(s', clock) && OutsideCgroupsKept(s, s')
  {
    hide Healthy, Apply;
    ScopeReleaseKeepsHealthy(s, auths, ls, saved, clock);
    ReleaseSpares(s, {}, auths, ls, saved);
  }

  lemma RemovalKeeps(s: State, removable: string -> bool, saved: bool, clock: Time)
    requires Healthy(s, clock)
    ensures var s' := Apply(s, RemovedScopes(s, removable), saved); Healthy(s', clock) && OutsideCgroupsKept(s, s')
  {
    hide Inv, Named, AllBacked;
    var op := RemovedScopes(s, removable);
    StepKeepsInv(s, op, saved);
    StepKeepsNamed(s, op, saved);
    BackedBySameRows(s, Apply(s, op, saved), clock);
  }

  lemma OutagePruneKeeps(s: State, now: Time, saved: bool, clock: Time)
    requires Healthy(s, clock) && clock <= now
    ensures var s' := Apply(s, PruneUnreferencedOp(now), saved); Healthy(s', now) && OutsideCgroupsKept(s, s')
  {
    hide Inv, Named, AllBacked, Referenced, HashValid, TokensByHash;
    StepKeepsInv(s, PruneUnreferencedOp(now), saved);
    StepKeepsNamed(s, PruneUnreferencedOp(now), saved);
    LaterStillBacked(s, clock, now);
    if PruneUnreferenced(s, now).Write? && saved {
      OutagePruneKeepsBacked(s, now, now);
    }
  }

  lemma HealthyIsUnique(s: State, clock: Time)
    requires Healthy(s, clock)
    ensures UniqueIDs(s)
  {
  }

  /** A pass without a sample leaves every scope outside cgroups exactly as it is. */
  lemma OutageKeepsOthers(s: State, clean: map<ScopeKey, nat>, env: CleanupEnv, removable: string -> bool, clock: Time)
    requires Healthy(s, clock) && env.Ordered(clock)
    ensures var s' := AfterOutage(s, clean, env, removable); Healthy(s', env.leasesAt) && OutsideCgroupsKept(s, s')
  {
    hide Healthy, UniqueIDs, Apply, ReleasedAuthorizations, ReleasedLeases, RemovedScopes, TokensByHash, InCgroups;
    HealthyIsUnique(s, clock);
    var managed := InCgroups(s);
    var tokens := TokensByHash(managed.tokens);
    ManagedReleaseIsManaged(s, tokens, clean, env);
    var ids := ReleasedAuthorizations(managed.authorizations, tokens, clean, env.stopped, env.authorizationsAt);
    var ls := ReleasedLeases(managed.leases, tokens, clean, env.stopped, env.leasesAt);
    ManagedReleaseKeeps(s, ids, {}, env.saved(1), clock);
    ReleaseSpares(s, {}, ids, {}, env.saved(1));
    var s1 := Apply(s, AuthorizationRelease(managed, clean, env), env.saved(1));
    ManagedReleaseKeeps(s1, {}, ls, env.saved(3), clock);
    var s2 := Apply(s1, LeaseRelease(managed, clean, env), env.saved(3));
    RemovalKeeps(s2, removable, env.saved(4), clock);
    OutagePruneKeeps(Apply(s2, RemovedScopes(s2, removable), env.saved(4)), env.leasesAt, env.saved(5), clock);
  }

  lemma KeptOutsideHolds(s: State, s': State, key: ScopeKey)
    requires OutsideCgroupsKept(s, s') && Holds(s, key)
    ensures Holds(s', key)
  {
  }

  // ----- Client operations -----

  /** Registrations, syncs and revocations may mark an authorization, but never deactivate or drop it. */
  lemma ClientOpKeepsLasting(s: State, op: Op, saved: bool, i: nat)
    requires ClientOp(s, op) && i < |s.authorizations| && Lasting(s.authorizations[i])
    ensures var s' := Apply(s, op, saved);
            && i < |s'.authorizations| && Lasting(s'.authorizations[i])
            && s'.authorizations[i].id == s.authorizations[i].id
  {
    if Perform(s, op).Write? && saved {
      if op.RevokeOp? {
        RevokeKeepsRow(s, op.id, op.secretHash, op.now, i);
      } else if op.ActivateAuthorizationOp? {
        assert Lasting(Apply(s, op, saved).authorizations[i]);
      } else if op.ReleaseAuthorizationOp? {
        ReleaseBareKeepsRow(s, op.id, i);
      } else {
        OthersKeepRows(s, op);
      }
    }
  }

  lemma OthersKeepRows(s: State, op: Op)
    requires ClientOp(s, op) && Perform(s, op).Write?
    requires !op.RevokeOp? && !op.ActivateAuthorizationOp? && !op.ReleaseAuthorizationOp?
    ensures s.authorizations <= Perform(s, op).state.authorizations
  {
    hide SameReservationRequest, Conflict, NewReservations, ManagedToken, TokenCapacity, SessionUsed, SessionRows;
    hide Rebound;
    hide ManagedTokens, TokensByHash, Request.WellFormed, Snapshot.WellFormed, CountWhere, ClaimIndex, Stamped, Filter;
  }

  lemma RevokeKeepsRow(s: State, id: string, secretHash: string, now: Time, i: nat)
    requires Revoke(s, id, secretHash, now).Write? && i < |s.authorizations| && Lasting(s.authorizations[i])
    ensures var s' := Revoke(s, id, secretHash, now).state;
            && i < |s'.authorizations| && Lasting(s'.authorizations[i])
            && s'.authorizations[i].id == s.authorizations[i].id
  {
  }

  lemma ReleaseBareKeepsRow(s: State, id: string, i: nat)
    requires ClientOp(s, ReleaseAuthorizationOp(id)) && ReleaseAuthorization(s, id).Write?
    requires i < |s.authorizations| && Lasting(s.authorizations[i])
    ensures var s' := ReleaseAuthorization(s, id).state;
            i < |s'.authorizations| && s'.authorizations[i] == s.authorizations[i]
  {
  }

  /** Of leases, revoking ends the term and nothing else changes; none is added, deactivated or dropped. */
  lemma ClientOpKeepsLease(s: State, op: Op, saved: bool, i: nat)
    requires ClientOp(s, op) && i < |s.leases|
    ensures var s' := Apply(s, op, saved);
            |s'.leases| == |s.leases| && s'.leases[i].(expiresAt := s.leases[i].expiresAt) == s.leases[i]
  {
    if Perform(s, op).Write? && saved {
      if op.RevokeOp? {
        RevokeKeepsLease(s, op.id, op.secretHash, op.now, i);
      } else {
        OthersKeepLeases(s, op);
      }
    }
  }

  lemma OthersKeepLeases(s: State, op: Op)
    requires ClientOp(s, op) && Perform(s, op).Write? && !op.RevokeOp?
    ensures Perform(s, op).state.leases == s.leases
  {
    hide SameReservationRequest, Conflict, NewReservations, ManagedToken, TokenCapacity, SessionUsed, SessionRows;
    hide Rebound;
    hide ManagedTokens, TokensByHash, Request.WellFormed, Snapshot.WellFormed, CountWhere, ClaimIndex, Stamped, Filter;
  }

  lemma RevokeKeepsLease(s: State, id: string, secretHash: string, now: Time, i: nat)
    requires Revoke(s, id, secretHash, now).Write? && i < |s.leases|
    ensures var s' := Revoke(s, id, secretHash, now).state;
            |s'.leases| == |s.leases| && s'.leases[i].(expiresAt := s.leases[i].expiresAt) == s.leases[i]
  {
  }

  lemma ClientOpKeepsHolds(s: State, op: Op, saved: bool, key: ScopeKey)
    requires ClientOp(s, op) && Holds(s, key)
    ensures Holds(Apply(s, op, saved), key)
  {
    hide ClientOp, Apply, Lasting;
    match key
    case OfAuthorization(id) =>
      var a :| a in s.authorizations && Lasting(a) && a.id == id;
      var i :| 0 <= i < |s.authorizations| && s.authorizations[i] == a;
      ClientOpKeepsLasting(s, op, saved, i);
      assert Apply(s, op, saved).authorizations[i] in Apply(s, op, saved).authorizations;
    case OfLease(id) =>
      var l :| l in s.leases && LastingLease(l) && l.id == id;
      var i :| 0 <= i < |s.leases| && s.leases[i] == l;
      ClientOpKeepsLease(s, op, saved, i);
      assert Apply(s, op, saved).leases[i] in Apply(s, op, saved).leases;
  }

  lemma ClientOpKeepsHealthy(s: State, op: Op, saved: bool, clock: Time)
    requires Healthy(s, clock) && Admissible(s, op) && WellNamed(s, op) && ClientOp(s, op)
    requires op.RegisterScheduledOp? ==> 0 <= op.req.now
    ensures Healthy(Apply(s, op, saved), clock)
  {
    hide Inv, Named, AllBacked, Admissible, WellNamed, ClientOp, Apply;
    StepKeepsInv(s, op, saved);
    StepKeepsNamed(s, op, saved);
    ClientOpKeepsBacked(s, op, saved, clock);
  }
}
