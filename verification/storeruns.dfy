/**
 Every run of store operations: reservation windows on one GPU never overlap, an invalid
 token carries only invalid reservations, and no key sync or prune ends a live reservation.
 */
module StoreRuns {
  import opened Model
  import opened Sequences
  import opened StoreOps
  import opened Text

  datatype Op =
    | RegisterScheduledOp(req: Request, token: Token, ids: nat -> string)
    | RegisterManagedOp(userKeyID: string, req: Request, groupID: string, ids: nat -> string)
    | RegisterTokenOp(token: Token, now: Time)
    | SyncOp(snap: Snapshot, groups: nat -> string, now: Time)
    | RevokeOp(id: string, secretHash: string, now: Time)
    | ReleaseScopesOp(reservationIDs: set<string>, authorizationIDs: set<string>, leaseIDs: set<string>)
    | AddAuthorizationOp(authorization: Authorization, now: Time)
    | ActivateAuthorizationOp(id: string, rootPID: int)
    | ReleaseAuthorizationOp(id: string)
    | UpsertSoftClaimOp(claim: SoftClaim, freshID: string, now: Time)
    | ReleaseSoftClaimOp(id: string)
    | AddBypassOp(rule: BypassRule)
    | PruneOp(now: Time)
    | PruneInactiveManagedScopesOp(authorizationIDs: set<string>, leaseIDs: set<string>)
    | PruneUnreferencedOp(now: Time)

  function Perform(s: State, op: Op): Effect {
    match op
    case RegisterScheduledOp(req, token, ids) => RegisterScheduled(s, req, token, ids)
    case RegisterManagedOp(key, req, group, ids) => RegisterManaged(s, key, req, group, ids)
    case RegisterTokenOp(token, now) => RegisterToken(s, token, now)
    case SyncOp(snap, groups, now) => Sync(s, snap, groups, now)
    case RevokeOp(id, secretHash, now) => Revoke(s, id, secretHash, now)
    case ReleaseScopesOp(rs, auths, ls) => ReleaseScopes(s, rs, auths, ls)
    case AddAuthorizationOp(a, now) => AddAuthorization(s, a, now)
    case ActivateAuthorizationOp(id, pid) => ActivateAuthorization(s, id, pid)
    case ReleaseAuthorizationOp(id) => ReleaseAuthorization(s, id)
    case UpsertSoftClaimOp(c, id, now) => UpsertSoftClaim(s, c, id, now)
    case ReleaseSoftClaimOp(id) => ReleaseSoftClaim(s, id)
    case AddBypassOp(rule) => AddBypass(s, rule)
    case PruneOp(now) => Prune(s, now)
    case PruneInactiveManagedScopesOp(auths, ls) => PruneInactiveManagedScopes(s, auths, ls)
    case PruneUnreferencedOp(now) => PruneUnreferenced(s, now)
  }

  /** The state after an operation whose save reached the commit point, or did not. */
  function Apply(s: State, op: Op, committed: bool): State {
    var effect := Perform(s, op);
    if effect.Write? && committed then effect.state else s
  }

  predicate FreshToken(s: State, t: Token) {
    && t.id != "" && t.hash != "" && !t.revoked && !t.managed
    && (forall u :: u in s.tokens ==> u.id != t.id && u.hash != t.hash)
    && (forall r :: r in s.reservations ==> r.tokenHash != t.hash)
  }

  /** What randomness and hashing promise about an operation's arguments. */
  predicate Admissible(s: State, op: Op) {
    match op
    case RegisterScheduledOp(req, token, ids) =>
      FreshToken(s, token) && token.mode == Reserved && token.expiresAt == req.expiresAt
    case RegisterTokenOp(token, now) => FreshToken(s, token) && token.mode == Claimed
    // No token is named by another token's secret.
    case RevokeOp(id, secretHash, _) => secretHash != "" ==> forall t :: t in s.tokens ==> t.id != id
    case _ => true
  }

  datatype Step = Step(op: Op, committed: bool)

  function Run(s: State, steps: seq<Step>): State
    decreases |steps|
  {
    if steps == [] then s else Run(Apply(s, steps[0].op, steps[0].committed), steps[1..])
  }

  predicate AdmissibleRun(s: State, steps: seq<Step>)
    decreases |steps|
  {
    steps != [] ==>
      && Admissible(s, steps[0].op)
      && AdmissibleRun(Apply(s, steps[0].op, steps[0].committed), steps[1..])
  }

  // ----- The invariant -----

  predicate Compatible(a: Reservation, b: Reservation) {
    a.gpu == b.gpu && ReservationLive(a) && ReservationLive(b) ==>
      a.expiresAt <= ReservationStartsAt(b) || b.expiresAt <= ReservationStartsAt(a)
  }

  predicate NoOverlap(rs: seq<Reservation>) {
    rs != [] ==>
      && (forall r :: r in rs[1..] ==> Compatible(rs[0], r))
      && NoOverlap(rs[1..])
  }

  predicate TokensWellFormed(tokens: seq<Token>) {
    && (forall i, j :: 0 <= i < j < |tokens| ==> tokens[i].id != tokens[j].id && tokens[i].hash != tokens[j].hash)
    && (forall t :: t in tokens ==> t.id != "" && t.hash != "" && (t.managed ==> !IsSet(t.expiresAt)))
  }

  /** A revoked token has only revoked reservations, and none outlives its token. */
  predicate GrantFollowsToken(t: Token, r: Reservation) {
    t.hash == r.tokenHash ==>
      && (t.revoked ==> r.revoked)
      && (IsSet(t.expiresAt) ==> r.expiresAt <= t.expiresAt)
  }

  predicate GrantsFollowTokens(tokens: seq<Token>, rs: seq<Reservation>) {
    forall t, r :: t in tokens && r in rs ==> GrantFollowsToken(t, r)
  }

  predicate Inv(s: State) {
    && NoOverlap(s.reservations)
    && TokensWellFormed(s.tokens)
    && GrantsFollowTokens(s.tokens, s.reservations)
  }

  lemma {:induction false} NoOverlapPairs(rs: seq<Reservation>, i: nat, j: nat)
    requires NoOverlap(rs) && i < j < |rs|
    ensures Compatible(rs[i], rs[j])
  {
    if i == 0 {
      assert rs[j] == rs[1..][j - 1];
    } else {
      NoOverlapPairs(rs[1..], i - 1, j - 1);
    }
  }

  lemma {:induction false} NoOverlapConcat(xs: seq<Reservation>, ys: seq<Reservation>)
    requires NoOverlap(xs) && NoOverlap(ys)
    requires forall x, y :: x in xs && y in ys ==> Compatible(x, y)
    ensures NoOverlap(xs + ys)
  {
    if xs == [] {
      assert xs + ys == ys;
    } else {
      assert (xs + ys)[1..] == xs[1..] + ys;
      NoOverlapConcat(xs[1..], ys);
    }
  }

  lemma {:induction false} NoOverlapFilter(p: Reservation -> bool, rs: seq<Reservation>)
    requires NoOverlap(rs)
    ensures NoOverlap(Filter(p, rs))
  {
    if rs != [] {
      NoOverlapFilter(p, rs[1..]);
      if p(rs[0]) {
        assert Filter(p, rs)[1..] == Filter(p, rs[1..]);
      }
    }
  }

  /** `b` is `a` with its window and GPU kept and at most its liveness lost. */
  predicate Lowers(a: Reservation, b: Reservation) {
    && b.gpu == a.gpu && b.expiresAt == a.expiresAt
    && ReservationStartsAt(b) == ReservationStartsAt(a)
    && (ReservationLive(b) ==> ReservationLive(a))
  }

  lemma {:induction false} NoOverlapLowered(rs: seq<Reservation>, lowered: seq<Reservation>)
    requires NoOverlap(rs) && |lowered| == |rs|
    requires forall i :: 0 <= i < |rs| ==> Lowers(rs[i], lowered[i])
    ensures NoOverlap(lowered)
  {
    if rs != [] {
      forall r | r in lowered[1..] ensures Compatible(lowered[0], r) {
        var i :| 0 <= i < |lowered[1..]| && lowered[1..][i] == r;
        assert rs[1..][i] in rs[1..] && Lowers(rs[i + 1], lowered[i + 1]);
      }
      NoOverlapLowered(rs[1..], lowered[1..]);
    }
  }

  lemma {:induction false} DistinctGPUsDoNotOverlap(rs: seq<Reservation>)
    requires forall i, j :: 0 <= i < j < |rs| ==> rs[i].gpu != rs[j].gpu
    ensures NoOverlap(rs)
  {
    if rs != [] {
      DistinctGPUsDoNotOverlap(rs[1..]);
    }
  }

  /** Admission: rows for distinct GPUs that conflict with nothing can be added. */
  lemma AdmittedRowsFit(rs: seq<Reservation>, req: Request, token: Token, group: string, ids: nat -> string)
    requires NoOverlap(rs) && req.WellFormed()
    requires forall g :: g in req.gpus ==> !Conflict(rs, g, req.StartsAt(), req.expiresAt)
    ensures NoOverlap(rs + NewReservations(req, token, group, ids))
  {
    var added := NewReservations(req, token, group, ids);
    DistinctGPUsDoNotOverlap(added);
    forall x, y | x in rs && y in added ensures Compatible(x, y) {
      assert y.gpu in req.gpus && !Conflict(rs, y.gpu, req.StartsAt(), req.expiresAt);
      assert ReservationStartsAt(y) == req.StartsAt() && y.expiresAt == req.expiresAt;
    }
    NoOverlapConcat(rs, added);
  }

  lemma TokenInFrontWellFormed(t: Token, tokens: seq<Token>, rest: seq<Token>)
    requires TokensWellFormed([t] + tokens) && TokensWellFormed(rest) && forall u :: u in rest ==> u in tokens
    ensures TokensWellFormed([t] + rest)
  {
    var all := [t] + tokens;
    forall j | 0 <= j < |rest| ensures rest[j].id != t.id && rest[j].hash != t.hash {
      assert rest[j] in tokens;
      var k :| 0 <= k < |tokens| && tokens[k] == rest[j];
      assert all[0] == t && all[k + 1] == rest[j];
    }
  }

  lemma {:induction false} TokensWellFormedFilter(p: Token -> bool, tokens: seq<Token>)
    requires TokensWellFormed(tokens)
    ensures TokensWellFormed(Filter(p, tokens))
  {
    if tokens != [] {
      TokensWellFormedFilter(p, tokens[1..]);
      TokenInFrontWellFormed(tokens[0], tokens[1..], Filter(p, tokens[1..]));
    }
  }

  // ----- Each operation keeps the invariant -----

  lemma RegisterScheduledKeepsInv(s: State, req: Request, token: Token, ids: nat -> string)
    requires Inv(s) && Admissible(s, RegisterScheduledOp(req, token, ids))
    requires RegisterScheduled(s, req, token, ids).Write?
    ensures Inv(RegisterScheduled(s, req, token, ids).state)
  {
    AdmittedRowsFit(s.reservations, req, token, "", ids);
    TokenAddedKeepsWellFormed(s.tokens, token);
  }

  lemma TokenAddedKeepsWellFormed(tokens: seq<Token>, token: Token)
    requires TokensWellFormed(tokens) && token.id != "" && token.hash != "" && !token.managed
    requires forall u :: u in tokens ==> u.id != token.id && u.hash != token.hash
    ensures TokensWellFormed(tokens + [token])
  {
  }

  lemma RegisterManagedKeepsInv(s: State, key: string, req: Request, group: string, ids: nat -> string)
    requires Inv(s) && RegisterManaged(s, key, req, group, ids).Write?
    ensures Inv(RegisterManaged(s, key, req, group, ids).state)
  {
    var token := ManagedToken(s.tokens, TrimSpace(key))[0];
    assert token in ManagedToken(s.tokens, TrimSpace(key));
    ManagedGrantKeepsInv(s, token, req, group, ids);
  }

  lemma ManagedGrantKeepsInv(s: State, token: Token, req: Request, group: string, ids: nat -> string)
    requires Inv(s) && req.WellFormed() && token in s.tokens && !token.revoked && !IsSet(token.expiresAt)
    requires forall g :: g in req.gpus ==> !Conflict(s.reservations, g, req.StartsAt(), req.expiresAt)
    ensures Inv(s.(reservations := s.reservations + NewReservations(req, token, group, ids)))
  {
    AdmittedRowsFit(s.reservations, req, token, group, ids);
    SameHashSameToken(s.tokens);
  }

  lemma SameHashSameToken(tokens: seq<Token>)
    requires TokensWellFormed(tokens)
    ensures forall t, u :: t in tokens && u in tokens && t.hash == u.hash ==> t == u
    ensures forall t, u :: t in tokens && u in tokens && t.id == u.id ==> t == u
  {
  }

  lemma SyncKeepsInv(s: State, snap: Snapshot, groups: nat -> string, now: Time)
    requires Inv(s) && Sync(s, snap, groups, now).Write?
    ensures Inv(Sync(s, snap, groups, now).state)
  {
    var s' := Sync(s, snap, groups, now).state;
    if s'.reservations != s.reservations {
      forall i | 0 <= i < |s.reservations| ensures Lowers(s.reservations[i], s'.reservations[i]) {
        assert s'.reservations[i] == Rebind(s.reservations[i], snap.keys, TokensByHash(s.tokens), groups(i));
      }
      NoOverlapLowered(s.reservations, s'.reservations);
    }
  }

  function RevokeIf(t: Token, named: bool): Token {
    if named then t.(revoked := true) else t
  }

  /** The revoking loop ends on the hash it started from: it never drifts to another token. */
  lemma {:induction false} RevokeTokensKeepsHash(tokens: seq<Token>, id: string, hash: string)
    requires forall t :: t in tokens && TokenNamed(t, id, hash) ==> t.hash == hash
    ensures RevokeTokens(tokens, id, hash).1 == hash
    ensures forall i :: 0 <= i < |tokens| ==>
              RevokeTokens(tokens, id, hash).0[i] == RevokeIf(tokens[i], TokenNamed(tokens[i], id, hash))
  {
    if tokens != [] {
      RevokeTokensKeepsHash(tokens[1..], id, hash);
    }
  }

  lemma {:induction false} NamedTokenHashIsUnique(tokens: seq<Token>, id: string, secretHash: string)
    requires TokensWellFormed(tokens)
    requires secretHash != "" ==> forall t :: t in tokens ==> t.id != id
    ensures forall t :: t in tokens && t.id == id ==> t.hash == NamedTokenHash(tokens, id, secretHash)
    ensures secretHash != "" ==> NamedTokenHash(tokens, id, secretHash) == secretHash
  {
    if tokens != [] {
      NamedTokenHashIsUnique(tokens[1..], id, secretHash);
    }
  }

  lemma ResolvedHashNamesOneToken(s: State, id: string, secretHash: string)
    requires Inv(s) && Admissible(s, RevokeOp(id, secretHash, 0))
    ensures var h := ResolveRevokedHash(s, id, secretHash);
            forall t :: t in s.tokens && TokenNamed(t, id, h) ==> t.hash == h
  {
    NamedTokenHashIsUnique(s.tokens, id, secretHash);
  }

  lemma RevokeKeepsInv(s: State, id: string, secretHash: string, now: Time)
    requires Inv(s) && Admissible(s, RevokeOp(id, secretHash, now)) && Revoke(s, id, secretHash, now).Write?
    ensures Inv(Revoke(s, id, secretHash, now).state)
  {
    hide Inv, ManagedGroup, ManagedHashes, ResolveRevokedHash, RevokeGroup, RevokeGrant;
    var group := ManagedGroup(s.reservations, ManagedHashes(s), id);
    if group == "" {
      RevokeGrantKeepsInv(s, id, secretHash, now);
    } else {
      RevokeGroupKeepsInv(s, group);
    }
  }

  lemma RevokeGroupKeepsInv(s: State, group: string)
    requires Inv(s) && RevokeGroup(s, group).Write?
    ensures Inv(RevokeGroup(s, group).state)
  {
    hide NoOverlap, GrantsFollowTokens, TokensWellFormed, GroupOf;
    var s' := RevokeGroup(s, group).state;
    NoOverlapLowered(s.reservations, s'.reservations);
    GrantsFollowLowered(s.tokens, s.reservations, s'.reservations);
  }

  lemma RevokeGrantKeepsInv(s: State, id: string, secretHash: string, now: Time)
    requires var hash := ResolveRevokedHash(s, id, secretHash);
             && Inv(s) && Admissible(s, RevokeOp(id, secretHash, now)) && RevokeGrant(s, id, hash, now).Write?
    ensures Inv(RevokeGrant(s, id, ResolveRevokedHash(s, id, secretHash), now).state)
  {
    hide NoOverlap, GrantsFollowTokens, TokensWellFormed, ResolveRevokedHash, Touched;
    var hash := ResolveRevokedHash(s, id, secretHash);
    var s' := RevokeGrant(s, id, hash, now).state;
    NoOverlapLowered(s.reservations, s'.reservations);
    ResolvedHashNamesOneToken(s, id, secretHash);
    RevokeTokensKeepsHash(s.tokens, id, hash);
    RevokedGrantsFollow(s, s', id, hash);
  }

  lemma RevokedGrantsFollow(s: State, s': State, id: string, hash: string)
    requires Inv(s) && |s'.tokens| == |s.tokens| && |s'.reservations| == |s.reservations|
    requires forall t :: t in s.tokens && TokenNamed(t, id, hash) ==> t.hash == hash
    requires forall i :: 0 <= i < |s.tokens| ==>
               s'.tokens[i] == RevokeIf(s.tokens[i], TokenNamed(s.tokens[i], id, hash))
    requires forall i :: 0 <= i < |s.reservations| ==>
               var r := s.reservations[i];
               s'.reservations[i] ==
               if r.id == id || (hash != "" && r.tokenHash == hash) then r.(revoked := true) else r
    ensures TokensWellFormed(s'.tokens) && GrantsFollowTokens(s'.tokens, s'.reservations)
  {
    forall t, r | t in s'.tokens && r in s'.reservations ensures GrantFollowsToken(t, r) {
      var i :| 0 <= i < |s.tokens| && s'.tokens[i] == t;
      var j :| 0 <= j < |s.reservations| && s'.reservations[j] == r;
      assert s.tokens[i] in s.tokens && s.reservations[j] in s.reservations;
      assert GrantFollowsToken(s.tokens[i], s.reservations[j]);
    }
  }

  /** Reservations may be revoked or released at will without breaking the token relation. */
  lemma GrantsFollowLowered(tokens: seq<Token>, rs: seq<Reservation>, lowered: seq<Reservation>)
    requires GrantsFollowTokens(tokens, rs) && |lowered| == |rs|
    requires forall i :: 0 <= i < |rs| ==>
               && lowered[i].tokenHash == rs[i].tokenHash && lowered[i].expiresAt == rs[i].expiresAt
               && (rs[i].revoked ==> lowered[i].revoked)
    ensures GrantsFollowTokens(tokens, lowered)
  {
    forall t, r | t in tokens && r in lowered ensures GrantFollowsToken(t, r) {
      var i :| 0 <= i < |rs| && lowered[i] == r;
      assert rs[i] in rs && GrantFollowsToken(t, rs[i]);
    }
  }

  lemma ReleaseScopesKeepsInv(s: State, rs: set<string>, auths: set<string>, ls: set<string>)
    requires Inv(s) && ReleaseScopes(s, rs, auths, ls).Write?
    ensures Inv(ReleaseScopes(s, rs, auths, ls).state)
  {
    var s' := ReleaseScopes(s, rs, auths, ls).state;
    NoOverlapLowered(s.reservations, s'.reservations);
    GrantsFollowLowered(s.tokens, s.reservations, s'.reservations);
  }

  /** Dropping rows, as every prune does, keeps the invariant. */
  lemma FilteredKeepsInv(s: State, p: Token -> bool, q: Reservation -> bool)
    requires Inv(s)
    ensures Inv(s.(tokens := Filter(p, s.tokens), reservations := Filter(q, s.reservations)))
  {
    NoOverlapFilter(q, s.reservations);
    TokensWellFormedFilter(p, s.tokens);
  }

  lemma PruneKeepsInv(s: State, now: Time)
    requires Inv(s)
    ensures Inv(PrunedState(s, now))
  {
    var dead := DeadHashes(s, now);
    var live := LiveHashes(s.reservations, now);
    FilteredKeepsInv(s, (t: Token) => !TokenDead(t, live, now),
                     (r: Reservation) => ReservationLive(r) && now < r.expiresAt && r.tokenHash !in dead);
  }

  lemma PruneUnreferencedKeepsInv(s: State, now: Time)
    requires Inv(s) && PruneUnreferenced(s, now).Write?
    ensures Inv(PruneUnreferenced(s, now).state)
  {
    var needed := Referenced(s);
    var index := TokensByHash(s.tokens);
    FilteredKeepsInv(s, (t: Token) => HashValid(index, t.hash, now) || t.hash in needed,
                     (r: Reservation) => (ReservationLive(r) && now < r.expiresAt) || r.tokenHash in needed);
  }

  lemma TokenAddedKeepsInv(s: State, token: Token)
    requires Inv(s) && FreshToken(s, token)
    ensures Inv(s.(tokens := s.tokens + [token]))
  {
    hide NoOverlap;
    TokenAddedKeepsWellFormed(s.tokens, token);
  }

  lemma StepKeepsInv(s: State, op: Op, committed: bool)
    requires Inv(s) && Admissible(s, op)
    ensures Inv(Apply(s, op, committed))
  {
    hide NoOverlap, TokensWellFormed, GrantsFollowTokens, RegisterScheduled, RegisterManaged, Sync, Revoke;
    hide ReleaseScopes, PrunedState, DeadHashes, PruneUnreferenced, TokenCapacity, CountWhere, IndexWhere, ClaimIndex;
    hide FreshToken;
    if Perform(s, op).Write? {
      match op
      case RegisterScheduledOp(req, token, ids) => RegisterScheduledKeepsInv(s, req, token, ids);
      case RegisterManagedOp(key, req, group, ids) => RegisterManagedKeepsInv(s, key, req, group, ids);
      case RegisterTokenOp(token, now) => TokenAddedKeepsInv(s, token);
      case SyncOp(snap, groups, now) => SyncKeepsInv(s, snap, groups, now);
      case RevokeOp(id, secretHash, now) => RevokeKeepsInv(s, id, secretHash, now);
      case ReleaseScopesOp(rs, auths, ls) => ReleaseScopesKeepsInv(s, rs, auths, ls);
      case PruneOp(now) => PruneKeepsInv(s, now);
      case PruneUnreferencedOp(now) => PruneUnreferencedKeepsInv(s, now);
      case _ =>
    }
  }

  lemma {:induction false} RunKeepsInv(s: State, steps: seq<Step>)
    requires Inv(s) && AdmissibleRun(s, steps)
    ensures Inv(Run(s, steps))
    decreases |steps|
  {
    if steps != [] {
      StepKeepsInv(s, steps[0].op, steps[0].committed);
      RunKeepsInv(Apply(s, steps[0].op, steps[0].committed), steps[1..]);
    }
  }

  /** In every reachable state, live reservations on one GPU have disjoint half-open windows. */
  lemma ReservationsNeverOverlap(steps: seq<Step>, i: nat, j: nat)
    requires AdmissibleRun(EMPTY_STATE, steps)
    requires i < j < |Run(EMPTY_STATE, steps).reservations|
    ensures var rs := Run(EMPTY_STATE, steps).reservations;
            rs[i].gpu == rs[j].gpu && ReservationLive(rs[i]) && ReservationLive(rs[j]) ==>
              !ReservationOverlaps(rs[i], ReservationStartsAt(rs[j]), rs[j].expiresAt)
  {
    RunKeepsInv(EMPTY_STATE, steps);
    NoOverlapPairs(Run(EMPTY_STATE, steps).reservations, i, j);
  }

  /** Hence at any instant at most one reservation of a GPU is active. */
  lemma OneActiveReservationPerGPU(s: State, a: Reservation, b: Reservation, now: Time)
    requires Inv(s) && a in s.reservations && b in s.reservations && a.gpu == b.gpu
    requires ReservationActiveAt(a, now) && ReservationActiveAt(b, now)
    ensures a == b
  {
    var i :| 0 <= i < |s.reservations| && s.reservations[i] == a;
    var j :| 0 <= j < |s.reservations| && s.reservations[j] == b;
    if i < j {
      NoOverlapPairs(s.reservations, i, j);
    } else if j < i {
      NoOverlapPairs(s.reservations, j, i);
    }
  }

  // ----- A live reservation survives everything but its own end -----

  /** The reservation without the two fields that a key sync may rewrite. */
  function Grant(r: Reservation): Reservation { r.(groupID := "", tokenHash := "") }

  predicate Grants(s: State, r: Reservation) {
    exists q :: q in s.reservations && Grant(q) == Grant(r)
  }

  /** The operation does not revoke or release the row of `r`, and does not prune at or after its end. */
  predicate Spares(s: State, op: Op, r: Reservation) {
    match op
    case RevokeOp(id, secretHash, _) =>
      forall q :: q in s.reservations && Grant(q) == Grant(r) ==> !RevokeHits(s, id, secretHash, q)
    case ReleaseScopesOp(ids, _, _) => r.id !in ids
    case PruneOp(now) => now < r.expiresAt
    case PruneUnreferencedOp(now) => now < r.expiresAt
    case _ => true
  }

  predicate SparesThroughout(s: State, steps: seq<Step>, r: Reservation)
    decreases |steps|
  {
    steps == [] ||
    (Spares(s, steps[0].op, r) && SparesThroughout(Apply(s, steps[0].op, steps[0].committed), steps[1..], r))
  }

  lemma PruneKeepsLiveReservation(s: State, now: Time, r: Reservation)
    requires Inv(s) && r in s.reservations && ReservationLive(r) && now < r.expiresAt
    ensures r in PrunedState(s, now).reservations
  {
    var live := LiveHashes(s.reservations, now);
    forall t | t in s.tokens && t.hash == r.tokenHash ensures !TokenDead(t, live, now) {
      assert GrantFollowsToken(t, r);
      assert r.tokenHash in live;
    }
  }

  /** Registrations and scope bookkeeping never touch an existing reservation row. */
  lemma OtherOpsOnlyAppendReservations(s: State, op: Op)
    requires !op.SyncOp? && !op.RevokeOp? && !op.ReleaseScopesOp? && !op.PruneOp? && !op.PruneUnreferencedOp?
    requires Perform(s, op).Write?
    ensures s.reservations <= Perform(s, op).state.reservations
  {
    hide SameReservationRequest, Conflict, NewReservations, ManagedToken, TokenCapacity, SessionUsed, SessionRows;
    hide Request.WellFormed, CountWhere, IndexWhere, Placed, Stamped, Filter;
  }

  lemma SyncKeepsGrant(s: State, snap: Snapshot, groups: nat -> string, now: Time, i: nat)
    requires Sync(s, snap, groups, now).Write? && i < |s.reservations|
    ensures var rows := Sync(s, snap, groups, now).state.reservations;
            |rows| == |s.reservations| && Grant(rows[i]) == Grant(s.reservations[i])
  {
    var rows := Sync(s, snap, groups, now).state.reservations;
    assert rows[i] == s.reservations[i] ||
           rows[i] == Rebind(s.reservations[i], snap.keys, TokensByHash(s.tokens), groups(i));
  }

  lemma RevokeKeepsOthers(s: State, id: string, secretHash: string, now: Time, i: nat)
    requires Revoke(s, id, secretHash, now).Write? && i < |s.reservations|
    requires !RevokeHits(s, id, secretHash, s.reservations[i])
    ensures var rows := Revoke(s, id, secretHash, now).state.reservations;
            i < |rows| && rows[i] == s.reservations[i]
  {
  }

  lemma ReleaseKeepsOthers(s: State, ids: set<string>, auths: set<string>, ls: set<string>, i: nat)
    requires ReleaseScopes(s, ids, auths, ls).Write? && i < |s.reservations| && s.reservations[i].id !in ids
    ensures var rows := ReleaseScopes(s, ids, auths, ls).state.reservations; i < |rows| && rows[i] == s.reservations[i]
  {
  }

  lemma PruneUnreferencedKeepsUnended(s: State, now: Time, r: Reservation)
    requires PruneUnreferenced(s, now).Write? && r in s.reservations && ReservationLive(r) && now < r.expiresAt
    ensures r in PruneUnreferenced(s, now).state.reservations
  {
    hide Referenced, HashValid, TokensByHash;
  }

  /** The row that stands for `r` is still there after one operation that spares it. */
  lemma OperationKeepsRow(s: State, op: Op, r: Reservation, i: nat)
    requires Inv(s) && i < |s.reservations| && Grant(s.reservations[i]) == Grant(r)
    requires ReservationLive(r) && Spares(s, op, r) && Perform(s, op).Write?
    ensures Grants(Perform(s, op).state, r)
  {
    hide NoOverlap, TokensWellFormed, GrantFollowsToken, RevokeHits, Revoke, Sync, DeadHashes, LiveHashes, Referenced;
    hide RegisterScheduled, RegisterManaged, RegisterToken, AddAuthorization, ActivateAuthorization;
    hide ReleaseAuthorization;
    hide UpsertSoftClaim, ReleaseSoftClaim, AddBypass, TokensByHash, HashValid, ReleaseScopes, PruneUnreferenced;
    var q, rows := s.reservations[i], Perform(s, op).state.reservations;
    match op {
      case SyncOp(snap, groups, now) =>
        SyncKeepsGrant(s, snap, groups, now, i);
        assert Grant(rows[i]) == Grant(r);
      case RevokeOp(id, secretHash, now) =>
        RevokeKeepsOthers(s, id, secretHash, now, i);
        assert rows[i] == q;
      case ReleaseScopesOp(ids, auths, ls) =>
        ReleaseKeepsOthers(s, ids, auths, ls, i);
        assert rows[i] == q;
      case PruneOp(now) => PruneKeepsLiveReservation(s, now, q);
      case PruneUnreferencedOp(now) => PruneUnreferencedKeepsUnended(s, now, q);
      case _ =>
        OtherOpsOnlyAppendReservations(s, op);
        assert rows[i] == q;
    }
  }

  lemma StepKeepsLiveReservation(s: State, op: Op, committed: bool, r: Reservation)
    requires Inv(s) && Grants(s, r) && ReservationLive(r) && Spares(s, op, r)
    ensures Grants(Apply(s, op, committed), r)
  {
    hide Inv, Spares, Perform;
    var q :| q in s.reservations && Grant(q) == Grant(r);
    var i :| 0 <= i < |s.reservations| && s.reservations[i] == q;
    if Perform(s, op).Write? && committed {
      OperationKeepsRow(s, op, r, i);
    }
  }

  /**
   From any reachable state, no sequence of syncs, prunes, registrations, revocations of other
   grants or other operations removes or re-dates a live reservation before it expires.
   */
  lemma {:induction false} RunKeepsLiveReservation(s: State, steps: seq<Step>, r: Reservation)
    requires Inv(s) && AdmissibleRun(s, steps)
    requires Grants(s, r) && ReservationLive(r) && SparesThroughout(s, steps, r)
    ensures Grants(Run(s, steps), r)
    decreases |steps|
  {
    if steps != [] {
      StepKeepsInv(s, steps[0].op, steps[0].committed);
      StepKeepsLiveReservation(s, steps[0].op, steps[0].committed, r);
      RunKeepsLiveReservation(Apply(s, steps[0].op, steps[0].committed), steps[1..], r);
    }
  }
}
