/**
 Why pruning never outruns stale-scope eviction: an unrevoked reserved token always has a
 reservation behind it until it expires, so a scope whose cleanup found nothing wrong is not
 pruned either.
 */
module Retention {
  import opened Model
  import opened Sequences
  import opened StoreOps
  import opened StoreRuns
  import opened Naming

  /** `r` is a live reservation that ends with its token. */
  predicate Backs(r: Reservation, t: Token) {
    r.tokenHash == t.hash && ReservationLive(r) && r.expiresAt == t.expiresAt
  }

  predicate Backed(rs: seq<Reservation>, t: Token, clock: Time) {
    t.mode.Reserved? && !t.revoked ==>
      IsSet(t.expiresAt) && (t.expiresAt <= clock || exists r :: r in rs && Backs(r, t))
  }

  predicate AllBacked(s: State, clock: Time) {
    forall t :: t in s.tokens ==> Backed(s.reservations, t, clock)
  }

  // ----- Every operation keeps reserved tokens backed -----

  lemma LaterStillBacked(s: State, clock: Time, clock': Time)
    requires AllBacked(s, clock) && clock <= clock'
    ensures AllBacked(s, clock')
  {
  }

  lemma {:induction false} ManagedGroupHasMember(rs: seq<Reservation>, managed: set<string>, id: string)
    requires ManagedGroup(rs, managed, id) != ""
    ensures exists q :: q in rs && q.tokenHash in managed && GroupOf(q) == ManagedGroup(rs, managed, id)
  {
    if !(rs[0].tokenHash in managed && (rs[0].id == id || GroupOf(rs[0]) == id)) {
      ManagedGroupHasMember(rs[1..], managed, id);
    }
  }

  lemma {:induction false} NamedReservationHashOf(rs: seq<Reservation>, r: Reservation)
    requires r in rs && forall q :: q in rs && q.id == r.id ==> q == r
    ensures NamedReservationHash(rs, r.id) == r.tokenHash
  {
    if rs[0].id != r.id {
      NamedReservationHashOf(rs[1..], r);
    }
  }

  lemma {:induction false} NothingNamed(tokens: seq<Token>, id: string)
    requires forall t :: t in tokens ==> t.id != id
    ensures NamedTokenHash(tokens, id, "") == ""
  {
    if tokens != [] {
      NothingNamed(tokens[1..], id);
    }
  }

  /** A revocation that marks a reserved token's reservation marks the token. */
  lemma RevokeMarksToken(s: State, id: string, secretHash: string, t: Token, r: Reservation)
    requires Inv(s) && Named(s)
    requires Admissible(s, RevokeOp(id, secretHash, 0)) && WellNamed(s, RevokeOp(id, secretHash, 0))
    requires t in s.tokens && r in s.reservations && r.tokenHash == t.hash && IsSet(t.expiresAt)
    requires RevokeHits(s, id, secretHash, r)
    ensures ManagedGroup(s.reservations, ManagedHashes(s), id) == ""
    ensures TokenNamed(t, id, ResolveRevokedHash(s, id, secretHash))
  {
    hide NoOverlap, GrantsFollowTokens, AllGrouped, Distinct;
    NotInManagedGroup(s, id, secretHash, t, r);
    ResolvedHashNamesOneToken(s, id, secretHash);
    RevokeTokensKeepsHash(s.tokens, id, ResolveRevokedHash(s, id, secretHash));
    if r.id == id {
      assert forall u :: u in s.tokens ==> Apart(u, r);
      NothingNamed(s.tokens, id);
      OneRowOfID(s, r);
      NamedReservationHashOf(s.reservations, r);
    }
  }

  lemma OneRowOfID(s: State, r: Reservation)
    requires UniqueIDs(s) && r in s.reservations
    ensures forall q :: q in s.reservations && q.id == r.id ==> q == r
  {
    forall q | q in s.reservations && q.id == r.id ensures q == r {
      OneRow(ReservationID(), s.reservations, q, r);
    }
  }

  /** Revoking a managed group does not reach the reservations of a token that expires. */
  lemma NotInManagedGroup(s: State, id: string, secretHash: string, t: Token, r: Reservation)
    requires Inv(s) && Named(s) && t in s.tokens && r in s.reservations && r.tokenHash == t.hash && IsSet(t.expiresAt)
    requires RevokeHits(s, id, secretHash, r)
    ensures ManagedGroup(s.reservations, ManagedHashes(s), id) == ""
  {
    hide NoOverlap, GrantsFollowTokens, Named;
    UniqueHash(s.tokens, t);
    if ManagedGroup(s.reservations, ManagedHashes(s), id) != "" {
      ManagedGroupHasMember(s.reservations, ManagedHashes(s), id);
      var q :| q in s.reservations && q.tokenHash in ManagedHashes(s) && GroupOf(q) == GroupOf(r);
      GroupsAreHomogeneous(s, q, r);
    }
  }

  lemma UniqueHash(tokens: seq<Token>, t: Token)
    requires TokensWellFormed(tokens) && t in tokens
    ensures forall u :: u in tokens && u.hash == t.hash ==> u == t
  {
    var i :| 0 <= i < |tokens| && tokens[i] == t;
    forall u | u in tokens && u.hash == t.hash ensures u == t {
      var j :| 0 <= j < |tokens| && tokens[j] == u;
    }
  }

  /** The operations that clients trigger; those of the enforcement passes are below. */
  predicate ClientOp(s: State, op: Op) {
    match op
    case ReleaseAuthorizationOp(id) => forall a :: a in s.authorizations && a.id == id ==> a.mode.Bare?
    case ReleaseScopesOp(_, _, _) => false
    case PruneOp(_) => false
    case PruneInactiveManagedScopesOp(_, _) => false
    case PruneUnreferencedOp(_) => false
    case _ => true
  }

  /** A token keeps its backing when its reservations stay. */
  lemma BackedByMore(rs: seq<Reservation>, rs': seq<Reservation>, t: Token, clock: Time)
    requires Backed(rs, t, clock) && forall r :: r in rs && Backs(r, t) ==> r in rs'
    ensures Backed(rs', t, clock)
  {
  }

  lemma RegisterScheduledKeepsBacked(s: State, req: Request, token: Token, ids: nat -> string, clock: Time)
    requires AllBacked(s, clock) && Admissible(s, RegisterScheduledOp(req, token, ids))
    requires RegisterScheduled(s, req, token, ids).Write? && 0 <= req.now
    ensures AllBacked(RegisterScheduled(s, req, token, ids).state, clock)
  {
    hide Backed;
    var s' := RegisterScheduled(s, req, token, ids).state;
    NewTokenIsBacked(s.reservations, req, token, ids, clock);
    forall t | t in s'.tokens ensures Backed(s'.reservations, t, clock) {
      if t in s.tokens {
        BackedByMore(s.reservations, s'.reservations, t, clock);
      }
    }
  }

  lemma NewTokenIsBacked(rs: seq<Reservation>, req: Request, token: Token, ids: nat -> string, clock: Time)
    requires req.WellFormed() && 0 <= req.now && token.expiresAt == req.expiresAt
    ensures Backed(rs + NewReservations(req, token, "", ids), token, clock)
  {
    var rows := NewReservations(req, token, "", ids);
    assert rows[0] in rs + rows && Backs(rows[0], token);
  }

  lemma RevokeKeepsBacked(s: State, id: string, secretHash: string, now: Time, clock: Time)
    requires Inv(s) && Named(s) && AllBacked(s, clock) && Revoke(s, id, secretHash, now).Write?
    requires Admissible(s, RevokeOp(id, secretHash, now)) && WellNamed(s, RevokeOp(id, secretHash, now))
    ensures AllBacked(Revoke(s, id, secretHash, now).state, clock)
  {
    hide Inv, Named, RevokeHits, Revoke, TokenNamed;
    var s' := Revoke(s, id, secretHash, now).state;
    forall i | 0 <= i < |s'.tokens| ensures Backed(s'.reservations, s'.tokens[i], clock) {
      RevokedToken(s, id, secretHash, now, i);
      var t := s.tokens[i];
      assert Backed(s.reservations, t, clock);
      if t.mode.Reserved? && !s'.tokens[i].revoked && clock < t.expiresAt {
        var r :| r in s.reservations && Backs(r, t);
        var j :| 0 <= j < |s.reservations| && s.reservations[j] == r;
        if RevokeHits(s, id, secretHash, r) {
          RevokeMarksToken(s, id, secretHash, t, r);
        } else {
          RevokeKeepsOthers(s, id, secretHash, now, j);
        }
      }
    }
  }

  lemma RevokedToken(s: State, id: string, secretHash: string, now: Time, i: nat)
    requires Inv(s) && Admissible(s, RevokeOp(id, secretHash, now)) && Revoke(s, id, secretHash, now).Write?
    requires i < |Revoke(s, id, secretHash, now).state.tokens|
    ensures var s' := Revoke(s, id, secretHash, now).state;
            && |s'.tokens| == |s.tokens|
            && var t, t' := s.tokens[i], s'.tokens[i];
               && t'.(revoked := t.revoked) == t
               && (ManagedGroup(s.reservations, ManagedHashes(s), id) == "" ==>
                     TokenNamed(t, id, ResolveRevokedHash(s, id, secretHash)) ==> t'.revoked)
               && (t.revoked ==> t'.revoked)
  {
    hide Inv;
    var hash := ResolveRevokedHash(s, id, secretHash);
    ResolvedHashNamesOneToken(s, id, secretHash);
    RevokeTokensKeepsHash(s.tokens, id, hash);
  }

  lemma ClaimedTokenKeepsBacked(s: State, token: Token, clock: Time)
    requires AllBacked(s, clock) && !token.mode.Reserved?
    ensures AllBacked(s.(tokens := s.tokens + [token]), clock)
  {
  }

  /** No client operation leaves a reserved token without its reservation. */
  lemma ClientOpKeepsBacked(s: State, op: Op, committed: bool, clock: Time)
    requires Inv(s) && Named(s) && AllBacked(s, clock) && Admissible(s, op) && WellNamed(s, op) && ClientOp(s, op)
    requires op.RegisterScheduledOp? ==> 0 <= op.req.now
    ensures AllBacked(Apply(s, op, committed), clock)
  {
    hide RegisterScheduled, Sync, Revoke, Inv, Named, Backed, WellNamed, FreshToken;
    if Perform(s, op).Write? && committed {
      match op {
        case RegisterScheduledOp(req, token, ids) => RegisterScheduledKeepsBacked(s, req, token, ids, clock);
        case RevokeOp(id, secretHash, now) => RevokeKeepsBacked(s, id, secretHash, now, clock);
        case SyncOp(snap, groups, now) => SyncKeepsBacked(s, snap, groups, now, clock);
        case RegisterManagedOp(key, req, group, ids) => RowsAddedKeepBacked(s, Perform(s, op).state, clock);
        case RegisterTokenOp(token, now) => ClaimedTokenKeepsBacked(s, token, clock);
        case _ =>
      }
    }
  }

  lemma SyncKeepsBacked(s: State, snap: Snapshot, groups: nat -> string, now: Time, clock: Time)
    requires AllBacked(s, clock) && Sync(s, snap, groups, now).Write?
    ensures AllBacked(Sync(s, snap, groups, now).state, clock)
  {
    var s' := Sync(s, snap, groups, now).state;
    if s'.tokens != s.tokens {
      assert forall t :: t in s'.tokens ==> t.mode.Managed?;
    }
  }

  lemma RowsAddedKeepBacked(s: State, s': State, clock: Time)
    requires AllBacked(s, clock) && s'.tokens == s.tokens && s.reservations <= s'.reservations
    ensures AllBacked(s', clock)
  {
    forall t | t in s'.tokens ensures Backed(s'.reservations, t, clock) {
      assert Backed(s.reservations, t, clock);
      BackedByMore(s.reservations, s'.reservations, t, clock);
    }
  }

  // ----- Cleanup and pruning at the end of a pass -----

  predicate TokenValid(tokens: map<string, Token>, hash: string, now: Time) {
    hash == "" || (hash in tokens && TokenActiveAt(tokens[hash], now))
  }

  /** The grant behind an active authorization has ended: cleanup must deal with it. */
  predicate Ended(tokens: map<string, Token>, a: Authorization, now: Time) {
    a.active && (a.revoked || AuthorizationExpired(a, now) || !TokenValid(tokens, a.tokenHash, now))
  }

  predicate LeaseEnded(tokens: map<string, Token>, l: Lease, now: Time) {
    l.active && (l.expiresAt <= now || !TokenValid(tokens, l.tokenHash, now))
  }

  predicate ReservationEnded(r: Reservation, now: Time) { r.active && (r.revoked || r.expiresAt <= now) }

  /** The identifiers of the reservations that cleanup releases. */
  function EndedReservations(s: State, now: Time): set<string> {
    set r | r in s.reservations && ReservationEnded(r, now) :: r.id
  }

  /** Releasing ended reservations leaves each unexpired reserved token its backing. */
  lemma CleanupKeepsBacked(s: State, now: Time, clock: Time)
    requires AllBacked(s, clock) && UniqueIDs(s) && clock <= now
    requires ReleaseScopes(s, EndedReservations(s, now), {}, {}).Write?
    ensures AllBacked(ReleaseScopes(s, EndedReservations(s, now), {}, {}).state, now)
  {
    var s' := ReleaseScopes(s, EndedReservations(s, now), {}, {}).state;
    forall t | t in s'.tokens ensures Backed(s'.reservations, t, now) {
      BackingSurvives(s, t, now, clock);
    }
  }

  lemma BackingSurvives(s: State, t: Token, now: Time, clock: Time)
    requires Backed(s.reservations, t, clock) && UniqueIDs(s) && clock <= now
    requires ReleaseScopes(s, EndedReservations(s, now), {}, {}).Write?
    ensures Backed(ReleaseScopes(s, EndedReservations(s, now), {}, {}).state.reservations, t, now)
  {
    var s' := ReleaseScopes(s, EndedReservations(s, now), {}, {}).state;
    if t.mode.Reserved? && !t.revoked && now < t.expiresAt {
      var r :| r in s.reservations && Backs(r, t);
      var i :| 0 <= i < |s.reservations| && s.reservations[i] == r;
      OneRowOfID(s, r);
      assert r.id !in EndedReservations(s, now);
      assert s'.reservations[i] == r;
    }
  }

  lemma OtherReleasesKeepBacked(s: State, auths: set<string>, ls: set<string>, clock: Time)
    requires AllBacked(s, clock) && ReleaseScopes(s, {}, auths, ls).Write?
    ensures AllBacked(ReleaseScopes(s, {}, auths, ls).state, clock)
  {
    var s' := ReleaseScopes(s, {}, auths, ls).state;
    assert s'.reservations == s.reservations;
  }

  lemma PruneKeepsBacked(s: State, now: Time, clock: Time)
    requires Inv(s) && AllBacked(s, clock) && now <= clock
    ensures AllBacked(PrunedState(s, now), clock)
  {
    hide NoOverlap, GrantsFollowTokens;
    var s' := PrunedState(s, now);
    forall t | t in s'.tokens ensures Backed(s'.reservations, t, clock) {
      if t.mode.Reserved? && !t.revoked && clock < t.expiresAt {
        UniqueHash(s.tokens, t);
        BackedByMore(s.reservations, s'.reservations, t, clock);
      }
    }
  }

  lemma OutagePruneKeepsBacked(s: State, now: Time, clock: Time)
    requires AllBacked(s, clock) && now <= clock && PruneUnreferenced(s, now).Write?
    ensures AllBacked(PruneUnreferenced(s, now).state, clock)
  {
    hide HashValid, Referenced;
    var s' := PruneUnreferenced(s, now).state;
    forall t | t in s'.tokens ensures Backed(s'.reservations, t, clock) {
      if t.mode.Reserved? && !t.revoked && clock < t.expiresAt {
        BackedByMore(s.reservations, s'.reservations, t, clock);
      }
    }
  }

  /**
   Pruning at an instant no later than the cleanup that passed over the authorization keeps it:
   neither its own end nor the death of its token is old enough.
   */
  lemma PruneRetains(s: State, a: Authorization, now: Time, cleanupAt: Time, clock: Time)
    requires Inv(s) && AllBacked(s, clock) && now <= clock <= cleanupAt
    requires a in s.authorizations && a.active && !Ended(TokensByHash(s.tokens), a, cleanupAt)
    ensures a in PrunedState(s, now).authorizations
  {
    hide NoOverlap, GrantsFollowTokens, TokensWellFormed;
    forall t | t in s.tokens && t.hash == a.tokenHash && t.hash != ""
      ensures !TokenDead(t, LiveHashes(s.reservations, now), now) {
      UniqueHash(s.tokens, t);
      assert Backed(s.reservations, t, clock);
    }
  }

  /** The same for leases. */
  lemma PruneRetainsLease(s: State, l: Lease, now: Time, cleanupAt: Time, clock: Time)
    requires Inv(s) && AllBacked(s, clock) && now <= clock <= cleanupAt
    requires l in s.leases && l.active && !LeaseEnded(TokensByHash(s.tokens), l, cleanupAt)
    ensures l in PrunedState(s, now).leases
  {
    hide NoOverlap, GrantsFollowTokens, TokensWellFormed;
    forall t | t in s.tokens && t.hash == l.tokenHash && t.hash != ""
      ensures !TokenDead(t, LiveHashes(s.reservations, now), now) {
      UniqueHash(s.tokens, t);
      assert Backed(s.reservations, t, clock);
    }
  }
}
