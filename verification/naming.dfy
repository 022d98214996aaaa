/**
 What the random identifiers of rows amount to over whole runs: an identifier names one row, and
 the rows of one group belong to one owner under one token.
 */
module Naming {
  import opened Model
  import opened Sequences
  import opened StoreOps
  import opened StoreRuns
  import Text

  predicate Distinct<T>(id: T -> string, s: seq<T>) {
    forall i, j :: 0 <= i < j < |s| ==> id(s[i]) != id(s[j])
  }

  function ReservationID(): Reservation -> string { (r: Reservation) => r.id }

  function AuthorizationID(): Authorization -> string { (a: Authorization) => a.id }

  function LeaseID(): Lease -> string { (l: Lease) => l.id }

  predicate SameHolder(r: Reservation, q: Reservation) { NormalizeHolder(r.holder) == NormalizeHolder(q.holder) }

  /** Rows of one group have one owner and one token; so have rows of one token before they get a group. */
  predicate Grouped(r: Reservation, q: Reservation) {
    && (r.groupID != "" && r.groupID == q.groupID ==> SameHolder(r, q) && r.tokenHash == q.tokenHash)
    && (r.groupID == "" && q.groupID == "" && r.tokenHash == q.tokenHash ==> SameHolder(r, q))
    && (r.groupID != "" ==> r.groupID != q.id)
  }

  /** No token shares its name with a reservation or a group, and rows without a group are not under a managed token. */
  predicate Apart(t: Token, r: Reservation) {
    t.id != r.id && (if r.groupID == "" then t.hash == r.tokenHash ==> !t.managed else t.id != r.groupID)
  }

  predicate AllGrouped(rs: seq<Reservation>) { forall r, q :: r in rs && q in rs ==> Grouped(r, q) }

  predicate AllApart(tokens: seq<Token>, rs: seq<Reservation>) { forall t, r :: t in tokens && r in rs ==> Apart(t, r) }

  predicate UniqueIDs(s: State) {
    && Distinct(ReservationID(), s.reservations)
    && Distinct(AuthorizationID(), s.authorizations)
    && Distinct(LeaseID(), s.leases)
  }

  predicate Named(s: State) {
    UniqueIDs(s) && AllGrouped(s.reservations) && AllApart(s.tokens, s.reservations)
  }

  /** A name that nothing in the state carries. */
  predicate NewName(s: State, name: string) {
    && name != ""
    && (forall t :: t in s.tokens ==> t.id != name)
    && (forall r :: r in s.reservations ==> r.id != name && r.groupID != name)
  }

  /** `n` new names, all different. */
  predicate NewNames(s: State, names: nat -> string, n: nat) {
    && (forall i :: 0 <= i < n ==> NewName(s, names(i)))
    && (forall i, j :: 0 <= i < j < n ==> names(i) != names(j))
  }

  /** What drawing names at random promises about an operation. */
  predicate WellNamed(s: State, op: Op) {
    match op
    case RegisterScheduledOp(req, token, ids) =>
      && NewName(s, token.id) && NewNames(s, ids, |req.gpus|)
      && (forall i :: 0 <= i < |req.gpus| ==> ids(i) != token.id)
    case RegisterManagedOp(_, req, groupID, ids) =>
      && NewName(s, groupID) && NewNames(s, ids, |req.gpus|)
      && (forall i :: 0 <= i < |req.gpus| ==> ids(i) != groupID)
    case RegisterTokenOp(token, _) => NewName(s, token.id)
    case SyncOp(snap, groups, _) =>
      && NewNames(s, groups, |s.reservations|)
      && (forall k, i :: k in snap.keys && 0 <= i < |s.reservations| ==> k.id != groups(i))
      && (forall k, r :: k in snap.keys && r in s.reservations ==> k.id != r.id && k.id != r.groupID)
      && (forall k, t :: k in snap.keys && t in s.tokens && !t.managed ==> k.id != t.id)
    case AddAuthorizationOp(a, _) => forall b :: b in s.authorizations ==> b.id != a.id
    case RevokeOp(id, secretHash, _) => secretHash != "" ==> forall r :: r in s.reservations ==> r.id != id
    case _ => true
  }

  // ----- Distinct identifiers -----

  lemma {:induction false} DistinctFilter<T(!new)>(id: T -> string, p: T -> bool, s: seq<T>)
    requires Distinct(id, s)
    ensures Distinct(id, Filter(p, s))
  {
    if s != [] {
      DistinctFilter(id, p, s[1..]);
      var rest := Filter(p, s[1..]);
      forall j | 0 <= j < |rest| ensures id(s[0]) != id(rest[j]) {
        assert rest[j] in s[1..];
      }
    }
  }

  lemma DistinctSame<T>(id: T -> string, s: seq<T>, s': seq<T>)
    requires Distinct(id, s) && |s'| == |s| && forall i :: 0 <= i < |s| ==> id(s'[i]) == id(s[i])
    ensures Distinct(id, s')
  {
  }

  lemma DistinctConcat<T>(id: T -> string, s: seq<T>, s': seq<T>)
    requires Distinct(id, s) && Distinct(id, s') && forall x, y :: x in s && y in s' ==> id(x) != id(y)
    ensures Distinct(id, s + s')
  {
    assert forall i :: 0 <= i < |s| ==> s[i] in s;
    assert forall i :: 0 <= i < |s'| ==> s'[i] in s';
  }

  /** One row per identifier. */
  lemma OneRow<T>(id: T -> string, s: seq<T>, x: T, y: T)
    requires Distinct(id, s) && x in s && y in s && id(x) == id(y)
    ensures x == y
  {
    var i :| 0 <= i < |s| && s[i] == x;
    var j :| 0 <= j < |s| && s[j] == y;
  }

  // ----- Rows that keep their names -----

  predicate SameNames(r: Reservation, r': Reservation) {
    r'.id == r.id && r'.groupID == r.groupID && r'.holder == r.holder && r'.tokenHash == r.tokenHash
  }

  predicate SameTokenNames(t: Token, t': Token) { t'.id == t.id && t'.hash == t.hash && t'.managed == t.managed }

  /** The rows of `s'` are those of `s`, with marks and flags changed at most. */
  predicate Remarked(s: State, s': State) {
    && |s'.reservations| == |s.reservations| && |s'.tokens| == |s.tokens|
    && |s'.authorizations| == |s.authorizations| && |s'.leases| == |s.leases|
    && (forall i :: 0 <= i < |s.reservations| ==> SameNames(s.reservations[i], s'.reservations[i]))
    && (forall i :: 0 <= i < |s.tokens| ==> SameTokenNames(s.tokens[i], s'.tokens[i]))
    && (forall i :: 0 <= i < |s.authorizations| ==> s'.authorizations[i].id == s.authorizations[i].id)
    && (forall i :: 0 <= i < |s.leases| ==> s'.leases[i].id == s.leases[i].id)
  }

  lemma RemarkedKeepsNamed(s: State, s': State)
    requires Named(s) && Remarked(s, s')
    ensures Named(s')
  {
    hide Distinct, Grouped, Apart;
    DistinctSame(ReservationID(), s.reservations, s'.reservations);
    DistinctSame(AuthorizationID(), s.authorizations, s'.authorizations);
    DistinctSame(LeaseID(), s.leases, s'.leases);
    forall r, q | r in s'.reservations && q in s'.reservations ensures Grouped(r, q) {
      var i :| 0 <= i < |s.reservations| && s'.reservations[i] == r;
      var j :| 0 <= j < |s.reservations| && s'.reservations[j] == q;
      assert Grouped(s.reservations[i], s.reservations[j]);
      GroupedSame(s.reservations[i], s.reservations[j], r, q);
    }
    forall t, r | t in s'.tokens && r in s'.reservations ensures Apart(t, r) {
      var i :| 0 <= i < |s.tokens| && s'.tokens[i] == t;
      var j :| 0 <= j < |s.reservations| && s'.reservations[j] == r;
      assert Apart(s.tokens[i], s.reservations[j]);
      ApartSame(s.tokens[i], t, s.reservations[j], r);
    }
  }

  lemma GroupedSame(r: Reservation, q: Reservation, r': Reservation, q': Reservation)
    requires Grouped(r, q) && SameNames(r, r') && SameNames(q, q')
    ensures Grouped(r', q')
  {
  }

  lemma ApartSame(t: Token, t': Token, r: Reservation, r': Reservation)
    requires Apart(t, r) && SameTokenNames(t, t') && SameNames(r, r')
    ensures Apart(t', r')
  {
  }

  /** Dropping rows, as every prune does, keeps names unique. */
  lemma FilteredKeepsNamed(s: State, p: Token -> bool, q: Reservation -> bool, a: Authorization -> bool,
                           l: Lease -> bool)
    requires Named(s)
    ensures Named(s.(tokens := Filter(p, s.tokens), reservations := Filter(q, s.reservations),
                     authorizations := Filter(a, s.authorizations), leases := Filter(l, s.leases)))
  {
    hide Distinct, Grouped, Apart;
    DistinctFilter(ReservationID(), q, s.reservations);
    DistinctFilter(AuthorizationID(), a, s.authorizations);
    DistinctFilter(LeaseID(), l, s.leases);
  }

  // ----- Registrations -----

  lemma GroupedConcat(rs: seq<Reservation>, added: seq<Reservation>)
    requires AllGrouped(rs) && AllGrouped(added)
    requires forall r, y :: r in rs && y in added ==> Grouped(r, y) && Grouped(y, r)
    ensures AllGrouped(rs + added)
  {
    hide Grouped;
  }

  lemma NewRowsAreDistinct(req: Request, token: Token, group: string, ids: nat -> string)
    requires forall i, j :: 0 <= i < j < |req.gpus| ==> ids(i) != ids(j)
    ensures Distinct(ReservationID(), NewReservations(req, token, group, ids))
  {
  }

  /** Adding the rows of one request keeps everything named, whatever their group. */
  lemma AddedRowsKeepNamed(s: State, req: Request, token: Token, group: string, ids: nat -> string)
    requires Named(s) && NewNames(s, ids, |req.gpus|)
    requires forall i :: 0 <= i < |req.gpus| ==> ids(i) != group
    requires if group == "" then forall r :: r in s.reservations ==> r.tokenHash != token.hash else NewName(s, group)
    ensures var rows := NewReservations(req, token, group, ids);
            AllGrouped(s.reservations + rows) && Distinct(ReservationID(), s.reservations + rows)
  {
    hide Distinct, NewReservations, NewName, AllApart;
    var rows := NewReservations(req, token, group, ids);
    NewRowsAreDistinct(req, token, group, ids);
    NewRowsAreNew(s, req, token, group, ids);
    assert forall x, y :: x in rows && y in rows ==> Grouped(x, y);
    DistinctConcat(ReservationID(), s.reservations, rows);
    GroupedConcat(s.reservations, rows);
  }

  /** What is known of the rows of one request. */
  lemma NewRowsAreNew(s: State, req: Request, token: Token, group: string, ids: nat -> string)
    requires NewNames(s, ids, |req.gpus|) && forall i :: 0 <= i < |req.gpus| ==> ids(i) != group
    requires group == "" || NewName(s, group)
    ensures forall y :: y in NewReservations(req, token, group, ids) ==>
              && y.id != "" && y.id != group && y.groupID == group
              && y.tokenHash == token.hash && y.holder == token.name
              && forall x :: x in s.reservations ==>
                   x.id != y.id && x.groupID != y.id && (group != "" ==> x.groupID != group && x.id != group)
  {
    var rows := NewReservations(req, token, group, ids);
    forall y | y in rows
      ensures NewName(s, y.id) && y.id != group && y.groupID == group
      ensures y.tokenHash == token.hash && y.holder == token.name {
      var i :| 0 <= i < |rows| && rows[i] == y;
      assert y.id == ids(i);
    }
  }

  lemma RegisterScheduledKeepsNamed(s: State, req: Request, token: Token, ids: nat -> string)
    requires Named(s) && Admissible(s, RegisterScheduledOp(req, token, ids))
    requires WellNamed(s, RegisterScheduledOp(req, token, ids))
    requires RegisterScheduled(s, req, token, ids).Write?
    ensures Named(RegisterScheduled(s, req, token, ids).state)
  {
    hide Distinct, AllGrouped;
    var rows := NewReservations(req, token, "", ids);
    AddedRowsKeepNamed(s, req, token, "", ids);
    ScheduledApart(s, token, rows);
  }

  lemma ScheduledApart(s: State, token: Token, rows: seq<Reservation>)
    requires AllApart(s.tokens, s.reservations) && FreshToken(s, token) && NewName(s, token.id)
    requires forall i :: 0 <= i < |rows| ==>
               && rows[i].groupID == "" && rows[i].tokenHash == token.hash
               && rows[i].id != token.id && NewName(s, rows[i].id)
    ensures AllApart(s.tokens + [token], s.reservations + rows)
  {
    forall t, r | t in s.tokens + [token] && r in s.reservations + rows ensures Apart(t, r) {
      if r in s.reservations {
        if t in s.tokens {
          assert Apart(t, r);
        }
      } else {
        var i :| 0 <= i < |rows| && rows[i] == r;
      }
    }
  }

  lemma RegisterManagedKeepsNamed(s: State, key: string, req: Request, group: string, ids: nat -> string)
    requires Named(s) && WellNamed(s, RegisterManagedOp(key, req, group, ids))
    requires RegisterManaged(s, key, req, group, ids).Write?
    ensures Named(RegisterManaged(s, key, req, group, ids).state)
  {
    hide Distinct, AllGrouped, Text.TrimSpace, ManagedToken, Conflict, SessionUsed, SameReservationRequest;
    hide SessionRows, Request.WellFormed;
    var token := ManagedToken(s.tokens, Text.TrimSpace(key))[0];
    AddedRowsKeepNamed(s, req, token, group, ids);
    ManagedApart(s, group, NewReservations(req, token, group, ids));
  }

  lemma ManagedApart(s: State, group: string, rows: seq<Reservation>)
    requires AllApart(s.tokens, s.reservations) && NewName(s, group)
    requires forall i :: 0 <= i < |rows| ==> rows[i].groupID == group && NewName(s, rows[i].id)
    ensures AllApart(s.tokens, s.reservations + rows)
  {
    forall t, r | t in s.tokens && r in s.reservations + rows ensures Apart(t, r) {
      if r in s.reservations {
        assert Apart(t, r);
      } else {
        var i :| 0 <= i < |rows| && rows[i] == r;
      }
    }
  }

  // ----- Key replacement -----

  lemma {:induction false} OwnerByHolder(keys: seq<ManagedKey>, h: string, h': string)
    requires NormalizeHolder(h) == NormalizeHolder(h')
    ensures OwnerHash(keys, h) == OwnerHash(keys, h')
  {
    hide NormalizeHolder;
    if keys != [] {
      OwnerByHolder(keys[1..], h, h');
    }
  }

  /** Where a row's group comes from: it had one, its token gives it, or it is new. */
  predicate GroupFrom(s: State, i: nat, group: string, groups: nat -> string)
    requires i < |s.reservations|
  {
    var r := s.reservations[i];
    if r.groupID != "" then group == r.groupID
    else if exists t :: t in s.tokens && t.hash == r.tokenHash then
      exists t :: t in s.tokens && t.hash == r.tokenHash && group == t.id
    else group == groups(i)
  }

  lemma ReboundGroup(s: State, snap: Snapshot, groups: nat -> string, i: nat)
    requires TokensWellFormed(s.tokens) && i < |s.reservations|
    ensures var r' := Rebind(s.reservations[i], snap.keys, TokensByHash(s.tokens), groups(i));
            GroupFrom(s, i, r'.groupID, groups)
  {
    hide OwnerHash, NormalizeHolder;
    var r := s.reservations[i];
    if r.groupID == "" && r.tokenHash in TokensByHash(s.tokens) {
      var t := TokensByHash(s.tokens)[r.tokenHash];
      assert t in s.tokens && t.hash == r.tokenHash && t.id != "";
    }
  }

  /** Rows that come to share a group shared owner and token before. */
  lemma SharedGroup(s: State, groups: nat -> string, i: nat, j: nat, group: string)
    requires Named(s) && TokensWellFormed(s.tokens) && NewNames(s, groups, |s.reservations|)
    requires i < |s.reservations| && j < |s.reservations|
    requires GroupFrom(s, i, group, groups) && GroupFrom(s, j, group, groups)
    ensures var r, q := s.reservations[i], s.reservations[j]; SameHolder(r, q) && r.tokenHash == q.tokenHash
  {
    hide UniqueIDs, NormalizeHolder;
    var r, q := s.reservations[i], s.reservations[j];
    assert r in s.reservations && q in s.reservations;
    assert Grouped(r, q) && Grouped(q, r);
    SameHashSameToken(s.tokens);
    if r.groupID == "" && q.groupID != "" {
      GroupIsNew(s, groups, i, j, group);
    } else if r.groupID != "" && q.groupID == "" {
      GroupIsNew(s, groups, j, i, group);
    }
  }

  /** A row without a group does not get the group of a row that has one. */
  lemma GroupIsNew(s: State, groups: nat -> string, i: nat, j: nat, group: string)
    requires AllApart(s.tokens, s.reservations) && NewNames(s, groups, |s.reservations|)
    requires i < |s.reservations| && j < |s.reservations|
    requires s.reservations[i].groupID == "" && s.reservations[j].groupID != "" && GroupFrom(s, i, group, groups)
    ensures group != s.reservations[j].groupID
  {
    assert s.reservations[j] in s.reservations;
    assert forall t :: t in s.tokens ==> Apart(t, s.reservations[j]);
    assert NewName(s, groups(i));
  }

  lemma ReboundGrouped(s: State, snap: Snapshot, groups: nat -> string, i: nat, j: nat)
    requires Named(s) && TokensWellFormed(s.tokens) && NewNames(s, groups, |s.reservations|)
    requires i < |s.reservations| && j < |s.reservations|
    ensures var rs := Rebound(s.reservations, snap.keys, TokensByHash(s.tokens), groups); Grouped(rs[i], rs[j])
  {
    hide UniqueIDs, NormalizeHolder, OwnerHash, AllGrouped, Apart;
    var rs := Rebound(s.reservations, snap.keys, TokensByHash(s.tokens), groups);
    ReboundGroup(s, snap, groups, i);
    ReboundGroup(s, snap, groups, j);
    GroupIsSet(s, groups, i, j, rs[i].groupID);
    GroupIsSet(s, groups, j, i, rs[j].groupID);
    if rs[i].groupID == rs[j].groupID {
      SharedGroup(s, groups, i, j, rs[i].groupID);
      OwnerByHolder(snap.keys, s.reservations[i].holder, s.reservations[j].holder);
    }
  }

  /** After key replacement every row has a group, and none has the name of a row. */
  lemma GroupIsSet(s: State, groups: nat -> string, i: nat, j: nat, group: string)
    requires Named(s) && TokensWellFormed(s.tokens) && NewNames(s, groups, |s.reservations|)
    requires i < |s.reservations| && j < |s.reservations| && GroupFrom(s, i, group, groups)
    ensures group != "" && group != s.reservations[j].id
  {
    hide UniqueIDs, NormalizeHolder;
    var r, q := s.reservations[i], s.reservations[j];
    assert r in s.reservations && q in s.reservations && Grouped(r, q);
    assert forall t :: t in s.tokens ==> Apart(t, q);
    assert NewName(s, groups(i));
  }

  lemma ReboundApart(s: State, snap: Snapshot, groups: nat -> string, k: ManagedKey, i: nat)
    requires Named(s) && TokensWellFormed(s.tokens) && WellNamed(s, SyncOp(snap, groups, 0))
    requires k in snap.keys && i < |s.reservations|
    ensures var r' := Rebind(s.reservations[i], snap.keys, TokensByHash(s.tokens), groups(i));
            r'.groupID != "" && k.id != r'.groupID && k.id != r'.id
  {
    hide UniqueIDs, NormalizeHolder, OwnerHash, AllGrouped;
    var r := s.reservations[i];
    assert r in s.reservations;
    ReboundGroup(s, snap, groups, i);
    GroupIsSet(s, groups, i, i, Rebind(r, snap.keys, TokensByHash(s.tokens), groups(i)).groupID);
    assert forall t :: t in s.tokens ==> Apart(t, r);
  }

  lemma SyncKeepsNamed(s: State, snap: Snapshot, groups: nat -> string, now: Time)
    requires Named(s) && TokensWellFormed(s.tokens) && WellNamed(s, SyncOp(snap, groups, now))
    requires Sync(s, snap, groups, now).Write?
    ensures Named(Sync(s, snap, groups, now).state)
  {
    hide Distinct, Grouped, Rebind, TokensByHash, NormalizeHolder;
    var s' := Sync(s, snap, groups, now).state;
    if !(s.managedKeys && s.keySnapshotID == snap.snapshotID) {
      var rs := Rebound(s.reservations, snap.keys, TokensByHash(s.tokens), groups);
      assert s'.reservations == rs && s'.tokens == ManagedTokens(snap.keys, now);
      forall i | 0 <= i < |rs| ensures rs[i].id == s.reservations[i].id { ReboundID(s, snap, groups, i); }
      DistinctSame(ReservationID(), s.reservations, rs);
      forall i, j | 0 <= i < |rs| && 0 <= j < |rs| ensures Grouped(rs[i], rs[j]) {
        ReboundGrouped(s, snap, groups, i, j);
      }
      forall j, i | 0 <= j < |snap.keys| && 0 <= i < |rs| ensures Apart(s'.tokens[j], rs[i]) {
        ReboundApart(s, snap, groups, snap.keys[j], i);
      }
    }
  }

  lemma ReboundID(s: State, snap: Snapshot, groups: nat -> string, i: nat)
    requires i < |s.reservations|
    ensures Rebound(s.reservations, snap.keys, TokensByHash(s.tokens), groups)[i].id == s.reservations[i].id
  {
    hide OwnerHash, TokensByHash, NormalizeHolder;
    assert Rebound(s.reservations, snap.keys, TokensByHash(s.tokens), groups)[i]
        == Rebind(s.reservations[i], snap.keys, TokensByHash(s.tokens), groups(i));
  }

  // ----- Every operation keeps names unique -----

  lemma {:induction false} RevokeTokensRemarks(tokens: seq<Token>, id: string, hash: string)
    ensures forall i :: 0 <= i < |tokens| ==> SameTokenNames(tokens[i], RevokeTokens(tokens, id, hash).0[i])
  {
    if tokens != [] {
      RevokeTokensRemarks(tokens[1..], id, if TokenNamed(tokens[0], id, hash) then tokens[0].hash else hash);
    }
  }

  lemma RevokeRemarks(s: State, id: string, secretHash: string, now: Time)
    requires Revoke(s, id, secretHash, now).Write?
    ensures Remarked(s, Revoke(s, id, secretHash, now).state)
  {
    hide ManagedGroup, ManagedHashes, ResolveRevokedHash, RevokeTokens, Touched;
    RevokeTokensRemarks(s.tokens, id, ResolveRevokedHash(s, id, secretHash));
  }

  lemma PruneKeepsNamed(s: State, now: Time)
    requires Named(s)
    ensures Named(PrunedState(s, now))
  {
    hide Named, TokenDead, DeadHashes, LiveHashes;
    var dead, live := DeadHashes(s, now), LiveHashes(s.reservations, now);
    FilteredKeepsNamed(s, (t: Token) => !TokenDead(t, live, now),
                       (r: Reservation) => ReservationLive(r) && now < r.expiresAt && r.tokenHash !in dead,
                       (a: Authorization) => AuthorizationActiveAt(a, now) && a.tokenHash !in dead,
                       (l: Lease) => l.active && now < l.expiresAt && l.tokenHash !in dead);
    NamedByRows(s.(tokens := PrunedState(s, now).tokens, reservations := PrunedState(s, now).reservations,
                   authorizations := PrunedState(s, now).authorizations, leases := PrunedState(s, now).leases),
                PrunedState(s, now));
  }

  /** Names depend on four tables only. */
  lemma NamedByRows(s: State, s': State)
    requires Named(s) && s'.tokens == s.tokens && s'.reservations == s.reservations
    requires s'.authorizations == s.authorizations && s'.leases == s.leases
    ensures Named(s')
  {
  }

  lemma OutagePrunesKeepNamed(s: State, op: Op)
    requires Named(s) && Perform(s, op).Write? && (op.PruneUnreferencedOp? || op.PruneInactiveManagedScopesOp?)
    ensures Named(Perform(s, op).state)
  {
    hide Named, PruneUnreferenced, PruneInactiveManagedScopes;
    if op.PruneUnreferencedOp? {
      PruneUnreferencedKeepsNamed(s, op.now);
    } else {
      PruneInactiveKeepsNamed(s, op.authorizationIDs, op.leaseIDs);
    }
  }

  lemma PruneUnreferencedKeepsNamed(s: State, now: Time)
    requires Named(s) && PruneUnreferenced(s, now).Write?
    ensures Named(PruneUnreferenced(s, now).state)
  {
    hide Distinct, Grouped, Apart, Referenced, HashValid, TokensByHash, ReservationLive;
    var needed := Referenced(s);
    DistinctFilter(ReservationID(),
                   (r: Reservation) => (ReservationLive(r) && now < r.expiresAt) || r.tokenHash in needed,
                   s.reservations);
  }

  lemma PruneInactiveKeepsNamed(s: State, auths: set<string>, ls: set<string>)
    requires Named(s) && PruneInactiveManagedScopes(s, auths, ls).Write?
    ensures Named(PruneInactiveManagedScopes(s, auths, ls).state)
  {
    hide Distinct, AllGrouped, AllApart;
    DistinctFilter(AuthorizationID(), (a: Authorization) => !(a.id in auths && !a.active && a.cgroupPath != ""),
                   s.authorizations);
    DistinctFilter(LeaseID(), (l: Lease) => !(l.id in ls && !l.active && l.cgroupPath != ""), s.leases);
  }

  lemma AuthorizationOpsKeepNamed(s: State, op: Op)
    requires Named(s) && WellNamed(s, op) && Perform(s, op).Write?
    requires op.AddAuthorizationOp? || op.ActivateAuthorizationOp? || op.ReleaseAuthorizationOp?
    ensures Named(Perform(s, op).state)
  {
    hide AllGrouped, AllApart;
    if op.AddAuthorizationOp? {
      DistinctConcat(AuthorizationID(), s.authorizations, [op.authorization]);
    } else {
      DistinctSame(AuthorizationID(), s.authorizations, Perform(s, op).state.authorizations);
    }
  }

  lemma TokenAddedKeepsNamed(s: State, token: Token)
    requires Named(s) && FreshToken(s, token) && NewName(s, token.id)
    ensures Named(s.(tokens := s.tokens + [token]))
  {
    hide Distinct, AllGrouped;
    ScheduledApart(s, token, []);
    assert s.reservations + [] == s.reservations;
  }

  lemma ReleaseKeepsNamed(s: State, rs: set<string>, auths: set<string>, ls: set<string>)
    requires Named(s) && ReleaseScopes(s, rs, auths, ls).Write?
    ensures Named(ReleaseScopes(s, rs, auths, ls).state)
  {
    hide Named;
    RemarkedKeepsNamed(s, Released(s, rs, auths, ls));
  }

  lemma ClaimOpsKeepNamed(s: State, op: Op)
    requires Named(s) && Perform(s, op).Write? && (op.UpsertSoftClaimOp? || op.ReleaseSoftClaimOp? || op.AddBypassOp?)
    ensures Named(Perform(s, op).state)
  {
    hide Named;
    NamedByRows(s, Perform(s, op).state);
  }

  lemma PruneOpKeepsNamed(s: State, now: Time)
    requires Named(s) && Prune(s, now).Write?
    ensures Named(Prune(s, now).state)
  {
    hide Named, PrunedState, DeadHashes, AuthorizationIDs;
    PruneKeepsNamed(s, now);
    NamedByRows(PrunedState(s, now), Prune(s, now).state);
  }

  /** In every run whose names are drawn at random, names stay unique and groups stay with one owner and token. */
  lemma StepKeepsNamed(s: State, op: Op, committed: bool)
    requires Inv(s) && Named(s) && Admissible(s, op) && WellNamed(s, op)
    ensures Named(Apply(s, op, committed))
  {
    hide Named, NoOverlap, GrantsFollowTokens, RegisterScheduled, RegisterManaged, Sync, Revoke, ReleaseScopes, Prune;
    hide AddAuthorization, ActivateAuthorization, ReleaseAuthorization, UpsertSoftClaim, ReleaseSoftClaim, AddBypass;
    hide PruneInactiveManagedScopes, PruneUnreferenced, FreshToken, NewName, NewNames, TokenCapacity;
    if Perform(s, op).Write? && committed {
      match op {
        case RegisterScheduledOp(req, token, ids) => RegisterScheduledKeepsNamed(s, req, token, ids);
        case RegisterManagedOp(key, req, group, ids) => RegisterManagedKeepsNamed(s, key, req, group, ids);
        case RegisterTokenOp(token, now) => TokenAddedKeepsNamed(s, token);
        case SyncOp(snap, groups, now) => SyncKeepsNamed(s, snap, groups, now);
        case RevokeOp(id, secretHash, now) =>
          RevokeRemarks(s, id, secretHash, now);
          RemarkedKeepsNamed(s, Perform(s, op).state);
        case ReleaseScopesOp(rs, auths, ls) => ReleaseKeepsNamed(s, rs, auths, ls);
        case AddAuthorizationOp(_, _) => AuthorizationOpsKeepNamed(s, op);
        case ActivateAuthorizationOp(_, _) => AuthorizationOpsKeepNamed(s, op);
        case ReleaseAuthorizationOp(_) => AuthorizationOpsKeepNamed(s, op);
        case UpsertSoftClaimOp(_, _, _) => ClaimOpsKeepNamed(s, op);
        case ReleaseSoftClaimOp(_) => ClaimOpsKeepNamed(s, op);
        case AddBypassOp(_) => ClaimOpsKeepNamed(s, op);
        case PruneOp(now) => PruneOpKeepsNamed(s, now);
        case PruneInactiveManagedScopesOp(_, _) => OutagePrunesKeepNamed(s, op);
        case PruneUnreferencedOp(_) => OutagePrunesKeepNamed(s, op);
      }
    }
  }

  /** Rows of one group are all under managed tokens, or none is. */
  lemma GroupsAreHomogeneous(s: State, r: Reservation, q: Reservation)
    requires Named(s) && r in s.reservations && q in s.reservations && GroupOf(r) == GroupOf(q)
    ensures r.tokenHash == q.tokenHash
  {
    hide NormalizeHolder;
    assert Grouped(r, q) && Grouped(q, r);
    if r.groupID == "" && q.groupID == "" {
      OneRow(ReservationID(), s.reservations, r, q);
    }
  }

  predicate WellNamedRun(s: State, steps: seq<Step>)
    decreases |steps|
  {
    steps != [] ==>
      && WellNamed(s, steps[0].op)
      && WellNamedRun(Apply(s, steps[0].op, steps[0].committed), steps[1..])
  }

  lemma {:induction false} RunKeepsNamed(s: State, steps: seq<Step>)
    requires Inv(s) && Named(s) && AdmissibleRun(s, steps) && WellNamedRun(s, steps)
    ensures Named(Run(s, steps))
    decreases |steps|
  {
    if steps != [] {
      StepKeepsInv(s, steps[0].op, steps[0].committed);
      StepKeepsNamed(s, steps[0].op, steps[0].committed);
      RunKeepsNamed(Apply(s, steps[0].op, steps[0].committed), steps[1..]);
    }
  }
}
