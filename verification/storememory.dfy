/**
 The store's memory: the working state and its committed shadow as slices over arrays, and the
 last renamed state file.  Whatever an operation does in place, and wherever its save fails,
 all three agree afterwards.
 */
module StoreMemory {
  import opened Model
  import opened Sequences
  import opened Slices
  import Text
  import opened StoreOps
  import opened StoreRuns

  /** How far a save got: the rename is the commit point, the directory sync comes after it. */
  datatype SaveOutcome = NotWritten | RenamedUnsynced | Renamed

  /** What an operation leaves on disk: its new state once the rename happened, else the old one. */
  function After(effect: Effect, s: State, outcome: SaveOutcome): State {
    if effect.Write? && !outcome.NotWritten? then effect.state else s
  }

  /** Whether the caller is told of an error: a refusal, or a write whose save did not come through. */
  predicate Fails(effect: Effect, outcome: SaveOutcome) { effect.Refused? || (effect.Write? && !outcome.Renamed?) }

  lemma ApplyIsAfter(s: State, op: Op, outcome: SaveOutcome)
    ensures Apply(s, op, !outcome.NotWritten?) == After(Perform(s, op), s, outcome)
  {
    hide Perform;
  }

  datatype Image = Image(
    managedKeys: bool, keySnapshotID: string, managedKeyAuthority: string,
    tokens: Slice<Token>, reservations: Slice<Reservation>, authorizations: Slice<Authorization>,
    softClaims: Slice<SoftClaim>, leases: Slice<Lease>, bypasses: Slice<BypassRule>)
  {
    predicate Valid() {
      && tokens.Valid() && reservations.Valid() && authorizations.Valid()
      && softClaims.Valid() && leases.Valid() && bypasses.Valid()
    }

    ghost function Arrays(): set<object> {
      {tokens.rows, reservations.rows, authorizations.rows, softClaims.rows, leases.rows, bypasses.rows}
    }

    function Contents(): State
      requires Valid()
      reads Arrays()
    {
      State(managedKeys, keySnapshotID, managedKeyAuthority, tokens.Contents(), reservations.Contents(),
            authorizations.Contents(), softClaims.Contents(), leases.Contents(), bypasses.Contents())
    }
  }

  /** `cloneState`: equal contents in arrays of their own. */
  method CloneState(image: Image) returns (c: Image)
    requires image.Valid()
    ensures c.Valid() && fresh(c.Arrays()) && c.Contents() == image.Contents()
  {
    var tokens := Clone(image.tokens);
    var reservations := Clone(image.reservations);
    var authorizations := Clone(image.authorizations);
    var softClaims := Clone(image.softClaims);
    var leases := Clone(image.leases);
    var bypasses := Clone(image.bypasses);
    c := Image(image.managedKeys, image.keySnapshotID, image.managedKeyAuthority,
               tokens, reservations, authorizations, softClaims, leases, bypasses);
  }

  method EmptyImage() returns (image: Image)
    ensures image.Valid() && fresh(image.Arrays()) && image.Contents() == EMPTY_STATE
  {
    var t := Empty<Token>();
    var r := Empty<Reservation>();
    var a := Empty<Authorization>();
    var c := Empty<SoftClaim>();
    var l := Empty<Lease>();
    var b := Empty<BypassRule>();
    image := Image(false, "", "", t, r, a, c, l, b);
  }

  lemma PrunedClaims(s: State, now: Time)
    ensures PrunedState(s, now).softClaims == s.softClaims
  {
  }

  predicate SomeActive(s: State, rs: set<string>, auths: set<string>, ls: set<string>) {
    || (exists r :: r in s.reservations && r.id in rs && r.active)
    || (exists a :: a in s.authorizations && a.id in auths && a.active)
    || (exists l :: l in s.leases && l.id in ls && l.active)
  }

  /** Releasing changes the state exactly when it deactivates some row. */
  lemma ReleasedContents(s: State, rs: set<string>, auths: set<string>, ls: set<string>)
    ensures SomeActive(s, rs, auths, ls) ==> ReleaseScopes(s, rs, auths, ls) == Write(Released(s, rs, auths, ls))
    ensures !SomeActive(s, rs, auths, ls) ==>
              ReleaseScopes(s, rs, auths, ls) == NoChange && Released(s, rs, auths, ls) == s
  {
    hide Map;
    MapChanges((r: Reservation) => if r.id in rs then r.(active := false) else r, s.reservations);
    MapChanges((a: Authorization) => if a.id in auths then a.(active := false) else a, s.authorizations);
    MapChanges((l: Lease) => if l.id in ls then l.(active := false) else l, s.leases);
  }

  /** Mapping changes a sequence exactly when it changes some element. */
  lemma MapChanges<T(!new)>(f: T -> T, s: seq<T>)
    ensures Map(f, s) == s <==> forall x :: x in s ==> f(x) == x
  {
    if Map(f, s) == s {
      forall x | x in s ensures f(x) == x {
        var i :| 0 <= i < |s| && s[i] == x;
        assert Map(f, s)[i] == s[i];
      }
    }
  }

  lemma RegisterScheduledWrites(s: State, req: Request, token: Token, ids: nat -> string)
    requires RegisterScheduled(s, req, token, ids).Write?
    ensures RegisterScheduled(s, req, token, ids).state
         == s.(tokens := s.tokens + [token], reservations := s.reservations + NewReservations(req, token, "", ids))
  {
  }

  /** A managed registration adds rows under the key it was admitted with. */
  lemma RegisterManagedWrites(s: State, userKeyID: string, req: Request, groupID: string, ids: nat -> string)
    requires RegisterManaged(s, userKeyID, req, groupID, ids).Write?
    ensures var keys := ManagedToken(s.tokens, Text.TrimSpace(userKeyID));
            && keys != []
            && RegisterManaged(s, userKeyID, req, groupID, ids).state
               == s.(reservations := s.reservations + NewReservations(req, keys[0], groupID, ids))
  {
    hide Text.TrimSpace, Conflict, SessionUsed, NewReservations, ManagedToken, SameReservationRequest;
    hide Request.WellFormed, SessionRows;
  }

  lemma SyncWrites(s: State, snap: Snapshot, groups: nat -> string, now: Time)
    requires snap.WellFormed() && (s.managedKeyAuthority != "" ==> snap.authorityID == s.managedKeyAuthority)
    requires !(s.managedKeys && s.keySnapshotID == snap.snapshotID)
    ensures Sync(s, snap, groups, now) == Write(s.(
              managedKeyAuthority := if s.managedKeyAuthority == "" then snap.authorityID else s.managedKeyAuthority,
              reservations := Rebound(s.reservations, snap.keys, TokensByHash(s.tokens), groups),
              tokens := ManagedTokens(snap.keys, now), managedKeys := true, keySnapshotID := snap.snapshotID))
  {
    hide Rebind, Snapshot.WellFormed, TokensByHash;
  }

  lemma RevokeStep(xs: seq<Token>, i: nat, id: string, hash: string)
    requires i < |xs|
    ensures var named := TokenNamed(xs[i], id, hash);
            var r := RevokeTokens(xs[i..], id, hash);
            var r' := RevokeTokens(xs[i + 1..], id, if named then xs[i].hash else hash);
            r.1 == r'.1 && r.0 == [if named then xs[i].(revoked := true) else xs[i]] + r'.0
  {
    assert xs[i..][0] == xs[i] && xs[i..][1..] == xs[i + 1..];
  }

  /** The revoking loop over tokens: `hash` follows the last token it revoked. */
  method RevokeSlice(s: Slice<Token>, id: string, start: string) returns (hash: string)
    requires s.Valid()
    modifies s.rows
    ensures hash == RevokeTokens(old(s.Contents()), id, start).1
    ensures s.Contents() == RevokeTokens(old(s.Contents()), id, start).0
  {
    hide RevokeTokens, TokenNamed;
    hash := start;
    ghost var xs := s.Contents();
    ghost var goal := RevokeTokens(xs, id, start);
    assert xs[0..] == xs;
    for i := 0 to s.len
      invariant forall j :: i <= j < s.len ==> s.rows[j] == xs[j]
      invariant goal.1 == RevokeTokens(xs[i..], id, hash).1
      invariant goal.0 == s.rows[..i] + RevokeTokens(xs[i..], id, hash).0
    {
      RevokeStep(xs, i, id, hash);
      ghost var done := s.rows[..i];
      if TokenNamed(s.rows[i], id, hash) {
        hash := s.rows[i].hash;
        s.rows[i] := s.rows[i].(revoked := true);
      }
      assert s.rows[..i + 1] == done + [s.rows[i]];
    }
    RevokeNone(xs[s.len..], id, hash);
  }

  lemma RevokeNone(xs: seq<Token>, id: string, hash: string)
    requires xs == []
    ensures RevokeTokens(xs, id, hash) == ([], hash)
  {
  }

  lemma {:induction false} NothingRevoked(tokens: seq<Token>, id: string, hash: string)
    requires forall t :: t in tokens ==> !TokenNamed(t, id, hash)
    ensures RevokeTokens(tokens, id, hash).0 == tokens && RevokeTokens(tokens, id, hash).1 == hash
  {
    if tokens != [] {
      NothingRevoked(tokens[1..], id, hash);
      assert [tokens[0]] + tokens[1..] == tokens;
    }
  }

  lemma MarkedKeepsClaims(s: State, id: string, hash: string, clock: Time)
    ensures Marked(s, id, hash, clock).softClaims == s.softClaims
  {
  }

  /** A name that nothing carries changes nothing. */
  lemma UntouchedUnchanged(s: State, id: string, start: string, clock: Time)
    requires !Touched(s, id, start, RevokeTokens(s.tokens, id, start).1)
    ensures RevokeTokens(s.tokens, id, start).0 == s.tokens
    ensures Marked(s, id, RevokeTokens(s.tokens, id, start).1, clock) == s
  {
    NothingRevoked(s.tokens, id, start);
    var s' := Marked(s, id, start, clock);
    assert s'.reservations == s.reservations;
    assert s'.authorizations == s.authorizations;
    assert s'.leases == s.leases;
    assert s'.bypasses == s.bypasses;
  }

  /** The row counts that pruning compares. */
  datatype Lengths = Lengths(tokens: nat, reservations: nat, authorizations: nat, leases: nat, bypasses: nat)

  function LengthsOf(s: State): Lengths {
    Lengths(|s.tokens|, |s.reservations|, |s.authorizations|, |s.leases|, |s.bypasses|)
  }

  /** Pruning that drops no row changes nothing, and only that. */
  lemma SameLengthsSame(s: State, now: Time)
    ensures LengthsOf(PrunedState(s, now)) == LengthsOf(s) <==> PrunedState(s, now) == s
  {
    hide LiveHashes, DeadHashes;
    if LengthsOf(PrunedState(s, now)) == LengthsOf(s) {
      NothingPruned(s, now);
    }
  }

  lemma NothingPruned(s: State, now: Time)
    requires LengthsOf(PrunedState(s, now)) == LengthsOf(s)
    ensures PrunedState(s, now) == s
  {
    hide TokenDead, LiveHashes, DeadHashes;
    var live, dead := LiveHashes(s.reservations, now), DeadHashes(s, now);
    FilterSameLength((t: Token) => !TokenDead(t, live, now), s.tokens);
    FilterSameLength((r: Reservation) => ReservationLive(r) && now < r.expiresAt && r.tokenHash !in dead,
                     s.reservations);
    FilterSameLength((a: Authorization) => AuthorizationActiveAt(a, now) && a.tokenHash !in dead, s.authorizations);
    FilterSameLength((l: Lease) => l.active && now < l.expiresAt && l.tokenHash !in dead, s.leases);
    FilterSameLength((b: BypassRule) => !b.revoked && now < b.expiresAt, s.bypasses);
  }

  class Store {
    var state: Image
    var committed: Image
    ghost var disk: State

    ghost predicate Valid()
      reads this
    {
      state.Valid() && committed.Valid() && state.Arrays() !! committed.Arrays()
    }

    /** The shadow and the file are what the last commit made them. */
    ghost predicate Shadowed()
      reads this, committed.Arrays()
    {
      Valid() && committed.Contents() == disk
    }

    ghost predicate Settled()
      reads this, state.Arrays(), committed.Arrays()
    {
      Shadowed() && state.Contents() == disk
    }

    constructor ()
      ensures Settled() && disk == EMPTY_STATE && fresh(state.Arrays()) && fresh(committed.Arrays())
    {
      hide Image.Contents, Image.Valid;
      var image := EmptyImage();
      var shadow := CloneState(image);
      state, committed, disk := image, shadow, EMPTY_STATE;
    }

    /** The rename happened: the shadow follows the file. */
    method Rename()
      requires Valid()
      modifies this`committed, this`disk
      ensures Settled() && disk == old(state.Contents())
    {
      committed := CloneState(state);
      disk := state.Contents();
    }

    /** The deferred rollback: the shadow takes the place of the working state. */
    method RollBack()
      requires Shadowed()
      modifies this`state
      ensures Settled() && disk == old(disk)
    {
      state := CloneState(committed);
    }

    /** Writes the working state; any error puts the shadow back in its place. */
    method SaveLocked(outcome: SaveOutcome) returns (failed: bool)
      requires Shadowed()
      modifies this
      ensures Settled() && failed == !outcome.Renamed?
      ensures disk == if outcome.NotWritten? then old(disk) else old(state.Contents())
    {
      hide Image.Contents, Image.Arrays, Image.Valid;
      if !outcome.NotWritten? {
        Rename();
      }
      failed := !outcome.Renamed?;
      if failed {
        RollBack();
      }
    }

    // ----- In-place work on one table -----

    method FilterTokens(keep: Token -> bool)
      requires Shadowed()
      modifies this`state, state.tokens.rows
      ensures Shadowed() && state == old(state).(tokens := Slice(old(state).tokens.rows, state.tokens.len))
      ensures state.Contents() == old(state.Contents()).(tokens := Filter(keep, old(state.Contents()).tokens))
    {
      var kept := FilterInPlace(state.tokens, keep);
      state := state.(tokens := kept);
    }

    method FilterReservations(keep: Reservation -> bool)
      requires Shadowed()
      modifies this`state, state.reservations.rows
      ensures Shadowed()
      ensures state == old(state).(reservations := Slice(old(state).reservations.rows, state.reservations.len))
      ensures state.Contents()
           == old(state.Contents()).(reservations := Filter(keep, old(state.Contents()).reservations))
    {
      var kept := FilterInPlace(state.reservations, keep);
      state := state.(reservations := kept);
    }

    method FilterAuthorizations(keep: Authorization -> bool)
      requires Shadowed()
      modifies this`state, state.authorizations.rows
      ensures Shadowed()
      ensures state == old(state).(authorizations := Slice(old(state).authorizations.rows, state.authorizations.len))
      ensures state.Contents()
           == old(state.Contents()).(authorizations := Filter(keep, old(state.Contents()).authorizations))
    {
      var kept := FilterInPlace(state.authorizations, keep);
      state := state.(authorizations := kept);
    }

    method FilterSoftClaims(keep: SoftClaim -> bool)
      requires Shadowed()
      modifies this`state, state.softClaims.rows
      ensures Shadowed() && state == old(state).(softClaims := Slice(old(state).softClaims.rows, state.softClaims.len))
      ensures state.Contents() == old(state.Contents()).(softClaims := Filter(keep, old(state.Contents()).softClaims))
    {
      var kept := FilterInPlace(state.softClaims, keep);
      state := state.(softClaims := kept);
    }

    method FilterLeases(keep: Lease -> bool)
      requires Shadowed()
      modifies this`state, state.leases.rows
      ensures Shadowed() && state == old(state).(leases := Slice(old(state).leases.rows, state.leases.len))
      ensures state.Contents() == old(state.Contents()).(leases := Filter(keep, old(state.Contents()).leases))
    {
      var kept := FilterInPlace(state.leases, keep);
      state := state.(leases := kept);
    }

    method FilterBypasses(keep: BypassRule -> bool)
      requires Shadowed()
      modifies this`state, state.bypasses.rows
      ensures Shadowed() && state == old(state).(bypasses := Slice(old(state).bypasses.rows, state.bypasses.len))
      ensures state.Contents() == old(state.Contents()).(bypasses := Filter(keep, old(state.Contents()).bypasses))
    {
      var kept := FilterInPlace(state.bypasses, keep);
      state := state.(bypasses := kept);
    }

    method UpdateReservations(f: Reservation -> Reservation)
      requires Shadowed()
      modifies state.reservations.rows
      ensures Shadowed() && state == old(state)
      ensures state.Contents() == old(state.Contents()).(reservations := Map(f, old(state.Contents()).reservations))
    {
      UpdateInPlace(state.reservations, f);
    }

    method UpdateAuthorizations(f: Authorization -> Authorization)
      requires Shadowed()
      modifies state.authorizations.rows
      ensures Shadowed() && state == old(state)
      ensures state.Contents() == old(state.Contents()).(authorizations := Map(f, old(state.Contents()).authorizations))
    {
      UpdateInPlace(state.authorizations, f);
    }

    method UpdateLeases(f: Lease -> Lease)
      requires Shadowed()
      modifies state.leases.rows
      ensures Shadowed() && state == old(state)
      ensures state.Contents() == old(state.Contents()).(leases := Map(f, old(state.Contents()).leases))
    {
      UpdateInPlace(state.leases, f);
    }

    method UpdateBypasses(f: BypassRule -> BypassRule)
      requires Shadowed()
      modifies state.bypasses.rows
      ensures Shadowed() && state == old(state)
      ensures state.Contents() == old(state.Contents()).(bypasses := Map(f, old(state.Contents()).bypasses))
    {
      UpdateInPlace(state.bypasses, f);
    }

    method AppendToken(x: Token)
      requires Shadowed()
      modifies this`state, state.tokens.rows
      ensures Shadowed() && state == old(state).(tokens := state.tokens)
      ensures state.tokens.rows == old(state.tokens.rows) || fresh(state.tokens.rows)
      ensures state.Contents() == old(state.Contents()).(tokens := old(state.Contents()).tokens + [x])
    {
      var grown := Append(state.tokens, x);
      state := state.(tokens := grown);
    }

    method AppendAuthorization(x: Authorization)
      requires Shadowed()
      modifies this`state, state.authorizations.rows
      ensures Shadowed() && state == old(state).(authorizations := state.authorizations)
      ensures state.authorizations.rows == old(state.authorizations.rows) || fresh(state.authorizations.rows)
      ensures state.Contents() == old(state.Contents()).(authorizations := old(state.Contents()).authorizations + [x])
    {
      var grown := Append(state.authorizations, x);
      state := state.(authorizations := grown);
    }

    method AppendSoftClaim(x: SoftClaim)
      requires Shadowed()
      modifies this`state, state.softClaims.rows
      ensures Shadowed() && state == old(state).(softClaims := state.softClaims)
      ensures state.softClaims.rows == old(state.softClaims.rows) || fresh(state.softClaims.rows)
      ensures state.Contents() == old(state.Contents()).(softClaims := old(state.Contents()).softClaims + [x])
    {
      var grown := Append(state.softClaims, x);
      state := state.(softClaims := grown);
    }

    method AppendBypass(x: BypassRule)
      requires Shadowed()
      modifies this`state, state.bypasses.rows
      ensures Shadowed() && state == old(state).(bypasses := state.bypasses)
      ensures state.bypasses.rows == old(state.bypasses.rows) || fresh(state.bypasses.rows)
      ensures state.Contents() == old(state.Contents()).(bypasses := old(state.Contents()).bypasses + [x])
    {
      var grown := Append(state.bypasses, x);
      state := state.(bypasses := grown);
    }

    method AppendReservations(xs: seq<Reservation>)
      requires Shadowed()
      modifies this`state, state.reservations.rows
      ensures Shadowed() && state == old(state).(reservations := state.reservations)
      ensures state.reservations.rows == old(state.reservations.rows) || fresh(state.reservations.rows)
      ensures state.Contents() == old(state.Contents()).(reservations := old(state.Contents()).reservations + xs)
    {
      var grown := AppendAll(state.reservations, xs);
      state := state.(reservations := grown);
    }

    method SetAuthorization(i: nat, x: Authorization)
      requires Shadowed() && i < |state.Contents().authorizations|
      modifies state.authorizations.rows
      ensures Shadowed() && state == old(state)
      ensures state.Contents() == old(state.Contents()).(authorizations := old(state.Contents()).authorizations[i := x])
    {
      SetInPlace(state.authorizations, i, x);
    }

    method SetSoftClaim(i: nat, x: SoftClaim)
      requires Shadowed() && i < |state.Contents().softClaims|
      modifies state.softClaims.rows
      ensures Shadowed() && state == old(state)
      ensures state.Contents() == old(state.Contents()).(softClaims := old(state.Contents()).softClaims[i := x])
    {
      SetInPlace(state.softClaims, i, x);
    }

    // ----- The operations -----

    /** `pruneExpiredLocked`, up to the claims: every other table is filtered in place. */
    method PruneTables(now: Time, live: set<string>, dead: set<string>)
      requires Shadowed()
      requires live == LiveHashes(state.Contents().reservations, now) && dead == DeadHashes(state.Contents(), now)
      modifies this`state, state.tokens.rows, state.reservations.rows, state.authorizations.rows
      modifies state.leases.rows, state.bypasses.rows
      ensures Shadowed() && state.Arrays() == old(state.Arrays()) && state.softClaims == old(state).softClaims
      ensures state.Contents() == PrunedState(old(state.Contents()), now)
    {
      hide TokenDead, LiveHashes, DeadHashes, Filter, ReservationLive, AuthorizationActiveAt;
      FilterTokens((t: Token) => !TokenDead(t, live, now));
      FilterReservations((r: Reservation) => ReservationLive(r) && now < r.expiresAt && r.tokenHash !in dead);
      FilterAuthorizations((a: Authorization) => AuthorizationActiveAt(a, now) && a.tokenHash !in dead);
      FilterLeases((l: Lease) => l.active && now < l.expiresAt && l.tokenHash !in dead);
      FilterBypasses((b: BypassRule) => !b.revoked && now < b.expiresAt);
    }

    method SaveClaims(keep: SoftClaim -> bool, outcome: SaveOutcome) returns (failed: bool)
      requires Shadowed()
      modifies this, state.softClaims.rows
      ensures Settled()
      ensures disk == if outcome.NotWritten? then old(disk)
                      else old(state.Contents()).(softClaims := Filter(keep, old(state.Contents()).softClaims))
      ensures failed == !outcome.Renamed?
    {
      hide Image.Contents, Filter;
      FilterSoftClaims(keep);
      failed := SaveLocked(outcome);
    }

    /** `Prune`: dead claims go with whatever else went. */
    method Prune(now: Time, outcome: SaveOutcome) returns (failed: bool)
      requires Settled()
      modifies this, state.Arrays()
      ensures Settled() && disk == After(StoreOps.Prune(old(disk), now), old(disk), outcome)
      ensures failed == Fails(StoreOps.Prune(old(disk), now), outcome)
    {
      hide Image.Contents, LiveHashes, DeadHashes, PrunedState, Filter, AuthorizationIDs, LengthsOf, ClaimOutlives;
      ghost var s := state.Contents();
      var live, dead := LiveHashes(state.Contents().reservations, now), DeadHashes(state.Contents(), now);
      var before := LengthsOf(state.Contents());
      PruneTables(now, live, dead);
      SameLengthsSame(s, now);
      if LengthsOf(state.Contents()) == before {
        return false;
      }
      var kept := AuthorizationIDs(state.Contents().authorizations);
      PrunedClaims(s, now);
      failed := SaveClaims(ClaimOutlives(dead, kept), outcome);
    }

    method ReleaseSoftClaim(id: string, outcome: SaveOutcome) returns (failed: bool)
      requires Settled()
      modifies this, state.Arrays()
      ensures Settled() && disk == After(StoreOps.ReleaseSoftClaim(old(disk), id), old(disk), outcome)
      ensures failed == Fails(StoreOps.ReleaseSoftClaim(old(disk), id), outcome)
    {
      hide Image.Contents, Filter;
      var before := |state.Contents().softClaims|;
      ghost var s := state.Contents();
      FilterSoftClaims((c: SoftClaim) => c.id != id);
      if |state.Contents().softClaims| == before {
        FilterSameLength((c: SoftClaim) => c.id != id, s.softClaims);
        return false;
      }
      failed := SaveLocked(outcome);
    }

    /** `ReleaseScopes`: rows are deactivated in place, and saved if any was active. */
    method ReleaseScopes(rs: set<string>, auths: set<string>, ls: set<string>, outcome: SaveOutcome)
      returns (failed: bool)
      requires Settled()
      modifies this, state.Arrays()
      ensures Settled() && disk == After(StoreOps.ReleaseScopes(old(disk), rs, auths, ls), old(disk), outcome)
      ensures failed == Fails(StoreOps.ReleaseScopes(old(disk), rs, auths, ls), outcome)
    {
      hide StoreOps.ReleaseScopes, Released, Map;
      ghost var s := state.Contents();
      ReleasedContents(s, rs, auths, ls);
      var changed := SomeActive(state.Contents(), rs, auths, ls);
      ReleaseRows(rs, auths, ls);
      if !changed {
        return false;
      }
      failed := SaveLocked(outcome);
    }

    method ReleaseRows(rs: set<string>, auths: set<string>, ls: set<string>)
      requires Shadowed()
      modifies state.reservations.rows, state.authorizations.rows, state.leases.rows
      ensures Shadowed() && state.Contents() == Released(old(state.Contents()), rs, auths, ls)
    {
      hide Map;
      UpdateReservations((r: Reservation) => if r.id in rs then r.(active := false) else r);
      UpdateAuthorizations((a: Authorization) => if a.id in auths then a.(active := false) else a);
      UpdateLeases((l: Lease) => if l.id in ls then l.(active := false) else l);
    }

    method AddAuthorization(a: Authorization, now: Time, outcome: SaveOutcome) returns (failed: bool)
      requires Settled()
      modifies this, state.Arrays()
      ensures Settled() && disk == After(StoreOps.AddAuthorization(old(disk), a, now), old(disk), outcome)
      ensures failed == Fails(StoreOps.AddAuthorization(old(disk), a, now), outcome)
    {
      hide Image.Contents, CountWhere;
      if StoreOps.AddAuthorization(state.Contents(), a, now).Refused? {
        return true;
      }
      AppendAuthorization(a);
      failed := SaveLocked(outcome);
    }

    method ActivateAuthorization(id: string, rootPID: int, outcome: SaveOutcome) returns (failed: bool)
      requires Settled()
      modifies this, state.Arrays()
      ensures Settled() && disk == After(StoreOps.ActivateAuthorization(old(disk), id, rootPID), old(disk), outcome)
      ensures failed == Fails(StoreOps.ActivateAuthorization(old(disk), id, rootPID), outcome)
    {
      hide Image.Contents, IndexWhere;
      if rootPID <= 0 {
        return true;
      }
      var rows := state.Contents().authorizations;
      var i := IndexWhere((a: Authorization) => a.id == id, rows);
      if i == |rows| || !rows[i].active || rows[i].revoked || rows[i].rootPID != 0 {
        return true;
      }
      SetAuthorization(i, rows[i].(rootPID := rootPID));
      failed := SaveLocked(outcome);
    }

    method ReleaseAuthorization(id: string, outcome: SaveOutcome) returns (failed: bool)
      requires Settled()
      modifies this, state.Arrays()
      ensures Settled() && disk == After(StoreOps.ReleaseAuthorization(old(disk), id), old(disk), outcome)
      ensures failed == Fails(StoreOps.ReleaseAuthorization(old(disk), id), outcome)
    {
      hide Image.Contents, IndexWhere;
      var rows := state.Contents().authorizations;
      var i := IndexWhere((a: Authorization) => a.id == id, rows);
      if i == |rows| {
        return false;
      }
      SetAuthorization(i, rows[i].(active := false));
      failed := SaveLocked(outcome);
    }

    method UpsertSoftClaim(claim: SoftClaim, freshID: string, now: Time, outcome: SaveOutcome) returns (failed: bool)
      requires Settled()
      modifies this, state.Arrays()
      ensures Settled() && disk == After(StoreOps.UpsertSoftClaim(old(disk), claim, freshID, now), old(disk), outcome)
      ensures failed == Fails(StoreOps.UpsertSoftClaim(old(disk), claim, freshID, now), outcome)
    {
      hide Image.Contents, Placed;
      var c := claim;
      if c.id == "" {
        c := c.(id := freshID);
      }
      if !IsSet(c.createdAt) {
        c := c.(createdAt := now);
      }
      c := c.(updatedAt := now);
      PlaceSoftClaim(c);
      failed := SaveLocked(outcome);
    }

    /** The claim replaces the one of its GPU and token, or is a new row. */
    method PlaceSoftClaim(c: SoftClaim)
      requires Shadowed()
      modifies this`state, state.softClaims.rows
      ensures Shadowed()
      ensures state.Contents() == old(state.Contents()).(softClaims := Placed(old(state.Contents()).softClaims, c))
    {
      hide Image.Contents, ClaimIndex;
      var rows := state.Contents().softClaims;
      var i := ClaimIndex(rows, c.gpu, c.tokenHash);
      if i < |rows| {
        SetSoftClaim(i, c.(id := rows[i].id, createdAt := rows[i].createdAt));
      } else {
        AppendSoftClaim(c);
      }
    }

    method AddBypass(rule: BypassRule, outcome: SaveOutcome) returns (failed: bool)
      requires Settled()
      modifies this, state.Arrays()
      ensures Settled() && disk == After(StoreOps.AddBypass(old(disk), rule), old(disk), outcome)
      ensures failed == Fails(StoreOps.AddBypass(old(disk), rule), outcome)
    {
      hide Image.Contents;
      if |state.Contents().bypasses| >= MAX_TOTAL_BYPASSES {
        return true;
      }
      AppendBypass(rule);
      failed := SaveLocked(outcome);
    }

    method RegisterToken(token: Token, now: Time, outcome: SaveOutcome) returns (failed: bool)
      requires Settled()
      modifies this, state.Arrays()
      ensures Settled() && disk == After(StoreOps.RegisterToken(old(disk), token, now), old(disk), outcome)
      ensures failed == Fails(StoreOps.RegisterToken(old(disk), token, now), outcome)
    {
      hide Image.Contents, TokenCapacity;
      if !TokenCapacity(state.Contents(), token, now) {
        return true;
      }
      AppendToken(token);
      failed := SaveLocked(outcome);
    }

    method AppendGrant(token: Token, xs: seq<Reservation>)
      requires Shadowed()
      modifies this`state, state.tokens.rows, state.reservations.rows
      ensures Shadowed()
      ensures var s := old(state.Contents());
              state.Contents() == s.(tokens := s.tokens + [token], reservations := s.reservations + xs)
    {
      AppendToken(token);
      AppendReservations(xs);
    }

    method RegisterScheduled(req: Request, token: Token, ids: nat -> string, outcome: SaveOutcome)
      returns (failed: bool)
      requires Settled()
      modifies this, state.Arrays()
      ensures Settled() && disk == After(StoreOps.RegisterScheduled(old(disk), req, token, ids), old(disk), outcome)
      ensures failed == Fails(StoreOps.RegisterScheduled(old(disk), req, token, ids), outcome)
    {
      hide Image.Contents, StoreOps.RegisterScheduled, NewReservations;
      var effect := StoreOps.RegisterScheduled(state.Contents(), req, token, ids);
      if !effect.Write? {
        return effect.Refused?;
      }
      RegisterScheduledWrites(state.Contents(), req, token, ids);
      AppendGrant(token, NewReservations(req, token, "", ids));
      failed := SaveLocked(outcome);
    }

    method RegisterManaged(userKeyID: string, req: Request, groupID: string, ids: nat -> string, outcome: SaveOutcome)
      returns (failed: bool)
      requires Settled()
      modifies this, state.Arrays()
      ensures Settled()
      ensures disk == After(StoreOps.RegisterManaged(old(disk), userKeyID, req, groupID, ids), old(disk), outcome)
      ensures failed == Fails(StoreOps.RegisterManaged(old(disk), userKeyID, req, groupID, ids), outcome)
    {
      hide Image.Contents, StoreOps.RegisterManaged, NewReservations, ManagedToken, Text.TrimSpace;
      var effect := StoreOps.RegisterManaged(state.Contents(), userKeyID, req, groupID, ids);
      if !effect.Write? {
        return effect.Refused?;
      }
      RegisterManagedWrites(state.Contents(), userKeyID, req, groupID, ids);
      var token := ManagedToken(state.Contents().tokens, Text.TrimSpace(userKeyID))[0];
      AppendReservations(NewReservations(req, token, groupID, ids));
      failed := SaveLocked(outcome);
    }

    /** The rebinding loop: each reservation is rewritten through its index. */
    method RebindReservations(keys: seq<ManagedKey>, previous: map<string, Token>, groups: nat -> string)
      requires Shadowed()
      modifies state.reservations.rows
      ensures Shadowed() && state == old(state)
      ensures var s := old(state.Contents());
              state.Contents() == s.(reservations := Rebound(s.reservations, keys, previous, groups))
    {
      hide Rebind;
      var rows := state.reservations.rows;
      for i := 0 to state.reservations.len
        invariant forall j :: 0 <= j < i ==> rows[j] == Rebind(old(rows[j]), keys, previous, groups(j))
        invariant forall j :: i <= j < rows.Length ==> rows[j] == old(rows[j])
      {
        rows[i] := Rebind(rows[i], keys, previous, groups(i));
      }
    }

    method ReplaceKeys(snap: Snapshot, groups: nat -> string, now: Time)
      requires Shadowed()
      modifies this`state, state.reservations.rows
      ensures Shadowed()
      ensures var s := old(state.Contents());
              state.Contents() == s.(reservations := Rebound(s.reservations, snap.keys, TokensByHash(s.tokens), groups),
                                     tokens := ManagedTokens(snap.keys, now), managedKeys := true,
                                     keySnapshotID := snap.snapshotID)
    {
      hide Image.Contents, Rebound, ManagedTokens, TokensByHash;
      RebindReservations(snap.keys, TokensByHash(state.Contents().tokens), groups);
      InstallKeys(ManagedTokens(snap.keys, now), snap.snapshotID);
    }

    method InstallKeys(tokens: seq<Token>, snapshotID: string)
      requires Shadowed()
      modifies this`state
      ensures Shadowed()
      ensures state.Contents()
           == old(state.Contents()).(tokens := tokens, managedKeys := true, keySnapshotID := snapshotID)
    {
      var managed := Make(tokens);
      state := state.(tokens := managed, managedKeys := true, keySnapshotID := snapshotID);
    }

    method BindAuthority(authorityID: string)
      requires Shadowed()
      modifies this`state
      ensures Shadowed() && state.Arrays() == old(state.Arrays()) && state.reservations == old(state).reservations
      ensures state.Contents() == old(state.Contents()).(managedKeyAuthority := authorityID)
    {
      state := state.(managedKeyAuthority := authorityID);
    }

    method SyncManagedUserKeys(snap: Snapshot, groups: nat -> string, now: Time, outcome: SaveOutcome)
      returns (failed: bool)
      requires Settled()
      modifies this, state.Arrays()
      ensures Settled() && disk == After(Sync(old(disk), snap, groups, now), old(disk), outcome)
      ensures failed == Fails(Sync(old(disk), snap, groups, now), outcome)
    {
      hide Image.Contents, Rebind, Rebound, ManagedTokens, TokensByHash, Snapshot.WellFormed;
      var authority := state.Contents().managedKeyAuthority;
      if !snap.WellFormed() || (authority != "" && snap.authorityID != authority) {
        return true;
      }
      ghost var s := state.Contents();
      var bound := authority == "" && snap.authorityID != "";
      if authority == "" {
        BindAuthority(snap.authorityID);
      }
      if state.Contents().managedKeys && state.Contents().keySnapshotID == snap.snapshotID {
        if !bound {
          return false;
        }
        failed := SaveLocked(outcome);
        return;
      }
      SyncWrites(s, snap, groups, now);
      failed := SaveKeys(snap, groups, now, outcome);
    }

    method SaveKeys(snap: Snapshot, groups: nat -> string, now: Time, outcome: SaveOutcome) returns (failed: bool)
      requires Shadowed()
      modifies this, state.reservations.rows
      ensures Settled()
      ensures var s := old(state.Contents());
              disk == if outcome.NotWritten? then old(disk)
                      else s.(reservations := Rebound(s.reservations, snap.keys, TokensByHash(s.tokens), groups),
                              tokens := ManagedTokens(snap.keys, now), managedKeys := true,
                              keySnapshotID := snap.snapshotID)
      ensures failed == !outcome.Renamed?
    {
      hide Image.Contents, Rebound, ManagedTokens, TokensByHash;
      ReplaceKeys(snap, groups, now);
      failed := SaveLocked(outcome);
    }

    method RevokeTokens(id: string, start: string) returns (hash: string)
      requires Shadowed()
      modifies state.tokens.rows
      ensures Shadowed() && state == old(state)
      ensures var r := StoreOps.RevokeTokens(old(state.Contents()).tokens, id, start);
              hash == r.1 && state.Contents() == old(state.Contents()).(tokens := r.0)
    {
      hash := RevokeSlice(state.tokens, id, start);
    }

    method RevokeRows(id: string, hash: string, clock: Time)
      requires Shadowed()
      modifies state.reservations.rows, state.authorizations.rows, state.leases.rows, state.bypasses.rows
      ensures Shadowed() && state == old(state)
      ensures state.Contents() == Marked(old(state.Contents()), id, hash, clock)
    {
      hide Map;
      UpdateReservations((r: Reservation) => if Names(id, hash, r.id, r.tokenHash) then r.(revoked := true) else r);
      UpdateAuthorizations((a: Authorization) => if Names(id, hash, a.id, a.tokenHash) then a.(revoked := true) else a);
      UpdateLeases((l: Lease) => if Names(id, hash, l.id, l.tokenHash) then l.(expiresAt := clock) else l);
      UpdateBypasses((b: BypassRule) => if b.id == id then b.(revoked := true) else b);
    }

    method ReplaceScopes(auths: seq<Authorization>, ls: seq<Lease>)
      requires Shadowed()
      modifies this`state
      ensures Shadowed()
      ensures state.Contents() == old(state.Contents()).(authorizations := auths, leases := ls)
    {
      var authorizations := Make(auths);
      var leases := Make(ls);
      state := state.(authorizations := authorizations, leases := leases);
    }

    method ReplaceGrants(ts: seq<Token>, rs: seq<Reservation>)
      requires Shadowed()
      modifies this`state
      ensures Shadowed()
      ensures state.Contents() == old(state.Contents()).(tokens := ts, reservations := rs)
    {
      var tokens := Make(ts);
      var reservations := Make(rs);
      state := state.(tokens := tokens, reservations := reservations);
    }

    method PruneInactiveManagedScopes(auths: set<string>, ls: set<string>, outcome: SaveOutcome) returns (failed: bool)
      requires Settled()
      modifies this, state.Arrays()
      ensures Settled() && disk == After(StoreOps.PruneInactiveManagedScopes(old(disk), auths, ls), old(disk), outcome)
      ensures failed == Fails(StoreOps.PruneInactiveManagedScopes(old(disk), auths, ls), outcome)
    {
      hide Image.Contents, Filter;
      var keepAuth := (a: Authorization) => !(a.id in auths && !a.active && a.cgroupPath != "");
      var keepLease := (l: Lease) => !(l.id in ls && !l.active && l.cgroupPath != "");
      var rows, leases := state.Contents().authorizations, state.Contents().leases;
      var keptAuths, keptLeases := Filter(keepAuth, rows), Filter(keepLease, leases);
      if |keptAuths| == |rows| && |keptLeases| == |leases| {
        FilterSameLength(keepAuth, rows);
        FilterSameLength(keepLease, leases);
        return false;
      }
      ReplaceScopes(keptAuths, keptLeases);
      failed := SaveLocked(outcome);
    }

    method PruneUnreferenced(now: Time, outcome: SaveOutcome) returns (failed: bool)
      requires Settled()
      modifies this, state.Arrays()
      ensures Settled() && disk == After(StoreOps.PruneUnreferenced(old(disk), now), old(disk), outcome)
      ensures failed == Fails(StoreOps.PruneUnreferenced(old(disk), now), outcome)
    {
      hide Image.Contents, Filter, Referenced, TokensByHash, HashValid, ReservationLive;
      var needed, index := Referenced(state.Contents()), TokensByHash(state.Contents().tokens);
      var keepRow := (r: Reservation) => (ReservationLive(r) && now < r.expiresAt) || r.tokenHash in needed;
      var keepToken := (t: Token) => HashValid(index, t.hash, now) || t.hash in needed;
      var rows, tokens := state.Contents().reservations, state.Contents().tokens;
      var keptReservations, keptTokens := Filter(keepRow, rows), Filter(keepToken, tokens);
      if |keptReservations| == |rows| && |keptTokens| == |tokens| {
        FilterSameLength(keepRow, rows);
        FilterSameLength(keepToken, tokens);
        return false;
      }
      ReplaceGrants(keptTokens, keptReservations);
      failed := SaveLocked(outcome);
    }

    method MarkGrant(id: string, start: string, clock: Time) returns (hash: string)
      requires Shadowed()
      modifies state.tokens.rows, state.reservations.rows, state.authorizations.rows
      modifies state.leases.rows, state.bypasses.rows
      ensures Shadowed() && state == old(state)
      ensures var r := StoreOps.RevokeTokens(old(state.Contents()).tokens, id, start);
              hash == r.1 && state.Contents() == Marked(old(state.Contents()).(tokens := r.0), id, r.1, clock)
    {
      hide Marked, StoreOps.RevokeTokens;
      hash := RevokeTokens(id, start);
      RevokeRows(id, hash, clock);
    }

    /** `Revoke`: everything named is marked in place; an unknown name is an error and changes nothing. */
    method Revoke(id: string, secretHash: string, clock: Time, outcome: SaveOutcome) returns (failed: bool)
      requires Settled()
      modifies this, state.Arrays()
      ensures Settled() && disk == After(StoreOps.Revoke(old(disk), id, secretHash, clock), old(disk), outcome)
      ensures failed == Fails(StoreOps.Revoke(old(disk), id, secretHash, clock), outcome)
    {
      hide Image.Contents, Image.Arrays, Image.Valid;
      hide ManagedGroup, ManagedHashes, ResolveRevokedHash, StoreOps.RevokeGroup, StoreOps.RevokeGrant;
      var group := ManagedGroup(state.Contents().reservations, ManagedHashes(state.Contents()), id);
      if group != "" {
        failed := RevokeGroup(group, outcome);
      } else {
        failed := RevokeGrant(id, ResolveRevokedHash(state.Contents(), id, secretHash), clock, outcome);
      }
    }

    method RevokeGroup(group: string, outcome: SaveOutcome) returns (failed: bool)
      requires Settled()
      modifies this, state.Arrays()
      ensures Settled() && disk == After(StoreOps.RevokeGroup(old(disk), group), old(disk), outcome)
      ensures failed == Fails(StoreOps.RevokeGroup(old(disk), group), outcome)
    {
      hide Image.Contents, GroupOf, Map;
      var changed := exists r :: r in state.Contents().reservations && GroupOf(r) == group && !r.revoked;
      if !changed {
        return false;
      }
      UpdateReservations((r: Reservation) => if GroupOf(r) == group then r.(revoked := true) else r);
      failed := SaveLocked(outcome);
    }

    method RevokeGrant(id: string, start: string, clock: Time, outcome: SaveOutcome) returns (failed: bool)
      requires Settled()
      modifies this, state.Arrays()
      ensures Settled() && disk == After(StoreOps.RevokeGrant(old(disk), id, start, clock), old(disk), outcome)
      ensures failed == Fails(StoreOps.RevokeGrant(old(disk), id, start, clock), outcome)
    {
      hide Image.Contents, StoreOps.RevokeTokens, Marked, Touched, Filter;
      ghost var s := state.Contents();
      var before := |state.Contents().softClaims|;
      var changed := Touched(state.Contents(), id, start, StoreOps.RevokeTokens(state.Contents().tokens, id, start).1);
      var hash := MarkGrant(id, start, clock);
      MarkedKeepsClaims(s.(tokens := StoreOps.RevokeTokens(s.tokens, id, start).0), id, hash, clock);
      if !changed {
        UntouchedUnchanged(s, id, start, clock);
        if hash == "" {
          return true;
        }
      }
      FilterSoftClaims((c: SoftClaim) => c.id != id);
      if !changed && |state.Contents().softClaims| == before {
        FilterSameLength((c: SoftClaim) => c.id != id, s.softClaims);
        return true;
      }
      failed := SaveLocked(outcome);
    }

    /** Registrations, syncs and revocations. */
    method ExecuteGrant(op: Op, outcome: SaveOutcome) returns (failed: bool)
      requires Settled()
      requires op.RegisterScheduledOp? || op.RegisterManagedOp? || op.RegisterTokenOp? || op.SyncOp? || op.RevokeOp?
      modifies this, state.Arrays()
      ensures Settled() && disk == After(Perform(old(disk), op), old(disk), outcome)
      ensures failed == Fails(Perform(old(disk), op), outcome)
    {
      hide Image.Contents, Image.Arrays, Image.Valid;
      hide After, StoreOps.RegisterScheduled, StoreOps.RegisterManaged, StoreOps.RegisterToken, Sync;
      hide StoreOps.Revoke;
      if op.RegisterScheduledOp? {
        failed := RegisterScheduled(op.req, op.token, op.ids, outcome);
      } else if op.RegisterManagedOp? {
        failed := RegisterManaged(op.userKeyID, op.req, op.groupID, op.ids, outcome);
      } else if op.RegisterTokenOp? {
        failed := RegisterToken(op.token, op.now, outcome);
      } else if op.SyncOp? {
        failed := SyncManagedUserKeys(op.snap, op.groups, op.now, outcome);
      } else {
        failed := Revoke(op.id, op.secretHash, op.now, outcome);
      }
    }

    /** Authorizations, claims and bypasses. */
    method ExecuteScope(op: Op, outcome: SaveOutcome) returns (failed: bool)
      requires Settled()
      requires || op.AddAuthorizationOp? || op.ActivateAuthorizationOp? || op.ReleaseAuthorizationOp?
               || op.UpsertSoftClaimOp? || op.ReleaseSoftClaimOp? || op.AddBypassOp?
      modifies this, state.Arrays()
      ensures Settled() && disk == After(Perform(old(disk), op), old(disk), outcome)
      ensures failed == Fails(Perform(old(disk), op), outcome)
    {
      hide Image.Contents, Image.Arrays, Image.Valid;
      hide After, StoreOps.AddAuthorization, StoreOps.ActivateAuthorization;
      hide StoreOps.ReleaseAuthorization;
      hide StoreOps.UpsertSoftClaim, StoreOps.ReleaseSoftClaim, StoreOps.AddBypass;
      if op.AddAuthorizationOp? {
        failed := AddAuthorization(op.authorization, op.now, outcome);
      } else if op.ActivateAuthorizationOp? {
        failed := ActivateAuthorization(op.id, op.rootPID, outcome);
      } else if op.ReleaseAuthorizationOp? {
        failed := ReleaseAuthorization(op.id, outcome);
      } else if op.UpsertSoftClaimOp? {
        failed := UpsertSoftClaim(op.claim, op.freshID, op.now, outcome);
      } else if op.ReleaseSoftClaimOp? {
        failed := ReleaseSoftClaim(op.id, outcome);
      } else {
        failed := AddBypass(op.rule, outcome);
      }
    }

    /** Releases and prunes at the end of a pass. */
    method ExecuteCleanup(op: Op, outcome: SaveOutcome) returns (failed: bool)
      requires Settled()
      requires op.ReleaseScopesOp? || op.PruneOp? || op.PruneInactiveManagedScopesOp? || op.PruneUnreferencedOp?
      modifies this, state.Arrays()
      ensures Settled() && disk == After(Perform(old(disk), op), old(disk), outcome)
      ensures failed == Fails(Perform(old(disk), op), outcome)
    {
      hide Image.Contents, Image.Arrays, Image.Valid;
      hide After, StoreOps.ReleaseScopes, StoreOps.Prune, StoreOps.PruneInactiveManagedScopes;
      hide StoreOps.PruneUnreferenced;
      if op.ReleaseScopesOp? {
        failed := ReleaseScopes(op.reservationIDs, op.authorizationIDs, op.leaseIDs, outcome);
      } else if op.PruneOp? {
        failed := Prune(op.now, outcome);
      } else if op.PruneInactiveManagedScopesOp? {
        failed := PruneInactiveManagedScopes(op.authorizationIDs, op.leaseIDs, outcome);
      } else {
        failed := PruneUnreferenced(op.now, outcome);
      }
    }

    /**
     Any store operation, whatever its save does: the working state, the shadow and the state file
     agree afterwards, on the new state if the rename happened and on the old one if not.
     */
    method Execute(op: Op, outcome: SaveOutcome) returns (failed: bool)
      requires Settled()
      modifies this, state.Arrays()
      ensures Settled() && disk == Apply(old(disk), op, !outcome.NotWritten?)
      ensures failed == Fails(Perform(old(disk), op), outcome)
    {
      hide Image.Contents, Apply, After, Perform;
      ApplyIsAfter(disk, op, outcome);
      if op.RegisterScheduledOp? || op.RegisterManagedOp? || op.RegisterTokenOp? || op.SyncOp? || op.RevokeOp? {
        failed := ExecuteGrant(op, outcome);
      } else if op.ReleaseScopesOp? || op.PruneOp? || op.PruneInactiveManagedScopesOp? || op.PruneUnreferencedOp? {
        failed := ExecuteCleanup(op, outcome);
      } else {
        failed := ExecuteScope(op, outcome);
      }
    }
  }
}
