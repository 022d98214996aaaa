/**
 What each store operation does to the persisted state, as functions.  An operation is
 refused, changes nothing, or asks for a new state to be written.  Identifiers and hashes
 that the store draws at random are parameters.
 */
module StoreOps {
  import opened Model
  import opened Sequences
  import opened Text

  const MAX_HARD_TTL: int := 30 * 24 * 3600 * 1_000_000_000
  const MAX_TOTAL_TOKENS := 4096
  const MAX_TOTAL_RESERVATIONS := 4096
  const MAX_TOTAL_AUTHORIZATIONS := 4096
  const MAX_TOTAL_BYPASSES := 1024
  const MAX_ACTIVE_TOKENS_PER_HOLDER := 8
  const MAX_ACTIVE_AUTHORIZATIONS_PER_TOKEN := 64
  const MAX_GPU_INDEX := 1023

  datatype Effect = Refused | NoChange | Write(state: State)

  /** A reservation request; `start` is the requested start, or unset. */
  datatype Request = Request(
    name: string, purpose: string, externalSessionID: string,
    gpus: seq<int>, start: Time, expiresAt: Time, now: Time)
  {
    function StartsAt(): Time { if IsSet(start) then start else now }

    predicate WellFormed() {
      && StartsAt() < expiresAt
      && now < expiresAt
      && expiresAt - StartsAt() <= MAX_HARD_TTL
      && 0 < |gpus| <= MAX_TOTAL_RESERVATIONS
      && NoDup(gpus)
      && forall g :: g in gpus ==> 0 <= g
    }
  }

  function NormalizeHolder(holder: string): string {
    var h := ToLower(TrimSpace(holder));
    if h == "" then "anonymous" else h
  }

  function CountWhere<T>(p: T -> bool, s: seq<T>): nat {
    if s == [] then 0 else CountWhere(p, s[..|s| - 1]) + if p(s[|s| - 1]) then 1 else 0
  }

  predicate TokenCapacity(s: State, t: Token, now: Time) {
    && |s.tokens| < MAX_TOTAL_TOKENS
    && (TokenActiveAt(t, now) ==>
          CountWhere((u: Token) => TokenActiveAt(u, now) && NormalizeHolder(u.name) == NormalizeHolder(t.name),
                     s.tokens)
          < MAX_ACTIVE_TOKENS_PER_HOLDER)
  }

  /** Some existing live reservation on `gpu` overlaps the half-open window. */
  predicate Conflict(rs: seq<Reservation>, gpu: int, startsAt: Time, expiresAt: Time) {
    exists r :: r in rs && r.gpu == gpu && ReservationOverlaps(r, startsAt, expiresAt)
  }

  function NewReservations(req: Request, token: Token, groupID: string, ids: nat -> string): (rs: seq<Reservation>)
    ensures |rs| == |req.gpus|
  {
    seq(|req.gpus|, i requires 0 <= i < |req.gpus| =>
      Reservation(ids(i), groupID, TrimSpace(req.externalSessionID), req.gpus[i], token.hash, token.name,
                  TrimSpace(req.purpose), req.now, req.StartsAt(), req.expiresAt, true, false))
  }

  /** The session id was used before: the request is answered from, or refused by, the old rows. */
  predicate SessionUsed(s: State, req: Request) {
    TrimSpace(req.externalSessionID) != "" &&
    exists r :: r in s.reservations && r.externalSessionID == TrimSpace(req.externalSessionID)
  }

  predicate SameReservationRequest(existing: seq<Reservation>, name: string, req: Request) {
    && |existing| == |req.gpus|
    && forall r :: r in existing ==>
         && r.gpu in req.gpus
         && ToLower(TrimSpace(r.holder)) == ToLower(TrimSpace(name))
         && TrimSpace(r.purpose) == TrimSpace(req.purpose)
         && ReservationStartsAt(r) == req.StartsAt()
         && r.expiresAt == req.expiresAt
  }

  function SessionRows(s: State, req: Request): seq<Reservation> {
    Filter((r: Reservation) => r.externalSessionID == TrimSpace(req.externalSessionID), s.reservations)
  }

  function RegisterScheduled(s: State, req: Request, token: Token, ids: nat -> string): Effect {
    if !req.WellFormed() then Refused
    else if SessionUsed(s, req) then
      var rows := SessionRows(s, req);
      var i := IndexWhere((t: Token) => t.hash == rows[0].tokenHash, s.tokens);
      if i < |s.tokens| && s.tokens[i].id != "" && s.tokens[i].secret != ""
         && SameReservationRequest(rows, req.name, req)
      then NoChange else Refused
    else if !TokenCapacity(s, token, req.now) then Refused
    else if |s.reservations| + |req.gpus| > MAX_TOTAL_RESERVATIONS then Refused
    else if exists g :: g in req.gpus && Conflict(s.reservations, g, req.StartsAt(), req.expiresAt) then Refused
    else if exists g :: g in req.gpus && MAX_GPU_INDEX < g then Refused
    else Write(s.(tokens := s.tokens + [token],
                  reservations := s.reservations + NewReservations(req, token, "", ids)))
  }

  /** The first managed, unrevoked token with the given id. */
  function ManagedToken(tokens: seq<Token>, id: string): seq<Token> {
    Filter((t: Token) => t.id == id && t.managed && !t.revoked, tokens)
  }

  /** A well-formed request under the managed key `token`; a repeated session must ask for the same. */
  function AdmitManaged(s: State, token: Token, req: Request, groupID: string, ids: nat -> string): Effect
    requires req.WellFormed()
  {
    if SessionUsed(s, req) then
      var rows := SessionRows(s, req);
      if rows[0].tokenHash == token.hash && SameReservationRequest(rows, token.name, req) then NoChange else Refused
    else if |s.reservations| + |req.gpus| > MAX_TOTAL_RESERVATIONS then Refused
    else if exists g :: g in req.gpus && Conflict(s.reservations, g, req.StartsAt(), req.expiresAt) then Refused
    else Write(s.(reservations := s.reservations + NewReservations(req, token, groupID, ids)))
  }

  function RegisterManaged(s: State, userKeyID: string, req: Request, groupID: string, ids: nat -> string): Effect {
    var candidates := ManagedToken(s.tokens, TrimSpace(userKeyID));
    if !req.WellFormed() || (exists g :: g in req.gpus && MAX_GPU_INDEX < g) || !s.managedKeys then Refused
    else if candidates == [] || candidates[0].id == "" then Refused
    else AdmitManaged(s, candidates[0], req, groupID, ids)
  }

  function RegisterToken(s: State, token: Token, now: Time): Effect {
    if TokenCapacity(s, token, now) then Write(s.(tokens := s.tokens + [token])) else Refused
  }

  datatype ManagedKey = ManagedKey(id: string, owner: string, hash: string, version: int)

  datatype Snapshot = Snapshot(snapshotID: string, authorityID: string, keys: seq<ManagedKey>)
  {
    /** The snapshot is a complete one-key-per-owner assignment. */
    predicate WellFormed() {
      && snapshotID != ""
      && |keys| <= MAX_TOTAL_TOKENS
      && (forall k :: k in keys ==> k.id != "" && k.hash != "" && 1 <= k.version)
      && (forall i, j :: 0 <= i < j < |keys| ==>
            && keys[i].id != keys[j].id
            && keys[i].hash != keys[j].hash
            && NormalizeHolder(keys[i].owner) != NormalizeHolder(keys[j].owner))
    }
  }

  function ManagedTokens(keys: seq<ManagedKey>, now: Time): seq<Token> {
    Map((k: ManagedKey) =>
      Token(k.id, k.hash, "", NormalizeHolder(k.owner), Managed, k.version, true, now, 0, false), keys)
  }

  function OwnerHash(keys: seq<ManagedKey>, holder: string): (h: seq<string>)
    ensures |h| <= 1
  {
    if keys == [] then []
    else if NormalizeHolder(keys[0].owner) == NormalizeHolder(holder) then [keys[0].hash]
    else OwnerHash(keys[1..], holder)
  }

  /** Key replacement keeps every reservation; only its group and token hash may be rewritten. */
  function Rebind(r: Reservation, keys: seq<ManagedKey>, previous: map<string, Token>, freshGroup: string): Reservation
  {
    var group :=
      if r.groupID != "" then r.groupID
      else if r.tokenHash in previous && previous[r.tokenHash].id != "" then previous[r.tokenHash].id
      else freshGroup;
    var owner := OwnerHash(keys, r.holder);
    r.(groupID := group, tokenHash := if owner == [] then r.tokenHash else owner[0])
  }

  function Rebound(rs: seq<Reservation>, keys: seq<ManagedKey>, previous: map<string, Token>,
                   groups: nat -> string): seq<Reservation>
  {
    seq(|rs|, i requires 0 <= i < |rs| => Rebind(rs[i], keys, previous, groups(i)))
  }

  function Sync(s: State, snap: Snapshot, groups: nat -> string, now: Time): Effect {
    if !snap.WellFormed() then Refused
    else if s.managedKeyAuthority != "" && snap.authorityID != s.managedKeyAuthority then Refused
    else
      var bound := if s.managedKeyAuthority == "" then s.(managedKeyAuthority := snap.authorityID) else s;
      if s.managedKeys && s.keySnapshotID == snap.snapshotID then
        (if bound == s then NoChange else Write(bound))
      else
        var previous := TokensByHash(s.tokens);
        Write(bound.(
          reservations := Rebound(s.reservations, snap.keys, previous, groups),
          tokens := ManagedTokens(snap.keys, now),
          managedKeys := true,
          keySnapshotID := snap.snapshotID))
  }

  function GroupOf(r: Reservation): string { if r.groupID == "" then r.id else r.groupID }

  /** The first managed reservation or group that `id` names, or `""`. */
  function ManagedGroup(rs: seq<Reservation>, managed: set<string>, id: string): string {
    if rs == [] then ""
    else if rs[0].tokenHash in managed && (rs[0].id == id || GroupOf(rs[0]) == id) then GroupOf(rs[0])
    else ManagedGroup(rs[1..], managed, id)
  }

  predicate TokenNamed(t: Token, id: string, hash: string) { t.id == id || (hash != "" && t.hash == hash) }

  /** The hash of the first token `id` or `hash` names, else `hash`. */
  function NamedTokenHash(tokens: seq<Token>, id: string, hash: string): string {
    if tokens == [] then hash
    else if TokenNamed(tokens[0], id, hash) then tokens[0].hash
    else NamedTokenHash(tokens[1..], id, hash)
  }

  function NamedReservationHash(rs: seq<Reservation>, id: string): string {
    if rs == [] then "" else if rs[0].id == id then rs[0].tokenHash else NamedReservationHash(rs[1..], id)
  }

  /** The revoking loop over tokens: it follows the hash of the last token it revoked. */
  function RevokeTokens(tokens: seq<Token>, id: string, hash: string): (r: (seq<Token>, string))
    ensures |r.0| == |tokens|
  {
    if tokens == [] then ([], hash)
    else
      var named := TokenNamed(tokens[0], id, hash);
      var rest := RevokeTokens(tokens[1..], id, if named then tokens[0].hash else hash);
      ([if named then tokens[0].(revoked := true) else tokens[0]] + rest.0, rest.1)
  }

  function ManagedHashes(s: State): set<string> {
    set t | t in s.tokens && t.managed :: t.hash
  }

  function ResolveRevokedHash(s: State, id: string, secretHash: string): string {
    var h := NamedTokenHash(s.tokens, id, secretHash);
    if h == "" then NamedReservationHash(s.reservations, id) else h
  }

  /** The name of a revocation, or the token hash it resolved to, fits the row. */
  predicate Names(id: string, hash: string, rowID: string, rowHash: string) {
    rowID == id || (hash != "" && rowHash == hash)
  }

  /** The reservations a revocation of `id` marks. */
  predicate RevokeHits(s: State, id: string, secretHash: string, r: Reservation) {
    var group := ManagedGroup(s.reservations, ManagedHashes(s), id);
    if group != "" then GroupOf(r) == group
    else Names(id, RevokeTokens(s.tokens, id, ResolveRevokedHash(s, id, secretHash)).1, r.id, r.tokenHash)
  }

  /** Everything a revocation marks besides tokens. */
  function Marked(s: State, id: string, hash: string, clock: Time): State {
    s.(reservations := Map((r: Reservation) =>
         if Names(id, hash, r.id, r.tokenHash) then r.(revoked := true) else r, s.reservations),
       authorizations := Map((a: Authorization) =>
         if Names(id, hash, a.id, a.tokenHash) then a.(revoked := true) else a, s.authorizations),
       leases := Map((l: Lease) =>
         if Names(id, hash, l.id, l.tokenHash) then l.(expiresAt := clock) else l, s.leases),
       bypasses := Map((b: BypassRule) => if b.id == id then b.(revoked := true) else b, s.bypasses))
  }

  /** Some row besides claims carries the name. */
  predicate Touched(s: State, id: string, start: string, hash: string) {
    || (exists t :: t in s.tokens && TokenNamed(t, id, start))
    || (exists r :: r in s.reservations && Names(id, hash, r.id, r.tokenHash))
    || (exists a :: a in s.authorizations && Names(id, hash, a.id, a.tokenHash))
    || (exists l :: l in s.leases && Names(id, hash, l.id, l.tokenHash))
    || (exists b :: b in s.bypasses && b.id == id)
  }

  /** A managed group is revoked as a whole, and nothing else with it. */
  function RevokeGroup(s: State, group: string): Effect {
    if exists r :: r in s.reservations && GroupOf(r) == group && !r.revoked then
      Write(s.(reservations := Map((r: Reservation) =>
        if GroupOf(r) == group then r.(revoked := true) else r, s.reservations)))
    else NoChange
  }

  function RevokeGrant(s: State, id: string, start: string, clock: Time): Effect {
    var (tokens, hash) := RevokeTokens(s.tokens, id, start);
    var claims := Filter((c: SoftClaim) => c.id != id, s.softClaims);
    if Touched(s, id, start, hash) || (hash != "" && |claims| < |s.softClaims|) then
      Write(Marked(s.(tokens := tokens), id, hash, clock).(softClaims := claims))
    else Refused
  }

  /** `secretHash` is the hash of `id` when `id` has the form of a token secret, else `""`. */
  function Revoke(s: State, id: string, secretHash: string, clock: Time): Effect {
    var group := ManagedGroup(s.reservations, ManagedHashes(s), id);
    if group != "" then RevokeGroup(s, group)
    else RevokeGrant(s, id, ResolveRevokedHash(s, id, secretHash), clock)
  }

  function Released(s: State, rs: set<string>, auths: set<string>, ls: set<string>): State {
    s.(reservations := Map((r: Reservation) => if r.id in rs then r.(active := false) else r, s.reservations),
       authorizations := Map((a: Authorization) =>
         if a.id in auths then a.(active := false) else a, s.authorizations),
       leases := Map((l: Lease) => if l.id in ls then l.(active := false) else l, s.leases))
  }

  function ReleaseScopes(s: State, rs: set<string>, auths: set<string>, ls: set<string>): Effect {
    if Released(s, rs, auths, ls) == s then NoChange else Write(Released(s, rs, auths, ls))
  }

  function AddAuthorization(s: State, a: Authorization, now: Time): Effect {
    if |s.authorizations| >= MAX_TOTAL_AUTHORIZATIONS then Refused
    else if AuthorizationActiveAt(a, now) &&
            CountWhere((b: Authorization) => b.tokenHash == a.tokenHash && AuthorizationActiveAt(b, now),
                       s.authorizations)
            >= MAX_ACTIVE_AUTHORIZATIONS_PER_TOKEN then Refused
    else Write(s.(authorizations := s.authorizations + [a]))
  }

  function ActivateAuthorization(s: State, id: string, rootPID: int): Effect {
    var i := IndexWhere((a: Authorization) => a.id == id, s.authorizations);
    if rootPID <= 0 || i == |s.authorizations| then Refused
    else if !s.authorizations[i].active || s.authorizations[i].revoked || s.authorizations[i].rootPID != 0 then Refused
    else Write(s.(authorizations := s.authorizations[i := s.authorizations[i].(rootPID := rootPID)]))
  }

  function ReleaseAuthorization(s: State, id: string): Effect {
    var i := IndexWhere((a: Authorization) => a.id == id, s.authorizations);
    if i == |s.authorizations| then NoChange
    else Write(s.(authorizations := s.authorizations[i := s.authorizations[i].(active := false)]))
  }

  /** The claim as it is first stored. */
  function Stamped(claim: SoftClaim, freshID: string, now: Time): SoftClaim {
    claim.(id := if claim.id == "" then freshID else claim.id,
           createdAt := if IsSet(claim.createdAt) then claim.createdAt else now,
           updatedAt := now)
  }

  /** Where the claim of that GPU and token is, or the length. */
  function ClaimIndex(claims: seq<SoftClaim>, gpu: int, hash: string): (i: nat)
    ensures i <= |claims|
    ensures i < |claims| ==> claims[i].gpu == gpu && claims[i].tokenHash == hash
    ensures forall j :: 0 <= j < i ==> claims[j].gpu != gpu || claims[j].tokenHash != hash
  {
    IndexWhere((o: SoftClaim) => o.gpu == gpu && o.tokenHash == hash, claims)
  }

  function Placed(claims: seq<SoftClaim>, c: SoftClaim): seq<SoftClaim> {
    var i := ClaimIndex(claims, c.gpu, c.tokenHash);
    if i == |claims| then claims + [c]
    else claims[i := c.(id := claims[i].id, createdAt := claims[i].createdAt)]
  }

  function UpsertSoftClaim(s: State, claim: SoftClaim, freshID: string, now: Time): Effect {
    Write(s.(softClaims := Placed(s.softClaims, Stamped(claim, freshID, now))))
  }

  function ReleaseSoftClaim(s: State, id: string): Effect {
    var kept := Filter((c: SoftClaim) => c.id != id, s.softClaims);
    if |kept| == |s.softClaims| then NoChange else Write(s.(softClaims := kept))
  }

  function AddBypass(s: State, rule: BypassRule): Effect {
    if |s.bypasses| < MAX_TOTAL_BYPASSES then Write(s.(bypasses := s.bypasses + [rule])) else Refused
  }

  /** Hashes that still have a live, unexpired reservation. */
  function LiveHashes(rs: seq<Reservation>, now: Time): set<string> {
    set r | r in rs && ReservationLive(r) && now < r.expiresAt && r.tokenHash != "" :: r.tokenHash
  }

  /** A token that pruning drops: revoked, expired, or reserved without a live reservation. */
  predicate TokenDead(t: Token, live: set<string>, now: Time) {
    t.revoked || TokenExpired(t, now) || (t.mode.Reserved? && t.hash !in live)
  }

  function DeadHashes(s: State, now: Time): set<string> {
    set t | t in s.tokens && TokenDead(t, LiveHashes(s.reservations, now), now) && t.hash != "" :: t.hash
  }

  function PrunedState(s: State, now: Time): State {
    var dead := DeadHashes(s, now);
    var live := LiveHashes(s.reservations, now);
    s.(tokens := Filter((t: Token) => !TokenDead(t, live, now), s.tokens),
       reservations := Filter((r: Reservation) => ReservationLive(r) && now < r.expiresAt && r.tokenHash !in dead,
                              s.reservations),
       authorizations := Filter((a: Authorization) => AuthorizationActiveAt(a, now) && a.tokenHash !in dead,
                                s.authorizations),
       leases := Filter((l: Lease) => l.active && now < l.expiresAt && l.tokenHash !in dead, s.leases),
       bypasses := Filter((b: BypassRule) => !b.revoked && now < b.expiresAt, s.bypasses))
  }

  function AuthorizationIDs(auths: seq<Authorization>): set<string> {
    set a | a in auths :: a.id
  }

  function ClaimOutlives(dead: set<string>, kept: set<string>): SoftClaim -> bool {
    (c: SoftClaim) => c.tokenHash !in dead && c.authorizationID in kept
  }

  function Prune(s: State, now: Time): Effect {
    var pruned := PrunedState(s, now);
    if pruned == s then NoChange
    else
      var dead := DeadHashes(s, now);
      var kept := AuthorizationIDs(pruned.authorizations);
      Write(pruned.(softClaims := Filter(ClaimOutlives(dead, kept), s.softClaims)))
  }

  function PruneInactiveManagedScopes(s: State, authorizationIDs: set<string>, leaseIDs: set<string>): Effect {
    var pruned := s.(
      authorizations := Filter((a: Authorization) => !(a.id in authorizationIDs && !a.active && a.cgroupPath != ""),
                               s.authorizations),
      leases := Filter((l: Lease) => !(l.id in leaseIDs && !l.active && l.cgroupPath != ""), s.leases));
    if pruned == s then NoChange else Write(pruned)
  }

  /** Hashes that scopes outside managed cgroups still refer to. */
  function Referenced(s: State): set<string> {
    (set a | a in s.authorizations && a.cgroupPath == "" && a.tokenHash != "" :: a.tokenHash) +
    (set l | l in s.leases && l.cgroupPath == "" && l.tokenHash != "" :: l.tokenHash)
  }

  predicate HashValid(tokens: map<string, Token>, hash: string, now: Time) {
    hash in tokens && TokenActiveAt(tokens[hash], now)
  }

  function PruneUnreferenced(s: State, now: Time): Effect {
    var needed := Referenced(s);
    var index := TokensByHash(s.tokens);
    var pruned := s.(
      reservations := Filter((r: Reservation) => (ReservationLive(r) && now < r.expiresAt) || r.tokenHash in needed,
                             s.reservations),
      tokens := Filter((t: Token) => HashValid(index, t.hash, now) || t.hash in needed, s.tokens));
    if pruned == s then NoChange else Write(pruned)
  }
}
