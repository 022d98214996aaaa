/**
 The persisted records of the daemon and their time predicates.
 */
module Model {

  /** Instants in nanoseconds; `0` is Go's zero time, the "not set" value. */
  type Time = int

  predicate IsSet(t: Time) { t != 0 }

  datatype ScopeMode = Bare | Docker | K8s | User | OtherScope

  /** A token mode after normalisation (an empty mode is `Claimed`). */
  datatype TokenMode = Reserved | Claimed | Managed | OtherMode

  datatype GPUProcess = GPUProcess(gpu: int, pid: int, memBytes: nat, memBytesUnknown: bool)

  datatype ProcInfo = ProcInfo(
    pid: int, startTime: nat, uid: int, username: string,
    commandPath: string, cgroup: string, containerID: string)

  datatype Token = Token(
    id: string, hash: string, secret: string, name: string, mode: TokenMode,
    version: int, managed: bool, createdAt: Time, expiresAt: Time, revoked: bool)

  datatype Reservation = Reservation(
    id: string, groupID: string, externalSessionID: string, gpu: int, tokenHash: string,
    holder: string, purpose: string, createdAt: Time, startsAt: Time, expiresAt: Time,
    active: bool, revoked: bool)

  datatype Authorization = Authorization(
    id: string, mode: ScopeMode, tokenHash: string, tokenMode: TokenMode, tokenVersion: int,
    holder: string, uid: int, username: string, rootPID: int, cgroupPath: string, cgroupRel: string,
    containerID: string, containerPattern: string, namespace: string,
    expiresAt: Time, active: bool, revoked: bool)

  datatype SoftClaim = SoftClaim(
    id: string, gpu: int, tokenHash: string, authorizationID: string, holder: string,
    runtimeContainerID: string, runtimeCgroup: string, runtimePID: int, runtimeStartTime: nat,
    createdAt: Time, updatedAt: Time)

  datatype Lease = Lease(
    id: string, gpu: int, mode: ScopeMode, tokenHash: string, holder: string, rootPID: int,
    cgroupPath: string, cgroupRel: string, containerID: string, namespace: string,
    expiresAt: Time, active: bool)

  datatype BypassKind = BypassPID | BypassCommand | OtherBypass

  datatype BypassRule = BypassRule(
    id: string, kind: BypassKind, pid: int, startTime: nat, bootID: string,
    command: string, uid: int, expiresAt: Time, revoked: bool)

  datatype State = State(
    managedKeys: bool, keySnapshotID: string, managedKeyAuthority: string,
    tokens: seq<Token>, reservations: seq<Reservation>, authorizations: seq<Authorization>,
    softClaims: seq<SoftClaim>, leases: seq<Lease>, bypasses: seq<BypassRule>)

  const EMPTY_STATE := State(false, "", "", [], [], [], [], [], [])

  function ReservationStartsAt(r: Reservation): Time {
    if IsSet(r.startsAt) then r.startsAt else r.createdAt
  }

  predicate ReservationLive(r: Reservation) { r.active && !r.revoked }

  predicate ReservationActiveAt(r: Reservation, now: Time) {
    ReservationLive(r) && ReservationStartsAt(r) <= now < r.expiresAt
  }

  predicate ReservationOverlaps(r: Reservation, startsAt: Time, expiresAt: Time) {
    ReservationLive(r) && ReservationStartsAt(r) < expiresAt && startsAt < r.expiresAt
  }

  predicate TokenExpired(t: Token, now: Time) { IsSet(t.expiresAt) && t.expiresAt <= now }

  predicate TokenActiveAt(t: Token, now: Time) { !t.revoked && !TokenExpired(t, now) }

  predicate AuthorizationExpired(a: Authorization, now: Time) {
    IsSet(a.expiresAt) && a.expiresAt <= now
  }

  predicate AuthorizationActiveAt(a: Authorization, now: Time) {
    a.active && !a.revoked && !AuthorizationExpired(a, now)
  }

  /** The tokens keyed by hash; a later token replaces an earlier one. */
  function TokensByHash(tokens: seq<Token>): (m: map<string, Token>)
    ensures forall h :: h in m ==> m[h] in tokens && m[h].hash == h
    ensures forall t :: t in tokens ==> t.hash in m
  {
    if tokens == [] then map[]
    else
      var last := tokens[|tokens| - 1];
      TokensByHash(tokens[..|tokens| - 1])[last.hash := last]
  }
}
