/**
 Whether a sampled process lies inside an authorization or lease scope, with the three
 answers that enforcement tells apart: yes, no, and "the lookup failed".
 */
module Scopes {
  import opened Model
  import opened Text
  import opened Wildcard

  datatype Answer = Found(name: string) | NotFound | LookupFailed

  datatype InfoAnswer = Known(info: ProcInfo) | Exited | Unreadable

  /**
   Everything a pass asks the host: `/proc`, the container runtime, the user database and
   the cgroup path rules.  Answers are arbitrary but stay the same within one pass.
   */
  datatype Host = Host(
    bootID: string,
    info: int -> InfoAnswer,
    dockerName: string -> Answer,
    namespaceOf: string -> Answer,
    username: int -> Answer,
    cgroupTarget: (string, string) -> string,
    cgroupMatches: (string, string, string) -> bool)

  datatype Verdict = Inside | Outside | Unknown

  function Decided(b: bool): Verdict { if b then Inside else Outside }

  function NameVerdict(answer: Answer, pattern: string): Verdict {
    match answer
    case Found(name) => Decided(Selects(pattern, name))
    case NotFound => Outside
    case LookupFailed => Unknown
  }

  /** Container ids match when equal or when the shorter, at least 12 long, is a prefix. */
  predicate SameContainer(x: string, y: string) {
    var a, b := ToLower(TrimSpace(x)), ToLower(TrimSpace(y));
    a != "" && b != "" && (a == b || (12 <= |a| && a <= b) || (12 <= |b| && b <= a))
  }

  function AuthorizationScope(host: Host, a: Authorization, info: ProcInfo): Verdict {
    match a.mode
    case Bare => Decided(host.cgroupMatches(info.cgroup, a.cgroupRel, a.cgroupPath))
    case Docker =>
      if a.containerPattern == "" then Decided(SameContainer(info.containerID, a.containerID))
      else if info.containerID == "" then Outside
      else NameVerdict(host.dockerName(info.containerID), a.containerPattern)
    case K8s =>
      if info.containerID == "" then Outside
      else NameVerdict(host.namespaceOf(info.containerID), a.namespace)
    case User =>
      if info.uid < 0 then Unknown
      else if 0 <= a.uid then Decided(info.uid == a.uid)
      else if info.username != "" then Decided(a.username != "" && Selects(a.username, info.username))
      else (match host.username(info.uid)
            case Found(name) => Decided(a.username != "" && Selects(a.username, name))
            case _ => Unknown)
    case OtherScope => Outside
  }

  function LeaseScope(host: Host, l: Lease, info: ProcInfo): Verdict {
    match l.mode
    case Bare => Decided(host.cgroupMatches(info.cgroup, l.cgroupRel, l.cgroupPath))
    case Docker => Decided(SameContainer(info.containerID, l.containerID))
    case K8s =>
      if info.containerID == "" then Outside
      else (match host.namespaceOf(info.containerID)
            case Found(name) => Decided(name == l.namespace)
            case NotFound => Outside
            case LookupFailed => Unknown)
    case _ => Outside
  }

  predicate RuleMatches(rule: BypassRule, info: ProcInfo, now: Time, bootID: string) {
    && !rule.revoked && now < rule.expiresAt
    && match rule.kind
       case BypassPID =>
         && bootID != "" && rule.bootID == bootID && rule.pid == info.pid
         && rule.startTime != 0 && rule.startTime == info.startTime
       case BypassCommand => rule.uid == 0 && info.uid == 0 && rule.command != "" && rule.command == info.commandPath
       case OtherBypass => false
  }

  predicate BypassMatch(rules: seq<BypassRule>, info: ProcInfo, now: Time, bootID: string) {
    exists rule :: rule in rules && RuleMatches(rule, info, now, bootID)
  }

  // ----- Entitlement, as stale-scope eviction sees it -----

  datatype Key = Key(gpu: int, tokenHash: string)

  /** A pair of facts about one scope on one GPU. */
  datatype Standing = Standing(entitled: bool, stale: bool)

  predicate ReservedTokenValid(tokens: map<string, Token>, hash: string, now: Time) {
    hash in tokens && TokenActiveAt(tokens[hash], now) && tokens[hash].mode.Reserved?
  }

  predicate ReservationValid(tokens: map<string, Token>, r: Reservation, now: Time) {
    r.tokenHash != "" && ReservedTokenValid(tokens, r.tokenHash, now) && ReservationActiveAt(r, now)
  }

  /** Evidence of a grant that ended; a future, otherwise valid reservation is not evidence. */
  predicate ReservationStale(tokens: map<string, Token>, r: Reservation, now: Time) {
    && r.tokenHash != "" && !ReservationValid(tokens, r, now)
    && (!ReservedTokenValid(tokens, r.tokenHash, now) || !ReservationLive(r) || r.expiresAt <= now)
  }

  function ValidKeys(s: State, now: Time): set<Key> {
    var tokens := TokensByHash(s.tokens);
    set r | r in s.reservations && ReservationValid(tokens, r, now) :: Key(r.gpu, r.tokenHash)
  }

  function StaleKeys(s: State, now: Time): set<Key> {
    var tokens := TokensByHash(s.tokens);
    set r | r in s.reservations && ReservationStale(tokens, r, now) :: Key(r.gpu, r.tokenHash)
  }

  function Hashes(keys: set<Key>): set<string> { set k | k in keys :: k.tokenHash }

  predicate AuthorizationGloballyValid(a: Authorization, tokens: map<string, Token>, now: Time) {
    && AuthorizationActiveAt(a, now)
    && a.tokenHash in tokens
    && var t := tokens[a.tokenHash];
       TokenActiveAt(t, now) && (t.managed ==> a.tokenVersion == t.version)
  }

  function EvictionMode(a: Authorization, tokens: map<string, Token>): TokenMode {
    if a.tokenHash in tokens then tokens[a.tokenHash].mode else a.tokenMode
  }

  function AuthorizationStanding(a: Authorization, gpu: int, tokens: map<string, Token>,
                                 valid: set<Key>, stale: set<Key>, now: Time): Standing
  {
    var ok := AuthorizationGloballyValid(a, tokens, now);
    var key := Key(gpu, a.tokenHash);
    match EvictionMode(a, tokens)
    case Reserved =>
      if ok then (if key in valid then Standing(true, false) else Standing(false, key in stale))
      else Standing(false, key in valid || key in stale)
    case Claimed => Standing(ok, !ok)
    case Managed => Standing(ok, !ok || (key !in valid && key in stale))
    case OtherMode => Standing(false, false)
  }

  predicate LeaseEntitled(l: Lease, gpu: int, tokens: map<string, Token>, now: Time) {
    && l.active && l.gpu == gpu && now < l.expiresAt
    && (l.tokenHash != "" ==> l.tokenHash in tokens && TokenActiveAt(tokens[l.tokenHash], now))
  }

  function LeaseStanding(l: Lease, gpu: int, tokens: map<string, Token>, now: Time): Standing {
    if l.gpu != gpu then Standing(false, false)
    else var ok := LeaseEntitled(l, gpu, tokens, now); Standing(ok, !ok)
  }

  /** The cheap test that lets a pass skip the per-process work. */
  predicate StaleEvictionPossible(s: State, tokens: map<string, Token>, valid: set<Key>, stale: set<Key>, now: Time) {
    || (exists a :: a in s.authorizations &&
          match EvictionMode(a, tokens)
          case Reserved =>
            || a.tokenHash in Hashes(stale)
            || (!AuthorizationGloballyValid(a, tokens, now) && a.tokenHash in Hashes(valid))
          case Claimed => !AuthorizationGloballyValid(a, tokens, now)
          case Managed => !AuthorizationGloballyValid(a, tokens, now) || a.tokenHash in Hashes(stale)
          case OtherMode => false)
    || (exists l :: l in s.leases && !LeaseEntitled(l, l.gpu, tokens, now))
  }

  /** The early exit is sound: when the cheap test fails, no scope is stale on any GPU. */
  lemma NoStaleScopeWithoutPossibility(s: State, gpu: int, now: Time)
    requires var tokens := TokensByHash(s.tokens);
             !StaleEvictionPossible(s, tokens, ValidKeys(s, now), StaleKeys(s, now), now)
    ensures var tokens := TokensByHash(s.tokens);
            && (forall a :: a in s.authorizations ==>
                  !AuthorizationStanding(a, gpu, tokens, ValidKeys(s, now), StaleKeys(s, now), now).stale)
            && (forall l :: l in s.leases ==> !LeaseStanding(l, gpu, tokens, now).stale)
  {
    var tokens := TokensByHash(s.tokens);
    var valid, stale := ValidKeys(s, now), StaleKeys(s, now);
    forall a | a in s.authorizations ensures !AuthorizationStanding(a, gpu, tokens, valid, stale, now).stale {
      var key := Key(gpu, a.tokenHash);
      assert key in valid ==> key.tokenHash in Hashes(valid);
      assert key in stale ==> key.tokenHash in Hashes(stale);
    }
  }

  /** The stale, non-cgroup authorizations whose quiescence a pass assesses. */
  predicate AssessedAuthorization(a: Authorization, tokens: map<string, Token>, valid: set<Key>, stale: set<Key>,
                                  now: Time)
  {
    && !a.mode.Bare? && a.cgroupPath == "" && !AuthorizationGloballyValid(a, tokens, now)
    && (EvictionMode(a, tokens).Claimed? || EvictionMode(a, tokens).Managed?
        || a.tokenHash in Hashes(stale) || a.tokenHash in Hashes(valid))
  }

  predicate AssessedLease(l: Lease, tokens: map<string, Token>, now: Time) {
    !l.mode.Bare? && l.cgroupPath == "" && !LeaseEntitled(l, l.gpu, tokens, now)
  }

  function AssessedAuthorizations(s: State, now: Time): set<string> {
    var tokens := TokensByHash(s.tokens);
    var valid, stale := ValidKeys(s, now), StaleKeys(s, now);
    set a | a in s.authorizations && AssessedAuthorization(a, tokens, valid, stale, now) :: a.id
  }

  function AssessedLeases(s: State, now: Time): set<string> {
    var tokens := TokensByHash(s.tokens);
    set l | l in s.leases && AssessedLease(l, tokens, now) :: l.id
  }

  /**
   On the early exit the assessment is empty exactly when no authorization of an unrecognised
   token mode is assessed.
   */
  lemma EarlyExitAssessment(s: State, now: Time)
    requires var tokens := TokensByHash(s.tokens);
             !StaleEvictionPossible(s, tokens, ValidKeys(s, now), StaleKeys(s, now), now)
    ensures AssessedLeases(s, now) == {}
    ensures AssessedAuthorizations(s, now) == {} <==>
            var tokens := TokensByHash(s.tokens);
            !exists a :: && a in s.authorizations && EvictionMode(a, tokens).OtherMode?
                         && !a.mode.Bare? && a.cgroupPath == ""
                         && !AuthorizationGloballyValid(a, tokens, now)
                         && a.tokenHash in Hashes(StaleKeys(s, now)) + Hashes(ValidKeys(s, now))
  {
    var tokens := TokensByHash(s.tokens);
    var valid, stale := ValidKeys(s, now), StaleKeys(s, now);
    if a :| && a in s.authorizations && EvictionMode(a, tokens).OtherMode?
            && !a.mode.Bare? && a.cgroupPath == ""
            && !AuthorizationGloballyValid(a, tokens, now)
            && a.tokenHash in Hashes(stale) + Hashes(valid) {
      assert AssessedAuthorization(a, tokens, valid, stale, now);
      assert a.id in AssessedAuthorizations(s, now);
    }
    forall a | a in s.authorizations && AssessedAuthorization(a, tokens, valid, stale, now)
      ensures EvictionMode(a, tokens).OtherMode? {
    }
  }

  /**
   The assessment need not be empty: an authorization of an unrecognised token mode can be in it.
   No operation stores such a mode; it can only come from a persisted file, whose modes are not
   checked on load.
   */
  lemma EarlyExitAssessmentCanBeNonempty() returns (s: State, now: Time)
    ensures var tokens := TokensByHash(s.tokens);
            !StaleEvictionPossible(s, tokens, ValidKeys(s, now), StaleKeys(s, now), now)
    ensures AssessedAuthorizations(s, now) != {}
  {
    now := 10;
    var r := Reservation("res", "", "", 0, "h", "u", "", 1, 1, 5, true, false);
    var a := Authorization("auth", Docker, "h", OtherMode, 0, "u", 0, "", 0, "", "", "c", "", "", 0, true, false);
    s := EMPTY_STATE.(reservations := [r], authorizations := [a]);
    var tokens := TokensByHash(s.tokens);
    assert r in s.reservations && a in s.authorizations;
    assert Key(0, "h") in StaleKeys(s, now);
    assert "h" in Hashes(StaleKeys(s, now));
    assert AssessedAuthorization(a, tokens, ValidKeys(s, now), StaleKeys(s, now), now);
    assert a.id in AssessedAuthorizations(s, now);
  }
}
