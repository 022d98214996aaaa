/**
 The rules that a stored state puts in force, and what they guarantee across the decisions
 of one pass and from one pass to the next.
 */
module StateRules {
  import opened Model
  import opened Sequences
  import opened Text
  import opened StoreOps
  import opened StoreRuns
  import opened Scopes
  import opened Planning
  import opened Enforcement
  import opened EnforcePass

  // ----- A claim's runtime identity -----

  /** The claim a process of authorization `a` opens: bound to its container, cgroup or PID. */
  function NewClaim(host: Host, gpu: int, a: Authorization, info: ProcInfo, now: Time): (r: SoftClaim)
    ensures r.gpu == gpu && r.tokenHash == a.tokenHash && r.authorizationID == a.id
  {
    var claim := SoftClaim("", gpu, a.tokenHash, a.id, a.holder, "", "", 0, 0, now, now);
    var target := host.cgroupTarget(a.cgroupRel, a.cgroupPath);
    if (a.mode.Docker? || a.mode.K8s?) && info.containerID != "" then claim.(runtimeContainerID := info.containerID)
    else if a.mode.Bare? && target != "" && host.cgroupMatches(info.cgroup, target, "")
    then claim.(runtimeCgroup := target)
    else claim.(runtimePID := info.pid, runtimeStartTime := info.startTime)
  }

  predicate RuntimeMatches(host: Host, claim: SoftClaim, info: ProcInfo) {
    if claim.runtimeContainerID != "" then SameContainer(claim.runtimeContainerID, info.containerID)
    else if claim.runtimeCgroup != "" then host.cgroupMatches(info.cgroup, claim.runtimeCgroup, "")
    else 0 < claim.runtimePID == info.pid && (claim.runtimeStartTime == 0 || claim.runtimeStartTime == info.startTime)
  }

  /** The process has an identity a claim can be bound to: a non-blank container id or a real PID. */
  predicate Identifiable(host: Host, a: Authorization, info: ProcInfo) {
    if (a.mode.Docker? || a.mode.K8s?) && info.containerID != "" then TrimSpace(info.containerID) != ""
    else
      || (a.mode.Bare? && host.cgroupTarget(a.cgroupRel, a.cgroupPath) != ""
          && host.cgroupMatches(info.cgroup, host.cgroupTarget(a.cgroupRel, a.cgroupPath), ""))
      || 0 < info.pid
  }

  lemma NewClaimIdentity(host: Host, gpu: int, a: Authorization, info: ProcInfo, other: ProcInfo, now: Time)
    ensures Identifiable(host, a, info) ==> RuntimeMatches(host, NewClaim(host, gpu, a, info, now), info)
    ensures !Identifiable(host, a, info) ==> !RuntimeMatches(host, NewClaim(host, gpu, a, info, now), other)
  {
    hide TrimSpace;
    ToLowerKeepsLength(TrimSpace(info.containerID));
  }

  /** A container id as it is parsed from a cgroup path: none, or 64 lower-case hexadecimal digits. */
  predicate ContainerID(id: string) {
    id == "" || (|id| == 64 && forall i :: 0 <= i < 64 ==> '0' <= id[i] <= '9' || 'a' <= id[i] <= 'f')
  }

  /** What reading `/proc` promises: a process is found under its own, positive PID, its container id as parsed. */
  ghost predicate ReadsProc(host: Host) {
    forall pid :: match host.info(pid)
                  case Known(info) => 0 < info.pid == pid && ContainerID(info.containerID)
                  case _ => true
  }

  lemma ContainerIDIsNotBlank(id: string)
    requires ContainerID(id) && id != ""
    ensures TrimSpace(id) == id
  {
    assert !IsSpace(id[0]) && !IsSpace(id[|id| - 1]);
  }

  /** Every sampled process has an identity that a claim can be bound to. */
  lemma EveryViewIsIdentifiable(s: State, host: Host, now: Time, rows: seq<GPUProcess>, v: View, a: Authorization)
    requires ReadsProc(host) && v in AllViews(RulesFor(s, host, now), rows)
    ensures Identifiable(host, a, v.info)
  {
    hide TrimSpace, IsSpace, ContainerID;
    AllViewsSound(RulesFor(s, host, now), rows, v);
    assert host.info(v.process.pid) == Known(v.info);
    if v.info.containerID != "" {
      ContainerIDIsNotBlank(v.info.containerID);
    }
  }

  lemma ToLowerKeepsLength(s: string)
    ensures |ToLower(s)| == |s|
  {
  }

  // ----- The rules of a state -----

  function ActiveTokenByHash(tokens: seq<Token>, hash: string, now: Time): seq<Token> {
    var i := IndexWhere((t: Token) => t.hash == hash && TokenActiveAt(t, now), tokens);
    if i < |tokens| then [tokens[i]] else []
  }

  predicate SoftMode(mode: TokenMode) { mode.Claimed? || mode.Managed? }

  predicate ClaimActive(tokens: seq<Token>, claim: SoftClaim, now: Time) {
    var found := ActiveTokenByHash(tokens, claim.tokenHash, now);
    found != [] && SoftMode(found[0].mode)
  }

  predicate Claimable(tokens: map<string, Token>, a: Authorization, now: Time) {
    AuthorizationGloballyValid(a, tokens, now) && SoftMode(tokens[a.tokenHash].mode)
  }

  function ReservationsOn(s: State, gpu: int, now: Time): seq<Reservation> {
    Filter((r: Reservation) => r.gpu == gpu && ReservationActiveAt(r, now), s.reservations)
  }

  function LeasesOn(s: State, gpu: int, now: Time): seq<Lease> {
    Filter((l: Lease) => l.gpu == gpu && l.active && now < l.expiresAt, s.leases)
  }

  function ClaimsOn(s: State, gpu: int, now: Time): seq<SoftClaim> {
    Filter((c: SoftClaim) => c.gpu == gpu && ClaimActive(s.tokens, c, now), s.softClaims)
  }

  function RulesFor(s: State, host: Host, now: Time): Rules {
    var tokens := TokensByHash(s.tokens);
    Rules(s.authorizations, s.softClaims,
          gpu => ReservationsOn(s, gpu, now), gpu => LeasesOn(s, gpu, now), gpu => ClaimsOn(s, gpu, now),
          a => AuthorizationGloballyValid(a, tokens, now), a => Claimable(tokens, a, now),
          (a, info) => AuthorizationScope(host, a, info), (l, info) => LeaseScope(host, l, info),
          host.info, info => BypassMatch(s.bypasses, info, now, host.bootID),
          (c, info) => RuntimeMatches(host, c, info),
          (gpu, a, info) => NewClaim(host, gpu, a, info, now), now)
  }

  // ----- One token per GPU -----

  /** The token hash that a permission on a settled GPU carries. */
  lemma PermittedHash(rules: Rules, c: GpuCase, v: View)
    requires RulingFor(rules, c, v).Permitted?
    ensures var hash := RulingFor(rules, c, v).auth.tokenHash;
            match c
            case HardCase(rs) => hash in ReservationHashes(rs)
            case HeldCase(claim) => hash == claim.tokenHash
            case ClaimCase(_, owner) => hash == owner.tokenHash
            case _ => false
  {
  }

  predicate GrantedAllow(d: Decision) { d.action.Allow? && (d.reason.ByAuthorization? || d.reason.ByClaim?) }

  lemma GrantedAllowRuling(rules: Rules, rows: seq<GPUProcess>, d: Decision) returns (v: View)
    requires Justified(rules, rows, d) && GrantedAllow(d)
    ensures var c := CaseOf(rules, d.process.gpu, ViewsOn(rules, rows, d.process.gpu));
            RulingFor(rules, c, v).Permitted? && RulingFor(rules, c, v).auth.tokenHash == d.tokenHash
  {
    hide CaseOf, ViewsOn, RulingFor;
    var c := CaseOf(rules, d.process.gpu, ViewsOn(rules, rows, d.process.gpu));
    assert RowDecision(rules, d.process) != [d];
    v :| RowView(rules, d.process) == [v] && Live(v) && CarriesOut(RulingFor(rules, c, v), c, BlameOf(c), v, d);
  }

  lemma OneReservedHash(s: State, gpu: int, now: Time, h: string, h': string)
    requires Inv(s)
    requires h in ReservationHashes(ReservationsOn(s, gpu, now)) && h' in ReservationHashes(ReservationsOn(s, gpu, now))
    ensures h == h'
  {
    hide Inv;
    var rs := ReservationsOn(s, gpu, now);
    var r :| r in rs && r.tokenHash == h;
    var r' :| r' in rs && r'.tokenHash == h';
    OneActiveReservationPerGPU(s, r, r', now);
  }

  /**
   In every pass over a reachable state, all grant-based permissions on one GPU carry one
   token hash.
   */
  lemma OneTokenPerGPU(s: State, host: Host, now: Time, rows: seq<GPUProcess>, d: Decision, d': Decision)
    requires Inv(s)
    requires Justified(RulesFor(s, host, now), rows, d) && Justified(RulesFor(s, host, now), rows, d')
    requires GrantedAllow(d) && GrantedAllow(d') && d.process.gpu == d'.process.gpu
    ensures d.tokenHash == d'.tokenHash
  {
    hide Inv, Justified, ViewsOn, RulingFor, ReservationHashes;
    var rules, gpu := RulesFor(s, host, now), d.process.gpu;
    var c := CaseOf(rules, gpu, ViewsOn(rules, rows, gpu));
    var v := GrantedAllowRuling(rules, rows, d);
    var v' := GrantedAllowRuling(rules, rows, d');
    PermittedHash(rules, c, v);
    PermittedHash(rules, c, v');
    if c.HardCase? {
      assert c.reservations == ReservationsOn(s, gpu, now);
      OneReservedHash(s, gpu, now, d.tokenHash, d'.tokenHash);
    }
  }

  // ----- Kills on a reserved GPU are certain -----

  lemma NoMatchIsOutside<T>(items: seq<T>, admissible: T -> bool, verdict: T -> Verdict, x: T)
    requires FirstMatch(items, admissible, verdict).NoMatch? && x in items && admissible(x)
    ensures verdict(x).Outside?
  {
    var i :| 0 <= i < |items| && items[i] == x;
  }

  /** A kill on a reserved GPU means every usable authorization of its reservations was resolved and did not match. */
  lemma ReservedKillIsCertain(rules: Rules, rows: seq<GPUProcess>, d: Decision, a: Authorization)
    requires Justified(rules, rows, d) && d.action.Kill? && rules.reservationsOn(d.process.gpu) != []
    requires a in rules.authorizations && rules.usable(a)
    requires a.tokenHash in ReservationHashes(rules.reservationsOn(d.process.gpu))
    ensures rules.scope(a, d.info).Outside?
  {
    hide ViewsOn, ReservationHashes;
    var gpu := d.process.gpu;
    var c := CaseOf(rules, gpu, ViewsOn(rules, rows, gpu));
    assert RowDecision(rules, d.process) != [d];
    var v :| RowView(rules, d.process) == [v] && Live(v) && CarriesOut(RulingFor(rules, c, v), c, BlameOf(c), v, d);
    assert RulingFor(rules, c, v).Denied? && d.info == v.info;
    var hashes := ReservationHashes(rules.reservationsOn(gpu));
    assert rules.ReservedMatch(hashes, v.info).NoMatch?;
    NoMatchIsOutside(rules.authorizations, (x: Authorization) => rules.usable(x) && x.tokenHash in hashes,
                     (x: Authorization) => rules.scope(x, v.info), a);
  }

  // ----- Claims are stable -----

  /**
   Every lookup that decides whether the claim still holds succeeds: those of the claimed runtime in
   its own token's scopes.
   */
  ghost predicate OwnerResolved(rules: Rules, claim: SoftClaim, views: seq<View>) {
    forall v :: v in views && Live(v) && rules.alive(claim, v.info) ==>
      !rules.TokenMatch(claim.tokenHash, v.info).Unresolvable?
  }

  /** `next` differs from `rules` only in who holds the GPU: the claim that `rules` opens on it. */
  ghost predicate Follows(rules: Rules, next: Rules, gpu: int, claim: SoftClaim) {
    && next.authorizations == rules.authorizations
    && (forall a, info :: next.scope(a, info) == rules.scope(a, info))
    && (forall a :: a in rules.authorizations ==> next.claimable(a) == rules.claimable(a))
    && rules.reservationsOn(gpu) == [] && rules.leasesOn(gpu) == [] && rules.claimsOn(gpu) == []
    && next.reservationsOn(gpu) == [] && next.leasesOn(gpu) == [] && next.claimsOn(gpu) == [claim]
    && claim.tokenHash != ""
  }

  /** What matched some claimable scope of the owner's token still does once only that token counts. */
  lemma OwnerStillMatches(rules: Rules, next: Rules, gpu: int, claim: SoftClaim, info: ProcInfo)
    requires Follows(rules, next, gpu, claim)
    requires rules.AnyMatch(info).Matched? && rules.AnyMatch(info).value.tokenHash == claim.tokenHash
    ensures next.TokenMatch(claim.tokenHash, info) == rules.AnyMatch(info)
  {
    var x := rules.AnyMatch(info).value;
    var wide := (a: Authorization) => rules.claimable(a);
    var narrow := (a: Authorization) => next.claimable(a) && a.tokenHash == claim.tokenHash;
    var verdict := (a: Authorization) => rules.scope(a, info);
    MatchIsAdmissible(rules.authorizations, wide, verdict, x);
    NarrowedMatch(rules.authorizations, wide, narrow, verdict, x);
    assert FirstMatch(next.authorizations, narrow, (a: Authorization) => next.scope(a, info)) == Matched(x) by {
      SameVerdicts(next.authorizations, narrow, verdict, (a: Authorization) => next.scope(a, info));
    }
  }

  lemma MatchIsAdmissible<T>(items: seq<T>, admissible: T -> bool, verdict: T -> Verdict, x: T)
    requires FirstMatch(items, admissible, verdict) == Matched(x)
    ensures x in items && admissible(x) && verdict(x).Inside?
  {
  }

  lemma SameVerdicts<T>(items: seq<T>, admissible: T -> bool, verdict: T -> Verdict, verdict': T -> Verdict)
    requires forall x :: x in items ==> verdict(x) == verdict'(x)
    ensures FirstMatch(items, admissible, verdict) == FirstMatch(items, admissible, verdict')
  {
    var i := IndexWhere((x: T) => admissible(x) && verdict(x).Inside?, items);
    var j := IndexWhere((x: T) => admissible(x) && verdict'(x).Inside?, items);
    assert forall k :: 0 <= k < |items| ==> items[k] in items;
    assert i == j;
  }

  lemma ClaimantOwns(rules: Rules, gpu: int, views: seq<View>)
    requires rules.reservationsOn(gpu) == [] && rules.leasesOn(gpu) == [] && rules.claimsOn(gpu) == []
    requires CaseOf(rules, gpu, views).ClaimCase?
    ensures var c := CaseOf(rules, gpu, views);
            c.view in views && Live(c.view) && rules.AnyMatch(c.view.info) == Matched(c.auth)
  {
    var claimants := Claimants(rules.AnyAnswer(), LiveViews(views));
    assert claimants[0] in claimants;
  }

  /** As long as its own runtime is recognised, the opened claim is not given up, and holds if the lookups succeed. */
  lemma ClaimHolds(rules: Rules, next: Rules, gpu: int, claim: SoftClaim, views: seq<View>)
    requires Follows(rules, next, gpu, claim)
    requires CaseOf(rules, gpu, views).ClaimCase? && CaseOf(rules, gpu, views).auth.tokenHash == claim.tokenHash
    ensures next.alive(claim, CaseOf(rules, gpu, views).view.info) ==>
              && !next.ClaimVerdict(claim, views).Outside?
              && (OwnerResolved(next, claim, views) ==> next.ClaimVerdict(claim, views).Inside?)
    ensures (forall v :: v in views ==> !next.alive(claim, v.info)) ==> next.ClaimVerdict(claim, views).Outside?
  {
    hide CaseOf;
    ClaimantOwns(rules, gpu, views);
    var v0 := CaseOf(rules, gpu, views).view;
    OwnerStillMatches(rules, next, gpu, claim, v0.info);
    var i := IndexWhere((v: View) => next.Bears(claim, v), views);
    if next.alive(claim, v0.info) {
      assert next.Bears(claim, v0);
      assert views[i] in views;
    } else if i < |views| {
      assert views[i] in views;
    }
  }

  /** Everyone whom the opening pass permits is permitted again, through the same authorization. */
  lemma PermissionsKept(rules: Rules, next: Rules, gpu: int, claim: SoftClaim, c: GpuCase, v: View)
    requires Follows(rules, next, gpu, claim) && c.ClaimCase? && c.auth.tokenHash == claim.tokenHash
    requires RulingFor(rules, c, v).Permitted?
    ensures RulingFor(next, HeldCase(claim), v) == RulingFor(rules, c, v)
  {
    OwnerStillMatches(rules, next, gpu, claim, v.info);
  }

  /** Between the two instants nobody's standing on the GPU changes. */
  ghost predicate Unchanged(s: State, host: Host, now: Time, now': Time, gpu: int) {
    && now <= now'
    && (forall a :: a in s.authorizations ==>
          (Claimable(TokensByHash(s.tokens), a, now') <==> Claimable(TokensByHash(s.tokens), a, now)))
    && (forall info ::
          BypassMatch(s.bypasses, info, now', host.bootID) <==> BypassMatch(s.bypasses, info, now, host.bootID))
    && ReservationsOn(s, gpu, now') == [] && LeasesOn(s, gpu, now') == []
  }

  /** The claim as the store keeps it. */
  function StoredClaim(host: Host, gpu: int, c: GpuCase, freshID: string, now: Time, storedAt: Time): SoftClaim
    requires c.ClaimCase?
  {
    NewClaim(host, gpu, c.auth, c.view.info, now).(id := freshID, updatedAt := storedAt)
  }

  /** With one token per hash, a token found by either lookup is the token. */
  lemma TokenLookupsAgree(tokens: seq<Token>, hash: string, now: Time)
    requires TokensWellFormed(tokens)
    ensures var found := ActiveTokenByHash(tokens, hash, now);
            found != [] <==> hash in TokensByHash(tokens) && TokenActiveAt(TokensByHash(tokens)[hash], now)
    ensures var found := ActiveTokenByHash(tokens, hash, now);
            found != [] ==> found[0] == TokensByHash(tokens)[hash]
  {
    hide TokenActiveAt;
    var m := TokensByHash(tokens);
    if hash in m {
      var j :| 0 <= j < |tokens| && tokens[j] == m[hash];
    }
    var i := IndexWhere((t: Token) => t.hash == hash && TokenActiveAt(t, now), tokens);
    if i < |tokens| {
      assert tokens[i] in tokens;
    }
  }

  /** A claim that is active later was active before. */
  lemma ClaimActiveEarlier(tokens: seq<Token>, claim: SoftClaim, now: Time, now': Time)
    requires TokensWellFormed(tokens) && now <= now' && ClaimActive(tokens, claim, now')
    ensures ClaimActive(tokens, claim, now)
  {
    hide TokensWellFormed, ActiveTokenByHash, TokensByHash;
    TokenLookupsAgree(tokens, claim.tokenHash, now);
    TokenLookupsAgree(tokens, claim.tokenHash, now');
  }

  lemma NoOtherClaim(s: State, gpu: int, now: Time, now': Time)
    requires TokensWellFormed(s.tokens) && now <= now' && ClaimsOn(s, gpu, now) == []
    ensures ClaimsOn(s, gpu, now') == []
  {
    hide TokensWellFormed, ClaimActive;
    forall c | c in s.softClaims && c.gpu == gpu ensures !ClaimActive(s.tokens, c, now') {
      assert c !in ClaimsOn(s, gpu, now);
      if ClaimActive(s.tokens, c, now') {
        ClaimActiveEarlier(s.tokens, c, now, now');
      }
    }
    FilterNone((c: SoftClaim) => c.gpu == gpu && ClaimActive(s.tokens, c, now'), s.softClaims);
  }

  lemma OwnedClaimIsActive(s: State, a: Authorization, claim: SoftClaim, now: Time)
    requires TokensWellFormed(s.tokens) && Claimable(TokensByHash(s.tokens), a, now) && claim.tokenHash == a.tokenHash
    ensures ClaimActive(s.tokens, claim, now) && claim.tokenHash != ""
  {
    TokenLookupsAgree(s.tokens, a.tokenHash, now);
  }

  /** Storing the opened claim makes it the one active claim of its GPU. */
  lemma StoredClaimIsActive(s: State, host: Host, gpu: int, c: GpuCase, freshID: string, now: Time,
                            storedAt: Time, now': Time)
    requires TokensWellFormed(s.tokens) && now <= now' && ClaimsOn(s, gpu, now) == [] && c.ClaimCase?
    requires IsSet(now) && Claimable(TokensByHash(s.tokens), c.auth, now)
    requires Claimable(TokensByHash(s.tokens), c.auth, now')
    ensures var claim := StoredClaim(host, gpu, c, freshID, now, storedAt);
            && UpsertSoftClaim(s, NewClaim(host, gpu, c.auth, c.view.info, now), freshID, storedAt)
               == Write(s.(softClaims := s.softClaims + [claim]))
            && ClaimsOn(s.(softClaims := s.softClaims + [claim]), gpu, now') == [claim]
            && claim.tokenHash != ""
  {
    hide TokensWellFormed, ClaimActive, Claimable, TokensByHash;
    var claim := StoredClaim(host, gpu, c, freshID, now, storedAt);
    forall o | o in s.softClaims && o.gpu == gpu ensures o.tokenHash != claim.tokenHash {
      assert o !in ClaimsOn(s, gpu, now);
      if o.tokenHash == claim.tokenHash {
        OwnedClaimIsActive(s, c.auth, o, now);
      }
    }
    NoOtherClaim(s, gpu, now, now');
    OwnedClaimIsActive(s, c.auth, claim, now');
    FilterSnoc((o: SoftClaim) => o.gpu == gpu && ClaimActive(s.tokens, o, now'), s.softClaims, claim);
  }

  lemma {:induction false} SameViews(rules: Rules, next: Rules, rows: seq<GPUProcess>)
    requires forall pid :: next.info(pid) == rules.info(pid)
    requires forall info :: next.bypassed(info) == rules.bypassed(info)
    ensures AllViews(next, rows) == AllViews(rules, rows)
  {
    if rows != [] {
      SameViews(rules, next, rows[..|rows| - 1]);
    }
  }

  /** The state and the sample of a pass that opens a claim on `gpu`, and the pass after it. */
  ghost predicate Opens(s: State, host: Host, rows: seq<GPUProcess>, gpu: int, now: Time) {
    var rules := RulesFor(s, host, now);
    IsSet(now) && CaseOf(rules, gpu, ViewsOn(rules, rows, gpu)).ClaimCase?
  }

  ghost function AfterOpening(s: State, host: Host, rows: seq<GPUProcess>, gpu: int, freshID: string, now: Time,
                              storedAt: Time): State
    requires Opens(s, host, rows, gpu, now)
  {
    var rules := RulesFor(s, host, now);
    var c := CaseOf(rules, gpu, ViewsOn(rules, rows, gpu));
    s.(softClaims := s.softClaims + [StoredClaim(host, gpu, c, freshID, now, storedAt)])
  }

  lemma OpeningIsUncontested(rules: Rules, gpu: int, views: seq<View>)
    requires CaseOf(rules, gpu, views).ClaimCase?
    ensures rules.reservationsOn(gpu) == [] && rules.leasesOn(gpu) == [] && rules.claimsOn(gpu) == []
    ensures var c := CaseOf(rules, gpu, views);
            c.view in views && Live(c.view) && c.auth in rules.authorizations && rules.claimable(c.auth)
  {
    ClaimantOwns(rules, gpu, views);
    var c := CaseOf(rules, gpu, views);
    MatchIsAdmissible(rules.authorizations, (a: Authorization) => rules.claimable(a),
                      (a: Authorization) => rules.scope(a, c.view.info), c.auth);
  }

  lemma OpeningIsStored(s: State, host: Host, rows: seq<GPUProcess>, gpu: int, freshID: string, now: Time,
                        storedAt: Time, now': Time)
    requires Inv(s) && Opens(s, host, rows, gpu, now) && Unchanged(s, host, now, now', gpu)
    ensures var rules, s' := RulesFor(s, host, now), AfterOpening(s, host, rows, gpu, freshID, now, storedAt);
            var c := CaseOf(rules, gpu, ViewsOn(rules, rows, gpu));
            var claim := StoredClaim(host, gpu, c, freshID, now, storedAt);
            && UpsertSoftClaim(s, rules.newClaim(gpu, c.auth, c.view.info), freshID, storedAt) == Write(s')
            && Follows(rules, RulesFor(s', host, now'), gpu, claim)
  {
    hide CaseOf, ViewsOn, NewClaim, ClaimsOn, UpsertSoftClaim, NoOverlap, GrantsFollowTokens, TokensWellFormed;
    hide Claimable, AuthorizationScope;
    var rules := RulesFor(s, host, now);
    var c := CaseOf(rules, gpu, ViewsOn(rules, rows, gpu));
    OpeningIsUncontested(rules, gpu, ViewsOn(rules, rows, gpu));
    StoredClaimIsActive(s, host, gpu, c, freshID, now, storedAt, now');
  }

  lemma StoredClaimIdentity(host: Host, gpu: int, c: GpuCase, freshID: string, other: ProcInfo, now: Time,
                            storedAt: Time)
    requires c.ClaimCase?
    ensures var claim := StoredClaim(host, gpu, c, freshID, now, storedAt);
            if Identifiable(host, c.auth, c.view.info) then RuntimeMatches(host, claim, c.view.info)
            else !RuntimeMatches(host, claim, other)
  {
    hide Identifiable, SameContainer;
    NewClaimIdentity(host, gpu, c.auth, c.view.info, other, now);
  }

  /** The claim that a pass opens on the GPU, as the store keeps it, and the rules of the pass after it. */
  ghost function OpenedClaim(s: State, host: Host, rows: seq<GPUProcess>, gpu: int, freshID: string, now: Time,
                             storedAt: Time): SoftClaim
    requires Opens(s, host, rows, gpu, now)
  {
    var rules := RulesFor(s, host, now);
    StoredClaim(host, gpu, CaseOf(rules, gpu, ViewsOn(rules, rows, gpu)), freshID, now, storedAt)
  }

  ghost function NextRules(s: State, host: Host, rows: seq<GPUProcess>, gpu: int, freshID: string, now: Time,
                           storedAt: Time, now': Time): Rules
    requires Opens(s, host, rows, gpu, now)
  {
    RulesFor(AfterOpening(s, host, rows, gpu, freshID, now, storedAt), host, now')
  }

  /** Whoever the opening pass permitted is ruled the same again. */
  ghost predicate SamePermissions(rules: Rules, c: GpuCase, next: Rules, c': GpuCase) {
    forall v :: RulingFor(rules, c, v).Permitted? ==> RulingFor(next, c', v) == RulingFor(rules, c, v)
  }

  /**
   What becomes of an opened claim when the next pass sees the same processes and standings: it is
   abandoned exactly when the claiming process has no identity to recognise it by.
   */
  lemma ClaimKeptIffIdentifiable(s: State, host: Host, rows: seq<GPUProcess>, gpu: int, freshID: string, now: Time,
                                 storedAt: Time, now': Time)
    requires Inv(s) && Opens(s, host, rows, gpu, now) && Unchanged(s, host, now, now', gpu)
    ensures var rules := RulesFor(s, host, now);
            var c := CaseOf(rules, gpu, ViewsOn(rules, rows, gpu));
            var next := NextRules(s, host, rows, gpu, freshID, now, storedAt, now');
            var claim := OpenedClaim(s, host, rows, gpu, freshID, now, storedAt);
            var c' := CaseOf(next, gpu, ViewsOn(next, rows, gpu));
            && (Abandoned(next, rows, claim) <==> !Identifiable(host, c.auth, c.view.info))
            && Opening(next, gpu, c') == []
            && (Identifiable(host, c.auth, c.view.info) ==>
                  && (OwnerResolved(next, claim, ViewsOn(next, rows, gpu)) ==> !c'.FailedCase?)
                  && (!c'.FailedCase? ==> c' == HeldCase(claim) && SamePermissions(rules, c, next, c')))
  {
    hide NewClaim, ClaimsOn, RulingFor, NoOverlap, GrantsFollowTokens, TokensWellFormed, Claimable, AuthorizationScope;
    hide Identifiable, RuntimeMatches, OwnerResolved, Follows, AllViews, OpenCase, BypassMatch;
    var rules := RulesFor(s, host, now);
    var next := NextRules(s, host, rows, gpu, freshID, now, storedAt, now');
    var views := ViewsOn(rules, rows, gpu);
    var c := CaseOf(rules, gpu, views);
    var claim := OpenedClaim(s, host, rows, gpu, freshID, now, storedAt);
    SameViews(rules, next, rows);
    OpeningIsStored(s, host, rows, gpu, freshID, now, storedAt, now');
    HeldByClaim(rules, next, gpu, claim, views);
    forall other: ProcInfo {
      StoredClaimIdentity(host, gpu, c, freshID, other, now, storedAt);
    }
    forall v | RulingFor(rules, c, v).Permitted?
      ensures RulingFor(next, HeldCase(claim), v) == RulingFor(rules, c, v) {
      PermissionsKept(rules, next, gpu, claim, c, v);
    }
  }

  /** The next pass's view of the GPU, from the identity of the claim alone. */
  lemma HeldByClaim(rules: Rules, next: Rules, gpu: int, claim: SoftClaim, views: seq<View>)
    requires Follows(rules, next, gpu, claim)
    requires CaseOf(rules, gpu, views).ClaimCase? && CaseOf(rules, gpu, views).auth.tokenHash == claim.tokenHash
    ensures next.alive(claim, CaseOf(rules, gpu, views).view.info) ==>
              && !next.ClaimVerdict(claim, views).Outside?
              && (OwnerResolved(next, claim, views) ==> !CaseOf(next, gpu, views).FailedCase?)
              && (!CaseOf(next, gpu, views).FailedCase? ==> CaseOf(next, gpu, views) == HeldCase(claim))
    ensures (forall info :: !next.alive(claim, info)) ==> next.ClaimVerdict(claim, views).Outside?
    ensures Opening(next, gpu, CaseOf(next, gpu, views)) == []
  {
    hide OwnerResolved, OpenCase;
    ClaimHolds(rules, next, gpu, claim, views);
  }

  /** A claim that is not abandoned is released by no decision of the pass. */
  lemma HeldClaimIsNotReleased(rules: Rules, rows: seq<GPUProcess>, claim: SoftClaim, d: Decision)
    requires claim in rules.softClaims && !Abandoned(rules, rows, claim)
    requires forall c :: c in rules.softClaims && c.id == claim.id ==> c == claim
    requires JustifiedClaim(rules, rows, d) && d.action.ReleaseClaim?
    ensures d.claimID != claim.id
  {
    hide Abandoned;
  }

  lemma {:induction false} AnsweredBy(decisions: seq<Decision>, row: GPUProcess)
    requires row in Answered(decisions)
    ensures exists d :: d in decisions && AboutProcess(d) && d.process == row
  {
    var n := |decisions| - 1;
    if row in Answered(decisions[..n]) {
      AnsweredBy(decisions[..n], row);
    } else {
      assert decisions[n] in decisions;
    }
  }

  /** A pass without a failed lookup carries out the ruling about every live view. */
  lemma ViewIsAnswered(rules: Rules, rows: seq<GPUProcess>, gpu: int, decisions: seq<Decision>, v: View)
    returns (d: Decision)
    requires AllJustified(rules, rows, decisions) && Answered(decisions) == multiset(rows)
    requires v in ViewsOn(rules, rows, gpu) && Live(v)
    ensures var c := CaseOf(rules, gpu, ViewsOn(rules, rows, gpu));
            && d in decisions && !c.FailedCase? && Grounded(c)
            && CarriesOut(RulingFor(rules, c, v), c, BlameOf(c), v, d)
  {
    hide CaseOf, RulingFor, CarriesOut, Answered, BlameOf, Grounded, AllViews;
    AllViewsSound(rules, rows, v);
    assert v.process in multiset(rows);
    AnsweredBy(decisions, v.process);
    d :| d in decisions && AboutProcess(d) && d.process == v.process;
    assert Justified(rules, rows, d);
    assert RowDecision(rules, v.process) == [];
  }

  /** The decisions of the next pass allow, under the claim, everyone on the GPU whom the opening pass permitted. */
  ghost predicate AllowsAgain(rules: Rules, c: GpuCase, next: Rules, rows: seq<GPUProcess>, gpu: int, claim: SoftClaim,
                              decisions: seq<Decision>)
  {
    forall v :: v in ViewsOn(next, rows, gpu) && Live(v) && RulingFor(rules, c, v).Permitted? ==>
      AllowDecision(HeldCase(claim), v, RulingFor(rules, c, v).auth) in decisions
  }

  lemma PermittedAreAllowed(rules: Rules, c: GpuCase, next: Rules, rows: seq<GPUProcess>, gpu: int, claim: SoftClaim,
                            decisions: seq<Decision>)
    requires var c' := CaseOf(next, gpu, ViewsOn(next, rows, gpu));
             !c'.FailedCase? ==> c' == HeldCase(claim) && SamePermissions(rules, c, next, c')
    requires AllJustified(next, rows, decisions) && Answered(decisions) == multiset(rows)
    ensures AllowsAgain(rules, c, next, rows, gpu, claim, decisions)
  {
    hide CaseOf, RulingFor, Answered, AllJustified, ViewsOn, AllowDecision, BlameOf;
    forall v | v in ViewsOn(next, rows, gpu) && Live(v) && RulingFor(rules, c, v).Permitted?
      ensures AllowDecision(HeldCase(claim), v, RulingFor(rules, c, v).auth) in decisions {
      var d := ViewIsAnswered(next, rows, gpu, decisions, v);
    }
  }

  /**
   A claim is stable.  After a pass that opened it, a pass that sees the same processes and
   standings releases it by no decision and opens no second one on the GPU; unless a lookup about
   the claimed runtime fails, the claim holds the GPU and whoever was permitted is ruled so again;
   and unless a lookup fails at all, they are allowed again.
   */
  lemma ClaimIsStable(s: State, host: Host, rows: seq<GPUProcess>, gpu: int, freshID: string, now: Time, storedAt: Time,
                      now': Time)
    requires Inv(s) && ReadsProc(host) && Opens(s, host, rows, gpu, now) && Unchanged(s, host, now, now', gpu)
    requires forall c :: c in s.softClaims ==> c.id != freshID
    ensures var rules := RulesFor(s, host, now);
            var c := CaseOf(rules, gpu, ViewsOn(rules, rows, gpu));
            var next := NextRules(s, host, rows, gpu, freshID, now, storedAt, now');
            var claim := OpenedClaim(s, host, rows, gpu, freshID, now, storedAt);
            var c' := CaseOf(next, gpu, ViewsOn(next, rows, gpu));
            && (forall d :: JustifiedClaim(next, rows, d) && d.action.ReleaseClaim? ==> d.claimID != claim.id)
            && Opening(next, gpu, c') == []
            && (OwnerResolved(next, claim, ViewsOn(next, rows, gpu)) ==>
                  c' == HeldCase(claim) && SamePermissions(rules, c, next, c'))
            && (forall decisions :: AllJustified(next, rows, decisions) && Answered(decisions) == multiset(rows) ==>
                  AllowsAgain(rules, c, next, rows, gpu, claim, decisions))
  {
    hide Inv, ReadsProc, Unchanged, CaseOf, NewClaim, RulingFor, Identifiable, OwnerResolved, AllViews, Abandoned;
    hide JustifiedClaim, AllJustified, Answered, AllowsAgain, SamePermissions;
    var rules := RulesFor(s, host, now);
    var next, views := NextRules(s, host, rows, gpu, freshID, now, storedAt, now'), ViewsOn(rules, rows, gpu);
    var c, claim := CaseOf(rules, gpu, views), OpenedClaim(s, host, rows, gpu, freshID, now, storedAt);
    OpeningIsUncontested(rules, gpu, views);
    EveryViewIsIdentifiable(s, host, now, rows, c.view, c.auth);
    ClaimKeptIffIdentifiable(s, host, rows, gpu, freshID, now, storedAt, now');
    forall d | JustifiedClaim(next, rows, d) && d.action.ReleaseClaim? ensures d.claimID != claim.id {
      HeldClaimIsNotReleased(next, rows, claim, d);
    }
    forall decisions | AllJustified(next, rows, decisions) && Answered(decisions) == multiset(rows)
      ensures AllowsAgain(rules, c, next, rows, gpu, claim, decisions) {
      PermittedAreAllowed(rules, c, next, rows, gpu, claim, decisions);
    }
  }
}
