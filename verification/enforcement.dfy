/**
 Regular enforcement of one GPU process sample: who may stay on which GPU, who claims a
 free GPU, and who is killed.
 */
module Enforcement {
  import opened Model
  import opened Sequences
  import opened Text
  import opened Scopes
  import opened Planning

  // ----- First match among stored scopes -----

  datatype Match<T> = Matched(value: T) | NoMatch | Unresolvable

  /** The first admissible scope around the process; a failed lookup matters only if none is found. */
  function FirstMatch<T>(items: seq<T>, admissible: T -> bool, verdict: T -> Verdict): Match<T> {
    var i := IndexWhere((x: T) => admissible(x) && verdict(x).Inside?, items);
    if i < |items| then Matched(items[i])
    else if AnyUnknown(items, admissible, verdict) then Unresolvable
    else NoMatch
  }

  predicate AnyUnknown<T>(items: seq<T>, admissible: T -> bool, verdict: T -> Verdict) {
    exists i :: 0 <= i < |items| && admissible(items[i]) && verdict(items[i]).Unknown?
  }

  method MatchAny<T>(items: seq<T>, admissible: T -> bool, verdict: T -> Verdict) returns (m: Match<T>)
    ensures m == FirstMatch(items, admissible, verdict)
  {
    var failed := false;
    for i := 0 to |items|
      invariant forall j :: 0 <= j < i ==> !(admissible(items[j]) && verdict(items[j]).Inside?)
      invariant failed <==> exists j :: 0 <= j < i && admissible(items[j]) && verdict(items[j]).Unknown?
    {
      var x := items[i];
      if !admissible(x) {
        continue;
      }
      if verdict(x).Unknown? {
        failed := true;
        continue;
      }
      if verdict(x).Inside? {
        return Matched(x);
      }
    }
    m := if failed then Unresolvable else NoMatch;
  }

  /** Narrowing the admissible scopes cannot change a match that stays admissible. */
  lemma NarrowedMatch<T>(items: seq<T>, wide: T -> bool, narrow: T -> bool, verdict: T -> Verdict, x: T)
    requires forall y :: y in items && narrow(y) ==> wide(y)
    requires FirstMatch(items, wide, verdict) == Matched(x) && narrow(x)
    ensures FirstMatch(items, narrow, verdict) == Matched(x)
  {
    var i := IndexWhere((y: T) => wide(y) && verdict(y).Inside?, items);
    var j := IndexWhere((y: T) => narrow(y) && verdict(y).Inside?, items);
    assert i < |items| && items[i] == x && forall k :: 0 <= k < i ==> items[k] in items;
    assert j == i;
  }

  // ----- The rules in force at one instant -----

  /**
   The state as one pass sees it.  `usable` and `claimable` judge an authorization's own
   standing, `scope` and `leaseScope` the process, `alive` a claim's runtime identity.
   */
  datatype Rules = Rules(
    authorizations: seq<Authorization>, softClaims: seq<SoftClaim>,
    reservationsOn: int -> seq<Reservation>, leasesOn: int -> seq<Lease>, claimsOn: int -> seq<SoftClaim>,
    usable: Authorization -> bool, claimable: Authorization -> bool,
    scope: (Authorization, ProcInfo) -> Verdict, leaseScope: (Lease, ProcInfo) -> Verdict,
    info: int -> InfoAnswer, bypassed: ProcInfo -> bool, alive: (SoftClaim, ProcInfo) -> bool,
    newClaim: (int, Authorization, ProcInfo) -> SoftClaim, now: Time)
  {
    function ReservedMatch(hashes: set<string>, proc: ProcInfo): Match<Authorization> {
      FirstMatch(authorizations, (a: Authorization) => usable(a) && a.tokenHash in hashes,
                 (a: Authorization) => scope(a, proc))
    }

    function LeaseMatch(leases: seq<Lease>, proc: ProcInfo): Match<Lease> {
      FirstMatch(leases, (l: Lease) => true, (l: Lease) => leaseScope(l, proc))
    }

    /** Claimed and managed authorizations, of one token. */
    function TokenMatch(hash: string, proc: ProcInfo): Match<Authorization> {
      FirstMatch(authorizations, (a: Authorization) => claimable(a) && a.tokenHash == hash,
                 (a: Authorization) => scope(a, proc))
    }

    /** Claimed and managed authorizations, of any token. */
    function AnyMatch(proc: ProcInfo): Match<Authorization> {
      FirstMatch(authorizations, (a: Authorization) => claimable(a), (a: Authorization) => scope(a, proc))
    }

    function AnyAnswer(): View -> Match<Authorization> { (v: View) => AnyMatch(v.info) }

    /** Is some sampled process still the runtime that established the claim? */
    function ClaimVerdict(claim: SoftClaim, views: seq<View>): Verdict {
      var i := IndexWhere((v: View) => Bears(claim, v), views);
      if claim.tokenHash == "" || i == |views| then Outside
      else if TokenMatch(claim.tokenHash, views[i].info).Matched? then Inside
      else Unknown
    }

    /** The view decides the claim's fate: it is the claimed runtime, and is authorized or unresolvable. */
    predicate Bears(claim: SoftClaim, v: View) {
      !v.bypassed && alive(claim, v.info) && !TokenMatch(claim.tokenHash, v.info).NoMatch?
    }
  }

  // ----- What a GPU's situation means for each of its processes -----

  datatype GpuCase =
    | HardCase(reservations: seq<Reservation>)
    | LeaseCase(leases: seq<Lease>)
    | HeldCase(claim: SoftClaim)
    | VacatedCase
    | IdleCase
    | ClaimCase(view: View, auth: Authorization)
    | FailedCase

  predicate Live(v: View) { !v.bypassed }

  function LiveViews(views: seq<View>): seq<View> { Filter(Live, views) }

  /** The views that `answer` matches, and the others. */
  function Claimants(answer: View -> Match<Authorization>, views: seq<View>): seq<View> {
    Filter((v: View) => answer(v).Matched?, views)
  }

  function Others(answer: View -> Match<Authorization>, views: seq<View>): seq<View> {
    Filter((v: View) => !answer(v).Matched?, views)
  }

  function OpenCase(answer: View -> Match<Authorization>, views: seq<View>): GpuCase {
    var live := LiveViews(views);
    if exists v :: v in live && answer(v).Unresolvable? then FailedCase
    else
      var claimants := Claimants(answer, live);
      if claimants == [] then IdleCase
      else
        assert claimants[0] in claimants;
        ClaimCase(claimants[0], answer(claimants[0]).value)
  }

  /** Reservations win over leases, leases over claims, and an unclaimed GPU goes to its first claimant. */
  function CaseOf(rules: Rules, gpu: int, views: seq<View>): GpuCase {
    if rules.reservationsOn(gpu) != [] then HardCase(rules.reservationsOn(gpu))
    else if rules.leasesOn(gpu) != [] then LeaseCase(rules.leasesOn(gpu))
    else if rules.claimsOn(gpu) == [] then OpenCase(rules.AnyAnswer(), views)
    else match rules.ClaimVerdict(rules.claimsOn(gpu)[0], views)
         case Inside => HeldCase(rules.claimsOn(gpu)[0])
         case Outside => VacatedCase
         case Unknown => FailedCase
  }

  datatype Ruling = Permitted(auth: Authorization) | PermittedByLease(lease: Lease) | Denied | Deferred(reason: Reason)

  function ReservationHashes(rs: seq<Reservation>): set<string> { set r | r in rs :: r.tokenHash }

  function FromMatch(m: Match<Authorization>): Ruling {
    match m
    case Matched(a) => Permitted(a)
    case NoMatch => Denied
    case Unresolvable => Deferred(ResolutionUnavailable)
  }

  function RulingFor(rules: Rules, c: GpuCase, v: View): Ruling {
    match c
    case HardCase(rs) => FromMatch(rules.ReservedMatch(ReservationHashes(rs), v.info))
    case LeaseCase(ls) =>
      (match rules.LeaseMatch(ls, v.info)
       case Matched(l) => PermittedByLease(l)
       case NoMatch => Denied
       case Unresolvable => Deferred(ResolutionUnavailable))
    case HeldCase(claim) => FromMatch(rules.TokenMatch(claim.tokenHash, v.info))
    case VacatedCase => Deferred(ClaimVacated)
    case IdleCase => Deferred(NoClaimant)
    case ClaimCase(_, owner) =>
      var m := rules.AnyMatch(v.info);
      if m.Matched? && m.value.tokenHash == owner.tokenHash then Permitted(m.value) else Denied
    case FailedCase => Deferred(ResolutionUnavailable)
  }

  function AllowDecision(c: GpuCase, v: View, a: Authorization): Decision {
    Decision(v.process, v.info, Allow, if c.HardCase? then ByAuthorization else ByClaim,
             "", a.id, if c.HeldCase? then c.claim.id else "", a.holder, a.tokenHash, NO_CLAIM)
  }

  function LeaseHolderText(ls: seq<Lease>): string
    requires ls != []
  {
    var one := (if TrimSpace(ls[0].holder) == "" then "unknown" else TrimSpace(ls[0].holder))
               + (if ls[0].id == "" then "" else " (lease=" + ls[0].id + ")");
    if |ls| == 1 then one else one + ", " + LeaseHolderText(ls[1..])
  }

  function ReservationHolderText(rs: seq<Reservation>): string
    requires rs != []
  {
    var one := (if TrimSpace(rs[0].holder) == "" then "unknown" else TrimSpace(rs[0].holder))
               + (if rs[0].id == "" then "" else " (reservation=" + rs[0].id + ")");
    if |rs| == 1 then one else one + ", " + ReservationHolderText(rs[1..])
  }

  function BlameOf(c: GpuCase): Blame
    requires c.HardCase? ==> c.reservations != []
    requires c.LeaseCase? ==> c.leases != []
  {
    match c
    case HardCase(rs) => Blame(Unauthorized, rs[0].id, "", ReservationHolderText(rs), rs[0].tokenHash)
    case LeaseCase(ls) => Blame(Unauthorized, ls[0].id, "", LeaseHolderText(ls), "")
    case HeldCase(claim) => Blame(Unauthorized, "", claim.authorizationID, claim.holder, claim.tokenHash)
    case ClaimCase(_, a) => Blame(Unauthorized, "", a.id, a.holder, a.tokenHash)
    case _ => Blame(Unauthorized, "", "", "", "")
  }

  /** `d` carries out the ruling: allowed as ruled, deferred as ruled, and killed only when denied. */
  predicate CarriesOut(ruling: Ruling, c: GpuCase, blame: Blame, v: View, d: Decision) {
    match ruling
    case Permitted(a) => d == AllowDecision(c, v, a)
    case PermittedByLease(l) =>
      d == Decision(v.process, v.info, Allow, ByLease, l.id, "", "", blame.holder, "", NO_CLAIM)
    case Denied => Denial(d, v, blame)
    case Deferred(reason) => d == Plain(v.process, v.info, Skip, reason)
  }

  /** One decision per view, in order, each carrying out its ruling. */
  predicate Answers(ruling: View -> Ruling, c: GpuCase, blame: Blame, views: seq<View>, delta: seq<Decision>) {
    |delta| == |views| && forall i :: 0 <= i < |views| ==> CarriesOut(ruling(views[i]), c, blame, views[i], delta[i])
  }

  /** Carries out one ruling. */
  method Execute(ruling: Ruling, c: GpuCase, blame: Blame, v: View, now: Time, plan: Plan)
    requires plan.Valid()
    modifies plan
    ensures plan.Valid()
    ensures exists d :: plan.decisions == old(plan.decisions) + [d] && CarriesOut(ruling, c, blame, v, d)
  {
    match ruling
    case Permitted(a) => plan.Record(AllowDecision(c, v, a));
    case PermittedByLease(l) =>
      plan.Record(Decision(v.process, v.info, Allow, ByLease, l.id, "", "", blame.holder, "", NO_CLAIM));
    case Denied => plan.KillOnce(v, blame, now);
    case Deferred(reason) => plan.Record(Plain(v.process, v.info, Skip, reason));
  }

  lemma LiveNone()
    ensures LiveViews([]) == []
  {
  }

  lemma LiveSnoc(views: seq<View>, i: nat)
    requires i < |views|
    ensures LiveViews(views[..i + 1]) == LiveViews(views[..i]) + if views[i].bypassed then [] else [views[i]]
    ensures !views[i].bypassed ==> views[i] in LiveViews(views)
  {
    assert views[..i + 1] == views[..i] + [views[i]];
    FilterSnoc(Live, views[..i], views[i]);
  }

  /** Carries out the rulings of all live views; a lookup failure either defers the view or ends the loop. */
  method ExecuteAll(ruling: View -> Ruling, stopWhenUnresolved: bool, c: GpuCase, blame: Blame, views: seq<View>,
                    now: Time, plan: Plan)
    returns (failed: bool)
    requires plan.Valid()
    modifies plan
    ensures plan.Valid()
    ensures |old(plan.decisions)| <= |plan.decisions| && plan.decisions[..|old(plan.decisions)|] == old(plan.decisions)
    ensures exists done :: 0 <= done <= |views| && (done < |views| ==> failed) &&
                           Answers(ruling, c, blame, LiveViews(views[..done]), plan.decisions[|old(plan.decisions)|..])
    ensures failed ==> exists v :: v in LiveViews(views) && ruling(v) == Deferred(ResolutionUnavailable)
  {
    hide CarriesOut, LiveViews;
    failed := false;
    ghost var before := plan.decisions;
    LiveNone();
    for i := 0 to |views|
      invariant plan.Valid()
      invariant |before| <= |plan.decisions| && plan.decisions[..|before|] == before
      invariant Answers(ruling, c, blame, LiveViews(views[..i]), plan.decisions[|before|..])
      invariant failed ==> exists v :: v in LiveViews(views) && ruling(v) == Deferred(ResolutionUnavailable)
    {
      var v := views[i];
      LiveSnoc(views, i);
      if v.bypassed {
        continue;
      }
      var r := ruling(v);
      if r == Deferred(ResolutionUnavailable) {
        failed := true;
        if stopWhenUnresolved {
          return;
        }
      }
      ghost var sofar := plan.decisions[|before|..];
      Execute(r, c, blame, v, now, plan);
      assert plan.decisions[|before|..][..|sofar|] == sofar;
    }
    assert views[..|views|] == views;
  }

  method ClaimHasMatchingProcess(rules: Rules, claim: SoftClaim, views: seq<View>) returns (verdict: Verdict)
    ensures verdict == rules.ClaimVerdict(claim, views)
  {
    if claim.tokenHash == "" {
      return Outside;
    }
    for i := 0 to |views|
      invariant forall j :: 0 <= j < i ==> !rules.Bears(claim, views[j])
    {
      var v := views[i];
      if v.bypassed || !rules.alive(claim, v.info) {
        continue;
      }
      var m := MatchAny(rules.authorizations,
                        (a: Authorization) => rules.claimable(a) && a.tokenHash == claim.tokenHash,
                        (a: Authorization) => rules.scope(a, v.info));
      if m.Unresolvable? {
        return Unknown;
      }
      if m.Matched? {
        return Inside;
      }
    }
    return Outside;
  }

  lemma SplitSnoc(answer: View -> Match<Authorization>, live: seq<View>, v: View)
    ensures Claimants(answer, live + [v]) == Claimants(answer, live) + if answer(v).Matched? then [v] else []
    ensures Others(answer, live + [v]) == Others(answer, live) + if answer(v).Matched? then [] else [v]
  {
    FilterSnoc((x: View) => answer(x).Matched?, live, v);
    FilterSnoc((x: View) => !answer(x).Matched?, live, v);
  }

  lemma NothingSplit(answer: View -> Match<Authorization>)
    ensures LiveViews([]) == [] && Claimants(answer, []) == [] && Others(answer, []) == []
  {
  }

  /** The live views split into claimants and the rest, unless a lookup failed. */
  method SplitClaimants(views: seq<View>, answer: View -> Match<Authorization>)
    returns (failed: bool, claimants: seq<View>, others: seq<View>)
    ensures failed <==> exists v :: v in LiveViews(views) && answer(v).Unresolvable?
    ensures !failed ==> claimants == Claimants(answer, LiveViews(views)) && others == Others(answer, LiveViews(views))
  {
    failed, claimants, others := false, [], [];
    ghost var live: seq<View> := [];
    NothingSplit(answer);
    hide LiveViews, Claimants, Others;
    for i := 0 to |views|
      invariant !failed && live == LiveViews(views[..i])
      invariant forall v :: v in live ==> !answer(v).Unresolvable?
      invariant claimants == Claimants(answer, live) && others == Others(answer, live)
    {
      var v := views[i];
      LiveSnoc(views, i);
      if v.bypassed {
        continue;
      }
      if answer(v).Unresolvable? {
        return true, [], [];
      }
      SplitSnoc(answer, live, v);
      live := live + [v];
      if answer(v).Matched? {
        claimants := claimants + [v];
      } else {
        others := others + [v];
      }
    }
    assert views[..|views|] == views;
  }

  function ClaimDecision(claim: SoftClaim, a: Authorization): Decision {
    Decision(NO_PROCESS, NO_INFO, MakeClaim, ByClaim, "", a.id, "", a.holder, a.tokenHash, claim)
  }

  /** The order in which a GPU's live views are answered: a new claim answers claimants first. */
  function AnswerOrder(rules: Rules, c: GpuCase, views: seq<View>): seq<View> {
    var live := LiveViews(views);
    if c.ClaimCase? then Claimants(rules.AnyAnswer(), live) + Others(rules.AnyAnswer(), live) else live
  }

  function RulingsOf(rules: Rules, c: GpuCase): View -> Ruling { (v: View) => RulingFor(rules, c, v) }

  /** The first decision of a GPU that somebody newly claims. */
  function Opening(rules: Rules, gpu: int, c: GpuCase): seq<Decision> {
    if c.ClaimCase? then [ClaimDecision(rules.newClaim(gpu, c.auth, c.view.info), c.auth)] else []
  }

  predicate Grounded(c: GpuCase) {
    (c.HardCase? ==> c.reservations != []) && (c.LeaseCase? ==> c.leases != [])
  }

  /** The answers to a prefix of `order`, which is all of it unless a lookup failed. */
  ghost predicate AnswersPrefix(ruling: View -> Ruling, c: GpuCase, blame: Blame, order: seq<View>,
                                delta: seq<Decision>, failed: bool)
  {
    |delta| <= |order| && (|delta| < |order| ==> failed) && Answers(ruling, c, blame, order[..|delta|], delta)
  }

  /** What one GPU adds to the plan: at most a new claim, then one answer per live view. */
  ghost predicate GpuDelta(rules: Rules, gpu: int, views: seq<View>, delta: seq<Decision>, failed: bool)
    requires Grounded(CaseOf(rules, gpu, views))
  {
    var c := CaseOf(rules, gpu, views);
    var head := Opening(rules, gpu, c);
    if c.FailedCase? then failed && delta == []
    else
      && head <= delta
      && AnswersPrefix(RulingsOf(rules, c), c, BlameOf(c), AnswerOrder(rules, c, views), delta[|head|..], failed)
  }

  lemma LivePrefix(views: seq<View>, done: nat)
    requires done <= |views|
    ensures LiveViews(views[..done]) <= LiveViews(views)
    ensures done == |views| ==> LiveViews(views[..done]) == LiveViews(views)
  {
    assert views == views[..done] + views[done..];
    FilterConcat(Live, views[..done], views[done..]);
  }

  /** Answers every live view of a GPU whose case is settled. */
  method AnswerViews(rules: Rules, stopWhenUnresolved: bool, c: GpuCase, views: seq<View>, plan: Plan)
    returns (failed: bool)
    requires plan.Valid() && Grounded(c)
    modifies plan
    ensures plan.Valid()
    ensures |old(plan.decisions)| <= |plan.decisions| && plan.decisions[..|old(plan.decisions)|] == old(plan.decisions)
    ensures AnswersPrefix(RulingsOf(rules, c), c, BlameOf(c), LiveViews(views),
                          plan.decisions[|old(plan.decisions)|..], failed)
    ensures failed ==> exists v :: v in LiveViews(views) && RulingFor(rules, c, v) == Deferred(ResolutionUnavailable)
  {
    ghost var before := |plan.decisions|;
    failed := ExecuteAll(RulingsOf(rules, c), stopWhenUnresolved, c, BlameOf(c), views, rules.now, plan);
    ghost var done :| 0 <= done <= |views| && (done < |views| ==> failed) &&
      Answers(RulingsOf(rules, c), c, BlameOf(c), LiveViews(views[..done]), plan.decisions[before..]);
    AnsweredSoFar(RulingsOf(rules, c), c, BlameOf(c), views, done, plan.decisions[before..], failed);
  }

  lemma AnsweredSoFar(ruling: View -> Ruling, c: GpuCase, blame: Blame, views: seq<View>, done: nat,
                      delta: seq<Decision>, failed: bool)
    requires done <= |views| && (done < |views| ==> failed)
    requires Answers(ruling, c, blame, LiveViews(views[..done]), delta)
    ensures AnswersPrefix(ruling, c, blame, LiveViews(views), delta, failed)
  {
    hide CarriesOut;
    LivePrefix(views, done);
  }

  /** The lookups that can make a GPU's answers incomplete. */
  ghost predicate SomeLookupFails(rules: Rules, gpu: int, views: seq<View>)
    requires Grounded(CaseOf(rules, gpu, views))
  {
    var c := CaseOf(rules, gpu, views);
    c.FailedCase? || exists v :: v in LiveViews(views) && RulingFor(rules, c, v) == Deferred(ResolutionUnavailable)
  }

  method EnforceGPU(rules: Rules, gpu: int, views: seq<View>, plan: Plan) returns (failed: bool)
    requires plan.Valid()
    modifies plan
    ensures plan.Valid() && Grounded(CaseOf(rules, gpu, views))
    ensures |old(plan.decisions)| <= |plan.decisions| && plan.decisions[..|old(plan.decisions)|] == old(plan.decisions)
    ensures GpuDelta(rules, gpu, views, plan.decisions[|old(plan.decisions)|..], failed)
    ensures failed ==> SomeLookupFails(rules, gpu, views)
  {
    hide AnswersPrefix, RulingFor, BlameOf, LiveViews;
    var reservations := rules.reservationsOn(gpu);
    if reservations != [] {
      failed := AnswerViews(rules, false, HardCase(reservations), views, plan);
      return;
    }
    var leases := rules.leasesOn(gpu);
    if leases != [] {
      failed := AnswerViews(rules, false, LeaseCase(leases), views, plan);
      return;
    }
    failed := EnforceSoft(rules, gpu, views, plan);
  }

  method EnforceSoft(rules: Rules, gpu: int, views: seq<View>, plan: Plan) returns (failed: bool)
    requires plan.Valid() && rules.reservationsOn(gpu) == [] && rules.leasesOn(gpu) == []
    modifies plan
    ensures plan.Valid() && Grounded(CaseOf(rules, gpu, views))
    ensures |old(plan.decisions)| <= |plan.decisions| && plan.decisions[..|old(plan.decisions)|] == old(plan.decisions)
    ensures GpuDelta(rules, gpu, views, plan.decisions[|old(plan.decisions)|..], failed)
    ensures failed ==> SomeLookupFails(rules, gpu, views)
  {
    var claims := rules.claimsOn(gpu);
    if claims != [] {
      var verdict := ClaimHasMatchingProcess(rules, claims[0], views);
      match verdict {
        case Unknown => failed := true;
        case Inside => failed := AnswerViews(rules, true, HeldCase(claims[0]), views, plan);
        case Outside => failed := AnswerViews(rules, false, VacatedCase, views, plan);
      }
    } else {
      failed := EnforceUnclaimed(rules, gpu, views, plan);
    }
  }

  method EnforceUnclaimed(rules: Rules, gpu: int, views: seq<View>, plan: Plan) returns (failed: bool)
    requires plan.Valid() && rules.reservationsOn(gpu) == [] && rules.leasesOn(gpu) == [] && rules.claimsOn(gpu) == []
    modifies plan
    ensures plan.Valid() && Grounded(CaseOf(rules, gpu, views))
    ensures |old(plan.decisions)| <= |plan.decisions| && plan.decisions[..|old(plan.decisions)|] == old(plan.decisions)
    ensures GpuDelta(rules, gpu, views, plan.decisions[|old(plan.decisions)|..], failed)
    ensures failed ==> SomeLookupFails(rules, gpu, views)
  {
    var lookupFailed, claimants, others := SplitClaimants(views, rules.AnyAnswer());
    if lookupFailed {
      return true;
    }
    if claimants == [] {
      failed := AnswerViews(rules, false, IdleCase, views, plan);
      return;
    }
    ClaimCaseOrder(rules, gpu, views);
    var owner := rules.AnyMatch(claimants[0].info).value;
    failed := AnswerClaim(rules, gpu, ClaimCase(claimants[0], owner), claimants + others, plan);
  }

  lemma ClaimCaseOrder(rules: Rules, gpu: int, views: seq<View>)
    requires rules.reservationsOn(gpu) == [] && rules.leasesOn(gpu) == [] && rules.claimsOn(gpu) == []
    requires Claimants(rules.AnyAnswer(), LiveViews(views)) != []
    requires forall v :: v in LiveViews(views) ==> !rules.AnyMatch(v.info).Unresolvable?
    ensures var claimants := Claimants(rules.AnyAnswer(), LiveViews(views));
            var c := CaseOf(rules, gpu, views);
            && rules.AnyMatch(claimants[0].info).Matched?
            && c == ClaimCase(claimants[0], rules.AnyMatch(claimants[0].info).value)
            && LiveViews(AnswerOrder(rules, c, views)) == AnswerOrder(rules, c, views)
  {
    var claimants := Claimants(rules.AnyAnswer(), LiveViews(views));
    assert claimants[0] in claimants;
  }

  /** Announces the new claim and answers the views in the given order. */
  method AnswerClaim(rules: Rules, gpu: int, c: GpuCase, order: seq<View>, plan: Plan) returns (failed: bool)
    requires plan.Valid() && c.ClaimCase? && LiveViews(order) == order
    modifies plan
    ensures plan.Valid() && !failed
    ensures |old(plan.decisions)| <= |plan.decisions| && plan.decisions[..|old(plan.decisions)|] == old(plan.decisions)
    ensures var delta := plan.decisions[|old(plan.decisions)|..];
            && Opening(rules, gpu, c) <= delta
            && AnswersPrefix(RulingsOf(rules, c), c, BlameOf(c), order, delta[1..], false)
  {
    plan.Record(ClaimDecision(rules.newClaim(gpu, c.auth, c.view.info), c.auth));
    ghost var before := plan.decisions;
    failed := AnswerViews(rules, false, c, order, plan);
    assert plan.decisions[|old(plan.decisions)|..][1..] == plan.decisions[|before|..];
  }
}
