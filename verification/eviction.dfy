/**
 Stale-scope eviction: processes that still use a GPU through an authorization or lease
 whose entitlement ended.
 */
module Eviction {
  import opened Model
  import opened Sequences
  import opened Scopes
  import opened Planning

  /**
   What eviction knows at one instant: the stored scopes, their standing on each GPU, and the
   host's answers about a process.
   */
  datatype Ledger = Ledger(
    authorizations: seq<Authorization>, leases: seq<Lease>,
    standing: (Authorization, int) -> Standing, leaseStanding: (Lease, int) -> Standing,
    scope: (Authorization, ProcInfo) -> Verdict, leaseScope: (Lease, ProcInfo) -> Verdict,
    info: int -> InfoAnswer, bypassed: ProcInfo -> bool, reservationID: (int, string) -> string, now: Time)
  {
    /** The process is inside some scope that is still entitled on `gpu`. */
    predicate Entitled(gpu: int, proc: ProcInfo) {
      || (exists a :: a in authorizations && standing(a, gpu).entitled && scope(a, proc).Inside?)
      || (exists l :: l in leases && leaseStanding(l, gpu).entitled && leaseScope(l, proc).Inside?)
    }

    /** Every scope consulted for the row could be resolved. */
    predicate Resolved(gpu: int, proc: ProcInfo) {
      && (forall a :: a in authorizations && Consulted(standing(a, gpu)) ==> !scope(a, proc).Unknown?)
      && (forall l :: l in leases && Consulted(leaseStanding(l, gpu)) ==> !leaseScope(l, proc).Unknown?)
    }

    predicate StaleInside(a: Authorization, gpu: int, proc: ProcInfo) {
      standing(a, gpu).stale && scope(a, proc).Inside?
    }
    predicate StaleLeaseInside(l: Lease, gpu: int, proc: ProcInfo) {
      leaseStanding(l, gpu).stale && leaseScope(l, proc).Inside?
    }

    /** The process is inside a scope that went stale on `gpu`. */
    predicate Straggler(gpu: int, proc: ProcInfo) {
      || (exists a :: a in authorizations && StaleInside(a, gpu, proc))
      || (exists l :: l in leases && StaleLeaseInside(l, gpu, proc))
    }

    /** The one reason eviction may kill a row. */
    predicate Evictable(gpu: int, proc: ProcInfo) {
      Straggler(gpu, proc) && !Entitled(gpu, proc) && Resolved(gpu, proc) && !bypassed(proc)
    }
  }

  function FirstReservationID(s: State, gpu: int, hash: string): string {
    var rows := Filter((r: Reservation) => r.gpu == gpu && r.tokenHash == hash && hash != "", s.reservations);
    if rows == [] then "" else rows[0].id
  }

  function Inspect(s: State, host: Host, now: Time): Ledger {
    var tokens := TokensByHash(s.tokens);
    var valid, stale := ValidKeys(s, now), StaleKeys(s, now);
    Ledger(s.authorizations, s.leases,
           (a: Authorization, gpu: int) => AuthorizationStanding(a, gpu, tokens, valid, stale, now),
           (l: Lease, gpu: int) => LeaseStanding(l, gpu, tokens, now),
           (a: Authorization, proc: ProcInfo) => AuthorizationScope(host, a, proc),
           (l: Lease, proc: ProcInfo) => LeaseScope(host, l, proc),
           host.info,
           (proc: ProcInfo) => BypassMatch(s.bypasses, proc, now, host.bootID),
           (gpu: int, hash: string) => FirstReservationID(s, gpu, hash),
           now)
  }

  datatype Scan<T> = ScanFailed | ScanEntitled | ScanStale(held: seq<T>)

  predicate Consulted(s: Standing) { s.entitled || s.stale }

  /** The scan ends at the scope: its lookup failed, or it entitles the process. */
  predicate Stops(s: Standing, v: Verdict) { Consulted(s) && (v.Unknown? || (s.entitled && v.Inside?)) }

  /** What a scan over stored scopes finds: the first scope that ends it decides. */
  function ScanOf<T(!new)>(scopes: seq<T>, standing: T -> Standing, verdict: T -> Verdict): Scan<T> {
    var i := IndexWhere((x: T) => Stops(standing(x), verdict(x)), scopes);
    if i == |scopes| then ScanStale(Filter((x: T) => standing(x).stale && verdict(x).Inside?, scopes))
    else if verdict(scopes[i]).Unknown? then ScanFailed
    else ScanEntitled
  }

  /** One pass over stored scopes, stopping at the first failed lookup or entitled match. */
  method ScanScopes<T(!new)>(scopes: seq<T>, standing: T -> Standing, verdict: T -> Verdict) returns (r: Scan<T>)
    ensures r == ScanOf(scopes, standing, verdict)
    ensures r.ScanFailed? ==> exists x :: x in scopes && Consulted(standing(x)) && verdict(x).Unknown?
    ensures r.ScanEntitled? ==> exists x :: x in scopes && standing(x).entitled && verdict(x).Inside?
    ensures r.ScanStale? ==>
              && (forall x :: x in scopes && Consulted(standing(x)) ==> !verdict(x).Unknown?)
              && (forall x :: x in scopes && standing(x).entitled ==> !verdict(x).Inside?)
              && r.held == Filter((x: T) => standing(x).stale && verdict(x).Inside?, scopes)
  {
    hide Filter;
    var held: seq<T> := [];
    FilterNone((x: T) => standing(x).stale && verdict(x).Inside?, []);
    for i := 0 to |scopes|
      invariant held == Filter((x: T) => standing(x).stale && verdict(x).Inside?, scopes[..i])
      invariant forall j :: 0 <= j < i ==> !Stops(standing(scopes[j]), verdict(scopes[j]))
    {
      var x := scopes[i];
      assert scopes[..i + 1] == scopes[..i] + [x];
      FilterSnoc((y: T) => standing(y).stale && verdict(y).Inside?, scopes[..i], x);
      if standing(x).entitled || standing(x).stale {
        if verdict(x).Unknown? {
          return ScanFailed;
        }
        if verdict(x).Inside? {
          if standing(x).entitled {
            return ScanEntitled;
          }
          held := held + [x];
        }
      }
    }
    assert scopes[..|scopes|] == scopes;
    forall x | x in scopes ensures !Stops(standing(x), verdict(x)) {
      var j :| 0 <= j < |scopes| && scopes[j] == x;
    }
    r := ScanStale(held);
  }

  datatype Judgement =
    | Unresolved
    | StillEntitled
    | Judged(authorizations: seq<Authorization>, leases: seq<Lease>)

  function ScanAuthorizations(led: Ledger, gpu: int, info: ProcInfo): Scan<Authorization> {
    ScanOf(led.authorizations, (a: Authorization) => led.standing(a, gpu), (a: Authorization) => led.scope(a, info))
  }

  function ScanLeases(led: Ledger, gpu: int, info: ProcInfo): Scan<Lease> {
    ScanOf(led.leases, (l: Lease) => led.leaseStanding(l, gpu), (l: Lease) => led.leaseScope(l, info))
  }

  /** Authorizations first, then leases, exactly as long as nothing failed and nothing is entitled. */
  function Judge(led: Ledger, gpu: int, info: ProcInfo): Judgement {
    var auths, leases := ScanAuthorizations(led, gpu, info), ScanLeases(led, gpu, info);
    if auths.ScanFailed? then Unresolved
    else if auths.ScanEntitled? then StillEntitled
    else if leases.ScanFailed? then Unresolved
    else if leases.ScanEntitled? then StillEntitled
    else Judged(auths.held, leases.held)
  }

  method JudgeRow(led: Ledger, gpu: int, info: ProcInfo) returns (j: Judgement)
    ensures j == Judge(led, gpu, info)
    ensures j.Judged? <==> led.Resolved(gpu, info) && !led.Entitled(gpu, info)
    ensures j.Unresolved? ==> !led.Resolved(gpu, info)
    ensures j.StillEntitled? ==> led.Entitled(gpu, info)
    ensures j.Judged? ==>
              && (forall a :: a in j.authorizations <==> a in led.authorizations && led.StaleInside(a, gpu, info))
              && (forall l :: l in j.leases <==> l in led.leases && led.StaleLeaseInside(l, gpu, info))
  {
    hide ScanOf;
    var auths := ScanScopes(led.authorizations,
                            (a: Authorization) => led.standing(a, gpu), (a: Authorization) => led.scope(a, info));
    if auths.ScanFailed? {
      return Unresolved;
    }
    if auths.ScanEntitled? {
      return StillEntitled;
    }
    var leases := ScanScopes(led.leases,
                             (l: Lease) => led.leaseStanding(l, gpu), (l: Lease) => led.leaseScope(l, info));
    if leases.ScanFailed? {
      return Unresolved;
    }
    if leases.ScanEntitled? {
      return StillEntitled;
    }
    j := Judged(auths.held, leases.held);
  }

  /** For each stale scope: was it conclusively quiescent in this sample? */
  datatype Assessment = Assessment(authorizations: map<string, bool>, leases: map<string, bool>)

  function Flag(m: map<string, bool>, ids: set<string>): map<string, bool> {
    map id | id in m.Keys + ids :: id in m && m[id] && id !in ids
  }

  function Uncertain(assessment: Assessment): Assessment {
    Assessment(map id | id in assessment.authorizations :: false, map id | id in assessment.leases :: false)
  }

  function FreshAssessment(s: State, now: Time): Assessment {
    Assessment(map id | id in AssessedAuthorizations(s, now) :: true, map id | id in AssessedLeases(s, now) :: true)
  }

  predicate Clean(m: map<string, bool>, id: string) { id in m && m[id] }

  /** The row's process is known, resolved and entitled by nobody, and inside the stale authorization. */
  predicate SpeaksAgainst(led: Ledger, row: GPUProcess, a: Authorization) {
    0 < row.pid && match led.info(row.pid)
                   case Known(info) =>
                     && led.Resolved(row.gpu, info) && !led.Entitled(row.gpu, info)
                     && led.StaleInside(a, row.gpu, info)
                   case _ => false
  }

  predicate SpeaksAgainstLease(led: Ledger, row: GPUProcess, l: Lease) {
    0 < row.pid && match led.info(row.pid)
                   case Known(info) =>
                     && led.Resolved(row.gpu, info) && !led.Entitled(row.gpu, info)
                     && led.StaleLeaseInside(l, row.gpu, info)
                   case _ => false
  }

  /** A lookup about the row's process fails before anything entitles it. */
  predicate RowFails(led: Ledger, row: GPUProcess) {
    0 < row.pid && match led.info(row.pid)
                   case Known(info) => Judge(led, row.gpu, info).Unresolved?
                   case Exited => false
                   case Unreadable => true
  }

  /** A decision that eviction may take for a sampled row. */
  predicate Evicts(led: Ledger, row: GPUProcess, d: Decision) {
    && d.process == row && 0 < row.pid
    && led.info(row.pid) == Known(d.info)
    && led.Evictable(row.gpu, d.info)
    && (d.action.Kill? || (d.action.Skip? && d.reason.BudgetExhausted?))
  }

  /** The row's process is live, still known to the host and to be evicted. */
  predicate MustEvict(led: Ledger, row: GPUProcess) {
    0 < row.pid && match led.info(row.pid)
                   case Known(info) => led.Evictable(row.gpu, info)
                   case _ => false
  }

  predicate DistinctPIDs(decisions: seq<Decision>) {
    forall i, j :: 0 <= i < j < |decisions| ==> decisions[i].process.pid != decisions[j].process.pid
  }

  function DecidedPIDs(decisions: seq<Decision>): set<int> { set d | d in decisions :: d.process.pid }

  // ----- What a sample comes to -----

  /** The PIDs of the rows that are to be evicted. */
  function EvictablePIDs(led: Ledger, rows: seq<GPUProcess>): set<int> {
    set row | row in rows && MustEvict(led, row) :: row.pid
  }

  /** Row `i` is looked at: no earlier row of its PID is to be evicted. */
  predicate Considered(led: Ledger, rows: seq<GPUProcess>, i: nat)
    requires i < |rows|
  {
    rows[i].pid !in EvictablePIDs(led, rows[..i])
  }

  /** The rows that get an eviction decision: the first one to be evicted of each PID. */
  function EvictedRows(led: Ledger, rows: seq<GPUProcess>): seq<GPUProcess> {
    if rows == [] then []
    else
      var n := |rows| - 1;
      EvictedRows(led, rows[..n]) + if MustEvict(led, rows[n]) && Considered(led, rows, n) then [rows[n]] else []
  }

  predicate SomeRowFails(led: Ledger, rows: seq<GPUProcess>) {
    exists i :: 0 <= i < |rows| && Considered(led, rows, i) && RowFails(led, rows[i])
  }

  function RowFlags(led: Ledger, row: GPUProcess): set<string> {
    set a | a in led.authorizations && SpeaksAgainst(led, row, a) :: a.id
  }

  function RowLeaseFlags(led: Ledger, row: GPUProcess): set<string> {
    set l | l in led.leases && SpeaksAgainstLease(led, row, l) :: l.id
  }

  /** The authorizations that the sample speaks against, as far as its rows are looked at. */
  function Flags(led: Ledger, rows: seq<GPUProcess>): set<string> {
    if rows == [] then {}
    else
      var n := |rows| - 1;
      Flags(led, rows[..n]) + if Considered(led, rows, n) then RowFlags(led, rows[n]) else {}
  }

  function LeaseFlags(led: Ledger, rows: seq<GPUProcess>): set<string> {
    if rows == [] then {}
    else
      var n := |rows| - 1;
      LeaseFlags(led, rows[..n]) + if Considered(led, rows, n) then RowLeaseFlags(led, rows[n]) else {}
  }

  function Graded(m: map<string, bool>, flags: set<string>, failed: bool): map<string, bool> {
    map id | id in m.Keys + flags :: id in m && m[id] && id !in flags && !failed
  }

  /**
   The assessment of a sample: clean is what was to be assessed, unless something failed or a row
   speaks against it.
   */
  function Assessed(led: Ledger, initial: Assessment, rows: seq<GPUProcess>, failed: bool): Assessment {
    Assessment(Graded(initial.authorizations, Flags(led, rows), failed),
               Graded(initial.leases, LeaseFlags(led, rows), failed))
  }

  lemma {:induction false} FlaggedIff(led: Ledger, rows: seq<GPUProcess>, id: string)
    ensures id in Flags(led, rows) <==>
              exists i, a :: 0 <= i < |rows| && Considered(led, rows, i) && a in led.authorizations && a.id == id
                             && SpeaksAgainst(led, rows[i], a)
  {
    hide SpeaksAgainst, EvictablePIDs;
    if rows != [] {
      var n := |rows| - 1;
      var front := rows[..n];
      FlaggedIff(led, front, id);
      forall i | 0 <= i < n ensures front[i] == rows[i] && (Considered(led, front, i) <==> Considered(led, rows, i)) {
        assert front[..i] == rows[..i];
      }
    }
  }

  lemma {:induction false} LeaseFlaggedIff(led: Ledger, rows: seq<GPUProcess>, id: string)
    ensures id in LeaseFlags(led, rows) <==>
              exists i, l :: 0 <= i < |rows| && Considered(led, rows, i) && l in led.leases && l.id == id
                             && SpeaksAgainstLease(led, rows[i], l)
  {
    hide SpeaksAgainstLease, EvictablePIDs;
    if rows != [] {
      var n := |rows| - 1;
      var front := rows[..n];
      LeaseFlaggedIff(led, front, id);
      forall i | 0 <= i < n ensures front[i] == rows[i] && (Considered(led, front, i) <==> Considered(led, rows, i)) {
        assert front[..i] == rows[..i];
      }
    }
  }

  /**
   An authorization is called clean if and only if it was to be assessed, nothing failed, and no row
   speaks against it that is not preceded by an evicted row of its PID.
   */
  lemma CleanIff(led: Ledger, initial: Assessment, rows: seq<GPUProcess>, failed: bool, id: string)
    ensures Clean(Assessed(led, initial, rows, failed).authorizations, id) <==>
              && Clean(initial.authorizations, id) && !failed
              && forall i, a :: 0 <= i < |rows| && Considered(led, rows, i) && a in led.authorizations && a.id == id ==>
                   !SpeaksAgainst(led, rows[i], a)
  {
    hide SpeaksAgainst, Considered, Flags;
    FlaggedIff(led, rows, id);
  }

  lemma CleanLeaseIff(led: Ledger, initial: Assessment, rows: seq<GPUProcess>, failed: bool, id: string)
    ensures Clean(Assessed(led, initial, rows, failed).leases, id) <==>
              && Clean(initial.leases, id) && !failed
              && forall i, l :: 0 <= i < |rows| && Considered(led, rows, i) && l in led.leases && l.id == id ==>
                   !SpeaksAgainstLease(led, rows[i], l)
  {
    hide SpeaksAgainstLease, Considered, LeaseFlags;
    LeaseFlaggedIff(led, rows, id);
  }

  /** The decision names the first stale authorization, or failing that the first stale lease. */
  function Attribution(led: Ledger, gpu: int, auths: seq<Authorization>, leases: seq<Lease>): Blame {
    if auths != [] && auths[0].id != "" then
      Blame(EntitlementEnded, led.reservationID(gpu, auths[0].tokenHash), auths[0].id,
            auths[0].holder, auths[0].tokenHash)
    else if leases != [] then Blame(EntitlementEnded, leases[0].id, "", leases[0].holder, leases[0].tokenHash)
    else Blame(EntitlementEnded, "", "", "", "")
  }

  /** What a plan holds so far. */
  datatype Outlook = Outlook(decisions: seq<Decision>, targeted: set<int>, pending: seq<KillRequest>)

  ghost function OutlookOf(plan: Plan): Outlook
    reads plan
  {
    Outlook(plan.decisions, plan.targeted, plan.pending)
  }

  /** One more row: a decision and perhaps a queued kill if it is to be evicted, otherwise nothing. */
  ghost predicate PlansRow(led: Ledger, row: GPUProcess, before: Outlook, after: Outlook) {
    if MustEvict(led, row) && row.pid !in before.targeted then
      && after.targeted == before.targeted + {row.pid}
      && |after.decisions| == |before.decisions| + 1 && before.decisions <= after.decisions
      && Evicts(led, row, after.decisions[|before.decisions|])
      && before.pending <= after.pending
      && (forall k :: k in after.pending[|before.pending|..] ==>
            k.view.process == row && after.decisions[|before.decisions|].action.Kill?)
    else after == before
  }

  /** Exactly the rows to be evicted are decided about, once per PID and in order, and every queued kill was decided. */
  ghost predicate Planned(led: Ledger, rows: seq<GPUProcess>, o: Outlook) {
    && Decides(led, rows, o.decisions) && o.targeted == EvictablePIDs(led, rows)
    && (forall k :: k in o.pending ==> exists d :: d in o.decisions && d.process == k.view.process && d.action.Kill?)
  }

  ghost predicate Decides(led: Ledger, rows: seq<GPUProcess>, decisions: seq<Decision>) {
    && |decisions| == |EvictedRows(led, rows)|
    && forall i :: 0 <= i < |decisions| ==> Evicts(led, EvictedRows(led, rows)[i], decisions[i])
  }

  predicate DistinctRowPIDs(rows: seq<GPUProcess>) { forall i, j :: 0 <= i < j < |rows| ==> rows[i].pid != rows[j].pid }

  lemma {:induction false} EvictedRowsAreFirst(led: Ledger, rows: seq<GPUProcess>)
    ensures forall row :: row in EvictedRows(led, rows) ==> row in rows && MustEvict(led, row)
    ensures forall pid :: pid in EvictablePIDs(led, rows) <==>
              exists row :: row in EvictedRows(led, rows) && row.pid == pid
    ensures DistinctRowPIDs(EvictedRows(led, rows))
  {
    hide MustEvict, EvictedRows;
    if rows == [] {
      NothingPlanned(led);
    } else {
      var front, row := rows[..|rows| - 1], rows[|rows| - 1];
      assert rows == front + [row];
      EvictedRowsAreFirst(led, front);
      EvictedSnoc(led, front, row);
      OneMoreEvicted(led, front, row);
    }
  }

  lemma OneMoreEvicted(led: Ledger, front: seq<GPUProcess>, row: GPUProcess)
    requires forall pid :: pid in EvictablePIDs(led, front) <==>
               exists r :: r in EvictedRows(led, front) && r.pid == pid
    requires DistinctRowPIDs(EvictedRows(led, front))
    ensures DistinctRowPIDs(EvictedRows(led, front + [row]))
    ensures forall pid :: pid in EvictablePIDs(led, front + [row]) <==>
              exists r :: r in EvictedRows(led, front + [row]) && r.pid == pid
  {
    hide MustEvict, EvictedRows, EvictablePIDs;
    EvictedSnoc(led, front, row);
    var evicted := EvictedRows(led, front);
    assert forall i :: 0 <= i < |evicted| ==> evicted[i] in evicted;
  }

  /** What the decisions of a sample amount to, row by row and PID by PID. */
  lemma DecidesMeans(led: Ledger, rows: seq<GPUProcess>, decisions: seq<Decision>)
    requires Decides(led, rows, decisions)
    ensures DistinctPIDs(decisions) && DecidedPIDs(decisions) == EvictablePIDs(led, rows)
    ensures forall d :: d in decisions ==> d.process in rows && Evicts(led, d.process, d)
  {
    hide MustEvict, EvictedRows, Evicts, EvictablePIDs, DecidedPIDs;
    EvictedRowsAreFirst(led, rows);
    var evicted := EvictedRows(led, rows);
    forall i | 0 <= i < |decisions| ensures decisions[i].process == evicted[i] && evicted[i] in evicted {
      EvictedRow(led, evicted[i], decisions[i]);
    }
    SamePIDs(evicted, decisions);
    assert forall pid :: pid in DecidedPIDs(decisions) <==> pid in EvictablePIDs(led, rows);
  }

  lemma SamePIDs(rows: seq<GPUProcess>, decisions: seq<Decision>)
    requires |decisions| == |rows| && forall i :: 0 <= i < |rows| ==> decisions[i].process == rows[i]
    ensures forall pid :: pid in DecidedPIDs(decisions) <==> exists row :: row in rows && row.pid == pid
  {
    forall pid | exists row :: row in rows && row.pid == pid ensures pid in DecidedPIDs(decisions) {
      var row :| row in rows && row.pid == pid;
      var i :| 0 <= i < |rows| && rows[i] == row;
      assert decisions[i] in decisions;
    }
    forall d | d in decisions ensures d.process in rows {
      var i :| 0 <= i < |decisions| && decisions[i] == d;
    }
  }

  lemma NothingPlanned(led: Ledger)
    ensures Planned(led, [], Outlook([], {}, []))
  {
  }

  lemma PlannedSnoc(led: Ledger, rows: seq<GPUProcess>, row: GPUProcess, before: Outlook, after: Outlook)
    requires Planned(led, rows, before) && PlansRow(led, row, before, after)
    ensures Planned(led, rows + [row], after)
  {
    hide Evicts, MustEvict;
    var all := rows + [row];
    assert all[..|rows|] == rows && all[|rows|] == row;
    EvictedSnoc(led, rows, row);
    if MustEvict(led, row) && row.pid !in before.targeted {
      var n := |before.decisions|;
      assert after.decisions == before.decisions + [after.decisions[n]];
      assert after.pending == before.pending + after.pending[|before.pending|..];
      EvictedRow(led, row, after.decisions[n]);
    }
  }

  lemma EvictedSnoc(led: Ledger, rows: seq<GPUProcess>, row: GPUProcess)
    ensures EvictablePIDs(led, rows + [row]) == EvictablePIDs(led, rows) + if MustEvict(led, row) then {row.pid} else {}
    ensures EvictedRows(led, rows + [row])
         == EvictedRows(led, rows) + if MustEvict(led, row) && row.pid !in EvictablePIDs(led, rows) then [row] else []
  {
    hide MustEvict;
    assert (rows + [row])[..|rows|] == rows;
  }

  lemma EvictedRow(led: Ledger, row: GPUProcess, d: Decision)
    requires Evicts(led, row, d)
    ensures d.process == row
  {
  }

  function FlagRow(led: Ledger, row: GPUProcess, a: Assessment): Assessment {
    Assessment(Flag(a.authorizations, RowFlags(led, row)), Flag(a.leases, RowLeaseFlags(led, row)))
  }

  /** One sampled row: exactly what it fails at, what it speaks against and whom it gets evicted. */
  method EvictRow(led: Ledger, row: GPUProcess, plan: Plan, initial: Assessment)
    returns (assessment: Assessment, failed: bool)
    requires plan.Valid()
    modifies plan
    ensures plan.Valid()
    ensures failed <==> row.pid !in old(plan.targeted) && RowFails(led, row)
    ensures assessment == if row.pid in old(plan.targeted) then initial
                          else if failed then Uncertain(initial)
                          else FlagRow(led, row, initial)
    ensures PlansRow(led, row, old(OutlookOf(plan)), OutlookOf(plan))
  {
    hide Ledger.StaleInside, Ledger.StaleLeaseInside, Ledger.Entitled, Ledger.Resolved, Attribution, Flag, Judge;
    hide Plan.Valid;
    assessment, failed := initial, false;
    if row.pid <= 0 || row.pid in plan.targeted {
      if row.pid <= 0 {
        NoFlags(led, row, initial);
      }
      return;
    }
    var answer := led.info(row.pid);
    if answer.Exited? {
      NoFlags(led, row, initial);
      return;
    }
    if answer.Unreadable? {
      return Uncertain(initial), true;
    }
    var info := answer.info;
    var judgement := JudgeRow(led, row.gpu, info);
    if judgement.Unresolved? {
      UnresolvedIsKept(led, row.gpu, info);
      return Uncertain(initial), true;
    }
    if judgement.StillEntitled? {
      UnresolvedIsKept(led, row.gpu, info);
      NoFlags(led, row, initial);
      return;
    }
    var auths, leases := judgement.authorizations, judgement.leases;
    JudgedFlags(led, row, info, auths, leases);
    if auths == [] && leases == [] {
      NobodyInside(led, row.gpu, info);
      NoFlags(led, row, initial);
      return;
    }
    assessment := Assessment(Flag(initial.authorizations, set a | a in auths :: a.id),
                             Flag(initial.leases, set l | l in leases :: l.id));
    if led.bypassed(info) {
      BypassedIsKept(led, row.gpu, info);
      return;
    }
    StragglersAreEvictable(led, row.gpu, info, auths, leases);
    plan.KillProcess(View(row, info, false), Attribution(led, row.gpu, auths, leases), led.now);
  }

  /** A row that speaks against nothing leaves the assessment as it is. */
  lemma NoFlags(led: Ledger, row: GPUProcess, initial: Assessment)
    requires forall a :: a in led.authorizations ==> !SpeaksAgainst(led, row, a)
    requires forall l :: l in led.leases ==> !SpeaksAgainstLease(led, row, l)
    ensures FlagRow(led, row, initial) == initial
  {
    hide SpeaksAgainst, SpeaksAgainstLease;
    assert RowFlags(led, row) == {} && RowLeaseFlags(led, row) == {};
  }

  /** The scopes around a judged process are those that its row speaks against. */
  lemma JudgedFlags(led: Ledger, row: GPUProcess, info: ProcInfo, auths: seq<Authorization>, leases: seq<Lease>)
    requires 0 < row.pid && led.info(row.pid) == Known(info)
    requires led.Resolved(row.gpu, info) && !led.Entitled(row.gpu, info)
    requires forall a :: a in auths <==> a in led.authorizations && led.StaleInside(a, row.gpu, info)
    requires forall l :: l in leases <==> l in led.leases && led.StaleLeaseInside(l, row.gpu, info)
    ensures RowFlags(led, row) == set a | a in auths :: a.id
    ensures RowLeaseFlags(led, row) == set l | l in leases :: l.id
    ensures auths == [] ==> forall a :: a in led.authorizations ==> !SpeaksAgainst(led, row, a)
    ensures leases == [] ==> forall l :: l in led.leases ==> !SpeaksAgainstLease(led, row, l)
  {
    hide Ledger.StaleInside, Ledger.StaleLeaseInside, Ledger.Entitled, Ledger.Resolved;
    forall a | a in led.authorizations ensures SpeaksAgainst(led, row, a) <==> a in auths {
    }
    forall l | l in led.leases ensures SpeaksAgainstLease(led, row, l) <==> l in leases {
    }
  }

  lemma UnresolvedIsKept(led: Ledger, gpu: int, info: ProcInfo)
    requires !led.Resolved(gpu, info) || led.Entitled(gpu, info)
    ensures !led.Evictable(gpu, info)
  {
  }

  lemma BypassedIsKept(led: Ledger, gpu: int, info: ProcInfo)
    requires led.bypassed(info)
    ensures !led.Evictable(gpu, info)
  {
  }

  lemma NobodyInside(led: Ledger, gpu: int, info: ProcInfo)
    requires forall a :: a in led.authorizations ==> !led.StaleInside(a, gpu, info)
    requires forall l :: l in led.leases ==> !led.StaleLeaseInside(l, gpu, info)
    ensures !led.Evictable(gpu, info)
  {
  }

  lemma StragglersAreEvictable(led: Ledger, gpu: int, info: ProcInfo, auths: seq<Authorization>, leases: seq<Lease>)
    requires (auths != [] || leases != []) && led.Resolved(gpu, info) && !led.Entitled(gpu, info) && !led.bypassed(info)
    requires forall a :: a in auths ==> a in led.authorizations && led.StaleInside(a, gpu, info)
    requires forall l :: l in leases ==> l in led.leases && led.StaleLeaseInside(l, gpu, info)
    ensures led.Evictable(gpu, info)
  {
    hide Ledger.StaleInside, Ledger.StaleLeaseInside, Ledger.Entitled, Ledger.Resolved;
    if auths != [] {
      assert auths[0] in auths;
    } else {
      assert leases[0] in leases;
    }
  }

  /** One more row of a sample. */
  lemma AssessedSnoc(led: Ledger, initial: Assessment, rows: seq<GPUProcess>, row: GPUProcess, failed: bool)
    ensures var before := Assessed(led, initial, rows, failed);
            var considered := row.pid !in EvictablePIDs(led, rows);
            && (!considered ==> Assessed(led, initial, rows + [row], failed) == before)
            && (considered && !RowFails(led, row) ==>
                  Assessed(led, initial, rows + [row], failed) == FlagRow(led, row, before))
            && (considered && RowFails(led, row) ==>
                  Assessed(led, initial, rows + [row], true) == Uncertain(before))
  {
    hide EvictablePIDs, RowFails, RowFlags, RowLeaseFlags, Graded, Flag;
    assert (rows + [row])[..|rows|] == rows;
    var more, leases := RowFlags(led, row), RowLeaseFlags(led, row);
    GradedMore(initial.authorizations, Flags(led, rows), more, failed);
    GradedMore(initial.leases, LeaseFlags(led, rows), leases, failed);
    FailedAssessment(led, initial, rows, failed);
    if RowFails(led, row) {
      FailedRowIsSilent(led, row);
      assert Flags(led, rows) + {} == Flags(led, rows) && LeaseFlags(led, rows) + {} == LeaseFlags(led, rows);
    }
  }

  lemma GradedMore(m: map<string, bool>, flags: set<string>, more: set<string>, failed: bool)
    ensures Graded(m, flags + more, failed) == Flag(Graded(m, flags, failed), more)
    ensures flags + {} == flags
  {
  }

  lemma FailedRowIsSilent(led: Ledger, row: GPUProcess)
    requires RowFails(led, row)
    ensures RowFlags(led, row) == {} && RowLeaseFlags(led, row) == {}
  {
    hide Ledger.StaleInside, Ledger.StaleLeaseInside, Judge, Ledger.Entitled, Ledger.Resolved;
    if led.info(row.pid).Known? {
      UnresolvedMeans(led, row.gpu, led.info(row.pid).info);
    }
  }

  lemma UnresolvedMeans(led: Ledger, gpu: int, info: ProcInfo)
    requires Judge(led, gpu, info).Unresolved?
    ensures !led.Resolved(gpu, info)
  {
  }

  lemma FailsSnoc(led: Ledger, rows: seq<GPUProcess>, row: GPUProcess)
    ensures SomeRowFails(led, rows + [row]) <==>
              SomeRowFails(led, rows) || (row.pid !in EvictablePIDs(led, rows) && RowFails(led, row))
  {
    hide EvictablePIDs, RowFails;
    var all, n := rows + [row], |rows|;
    assert all[..n] == rows && all[n] == row;
    forall i | 0 <= i < n ensures all[i] == rows[i] && (Considered(led, all, i) <==> Considered(led, rows, i)) {
      assert all[..i] == rows[..i];
    }
    if SomeRowFails(led, rows) {
      var i :| 0 <= i < |rows| && Considered(led, rows, i) && RowFails(led, rows[i]);
      assert Considered(led, all, i) && RowFails(led, all[i]);
    }
    if row.pid !in EvictablePIDs(led, rows) && RowFails(led, row) {
      assert Considered(led, all, n) && RowFails(led, all[n]);
    }
  }

  lemma NothingAssessed(led: Ledger, initial: Assessment)
    ensures Assessed(led, initial, [], false) == initial && !SomeRowFails(led, [])
  {
  }

  /** A failure anywhere leaves nothing vouched for. */
  lemma FailedAssessment(led: Ledger, initial: Assessment, rows: seq<GPUProcess>, failed: bool)
    ensures Assessed(led, initial, rows, true) == Uncertain(Assessed(led, initial, rows, failed))
  {
  }

  /** The rows that a pass gets to: all of them unless the context ends first. */
  function Examined(rows: seq<GPUProcess>, cancelAt: nat): seq<GPUProcess> {
    if cancelAt < |rows| then rows[..cancelAt] else rows
  }

  /** The per-process loop; `cancelAt` is the row at which the context ends. */
  method EvictRows(led: Ledger, rows: seq<GPUProcess>, cancelAt: nat, plan: Plan, initial: Assessment)
    returns (assessment: Assessment, failed: bool)
    requires plan.Valid() && plan.decisions == [] && plan.targeted == {} && plan.pending == []
    modifies plan
    ensures plan.Valid()
    ensures Planned(led, Examined(rows, cancelAt), OutlookOf(plan))
    ensures failed <==> cancelAt < |rows| || SomeRowFails(led, rows)
    ensures assessment == Assessed(led, initial, Examined(rows, cancelAt), failed)
  {
    hide Assessed, RowFails, SomeRowFails, EvictablePIDs, FlagRow, Uncertain, Planned, PlansRow, Plan.Valid;
    NothingPlanned(led);
    NothingAssessed(led, initial);
    assessment, failed := initial, false;
    for i := 0 to |rows|
      invariant i <= cancelAt && plan.Valid() && Planned(led, rows[..i], OutlookOf(plan))
      invariant failed <==> SomeRowFails(led, rows[..i])
      invariant assessment == Assessed(led, initial, rows[..i], failed)
    {
      if i >= cancelAt {
        FailedAssessment(led, initial, rows[..i], failed);
        assessment, failed := Uncertain(assessment), true;
        return;
      }
      var rowFailed;
      ghost var before := OutlookOf(plan);
      TargetedSoFar(led, rows[..i], before);
      AssessedSnoc(led, initial, rows[..i], rows[i], failed);
      FailedAssessment(led, initial, rows[..i] + [rows[i]], failed);
      FailsSnoc(led, rows[..i], rows[i]);
      assert rows[..i + 1] == rows[..i] + [rows[i]];
      assessment, rowFailed := EvictRow(led, rows[i], plan, assessment);
      PlannedSnoc(led, rows[..i], rows[i], before, OutlookOf(plan));
      failed := failed || rowFailed;
    }
    assert rows[..|rows|] == rows;
  }

  lemma TargetedSoFar(led: Ledger, rows: seq<GPUProcess>, o: Outlook)
    requires Planned(led, rows, o)
    ensures o.targeted == EvictablePIDs(led, rows)
  {
  }

  lemma NoStandingIsStale(s: State, host: Host, now: Time)
    requires !StaleEvictionPossible(s, TokensByHash(s.tokens), ValidKeys(s, now), StaleKeys(s, now), now)
    ensures var led := Inspect(s, host, now);
            && (forall a, gpu :: a in led.authorizations ==> !led.standing(a, gpu).stale)
            && (forall l, gpu :: l in led.leases ==> !led.leaseStanding(l, gpu).stale)
  {
    var led := Inspect(s, host, now);
    forall a, gpu | a in led.authorizations ensures !led.standing(a, gpu).stale {
      NoStaleScopeWithoutPossibility(s, gpu, now);
    }
    forall l, gpu | l in led.leases ensures !led.leaseStanding(l, gpu).stale {
      NoStaleScopeWithoutPossibility(s, gpu, now);
    }
  }

  /** When the cheap test says nothing can be stale, the per-process loop would evict no row at all. */
  lemma NothingToEvict(s: State, host: Host, now: Time, row: GPUProcess, d: Decision)
    requires !StaleEvictionPossible(s, TokensByHash(s.tokens), ValidKeys(s, now), StaleKeys(s, now), now)
    ensures !Evicts(Inspect(s, host, now), row, d)
  {
    NoStandingIsStale(s, host, now);
  }

  /** On the early exit no row would fail, speak against a scope or be evicted. */
  lemma NothingStale(s: State, host: Host, now: Time, rows: seq<GPUProcess>)
    requires !Worthwhile(s, now)
    ensures var led := Inspect(s, host, now);
            && Planned(led, rows, Outlook([], {}, []))
            && Assessed(led, FreshAssessment(s, now), rows, false) == FreshAssessment(s, now)
  {
    hide Inspect, FreshAssessment, StaleEvictionPossible, RowFlags, RowLeaseFlags, MustEvict;
    var led := Inspect(s, host, now);
    NoStandingIsStale(s, host, now);
    forall row {
      SilentRow(led, row);
    }
    SilentSample(led, rows);
    UnflaggedAssessment(s, now);
  }

  lemma SilentRow(led: Ledger, row: GPUProcess)
    requires forall a, gpu :: a in led.authorizations ==> !led.standing(a, gpu).stale
    requires forall l, gpu :: l in led.leases ==> !led.leaseStanding(l, gpu).stale
    ensures !MustEvict(led, row) && RowFlags(led, row) == {} && RowLeaseFlags(led, row) == {}
  {
    hide Ledger.Entitled, Ledger.Resolved;
  }

  lemma UnflaggedAssessment(s: State, now: Time)
    ensures var first := FreshAssessment(s, now);
            && Graded(first.authorizations, {}, false) == first.authorizations
            && Graded(first.leases, {}, false) == first.leases
  {
    hide AssessedAuthorizations, AssessedLeases;
  }

  lemma {:induction false} SilentSample(led: Ledger, rows: seq<GPUProcess>)
    requires forall row :: !MustEvict(led, row) && RowFlags(led, row) == {} && RowLeaseFlags(led, row) == {}
    ensures Flags(led, rows) == {} && LeaseFlags(led, rows) == {}
    ensures EvictedRows(led, rows) == [] && EvictablePIDs(led, rows) == {}
  {
    hide MustEvict, RowFlags, RowLeaseFlags;
    if rows != [] {
      SilentSample(led, rows[..|rows| - 1]);
    }
  }

  /** Some scope can be stale, so the sample is worth looking at. */
  predicate Worthwhile(s: State, now: Time) {
    StaleEvictionPossible(s, TokensByHash(s.tokens), ValidKeys(s, now), StaleKeys(s, now), now)
  }

  /** The rows that count: all of them, or those before the context ended. */
  function LookedAt(s: State, rows: seq<GPUProcess>, now: Time, cancelAt: nat): seq<GPUProcess> {
    if Worthwhile(s, now) then Examined(rows, cancelAt) else rows
  }

  /** Planning cannot vouch for anything: the context ended, or a lookup failed. */
  predicate PlanningFails(s: State, host: Host, rows: seq<GPUProcess>, now: Time, cancelAt: nat) {
    Worthwhile(s, now) && (cancelAt < |rows| || SomeRowFails(Inspect(s, host, now), rows))
  }

  /**
   Plans the evictions of one sample and assesses the stale scopes.  The early exit plans and
   finds what the loop would: nothing.
   */
  method EvictExpiredReservedProcesses(s: State, host: Host, rows: seq<GPUProcess>, now: Time, cancelAt: nat,
                                       plan: Plan)
    returns (assessment: Assessment, failed: bool)
    requires plan.Valid() && plan.decisions == [] && plan.targeted == {} && plan.pending == []
    modifies plan
    ensures plan.Valid()
    ensures failed <==> PlanningFails(s, host, rows, now, cancelAt)
    ensures Planned(Inspect(s, host, now), LookedAt(s, rows, now, cancelAt), OutlookOf(plan))
    ensures assessment
         == Assessed(Inspect(s, host, now), FreshAssessment(s, now), LookedAt(s, rows, now, cancelAt), failed)
  {
    hide Inspect, Assessed, FreshAssessment, SomeRowFails, Planned, Worthwhile, Plan.Valid;
    assessment := FreshAssessment(s, now);
    if !Worthwhile(s, now) {
      NothingStale(s, host, now, rows);
      return assessment, false;
    }
    assessment, failed := EvictRows(Inspect(s, host, now), rows, cancelAt, plan, assessment);
  }

  // ----- What an assessment overlooks -----

  /** The row speaks against an authorization of that id. */
  predicate Speaks(led: Ledger, row: GPUProcess, id: string) {
    exists a :: a in led.authorizations && a.id == id && SpeaksAgainst(led, row, a)
  }

  predicate SomeRowSpeaks(led: Ledger, rows: seq<GPUProcess>, id: string) {
    exists i :: 0 <= i < |rows| && Speaks(led, rows[i], id)
  }

  /** Every row that speaks against the id comes after one of the same PID that is to be evicted. */
  predicate OnlyAfterEvictions(led: Ledger, rows: seq<GPUProcess>, id: string) {
    forall i :: 0 <= i < |rows| && Speaks(led, rows[i], id) ==>
      exists j :: 0 <= j < i && rows[j].pid == rows[i].pid && MustEvict(led, rows[j])
  }

  /**
   An assessed authorization that is called clean has no straggler in the sample, except exactly when
   each of its stragglers is to be evicted for another scope, on a row that comes first.
   */
  lemma OverlookedIff(led: Ledger, initial: Assessment, rows: seq<GPUProcess>, id: string)
    requires Clean(initial.authorizations, id)
    ensures Clean(Assessed(led, initial, rows, false).authorizations, id) && SomeRowSpeaks(led, rows, id)
            <==> OnlyAfterEvictions(led, rows, id) && SomeRowSpeaks(led, rows, id)
  {
    hide SpeaksAgainst, Assessed, MustEvict;
    CleanIff(led, initial, rows, false, id);
    forall i | 0 <= i < |rows|
      ensures Considered(led, rows, i)
              <==> !exists j :: 0 <= j < i && rows[j].pid == rows[i].pid && MustEvict(led, rows[j]) {
      ConsideredIff(led, rows, i);
    }
  }

  lemma ConsideredIff(led: Ledger, rows: seq<GPUProcess>, i: nat)
    requires i < |rows|
    ensures Considered(led, rows, i)
            <==> !exists j :: 0 <= j < i && rows[j].pid == rows[i].pid && MustEvict(led, rows[j])
  {
    hide MustEvict;
    if !Considered(led, rows, i) {
      var row :| row in rows[..i] && MustEvict(led, row) && row.pid == rows[i].pid;
      var j :| 0 <= j < i && rows[..i][j] == row;
      assert rows[j] == row;
    } else {
      forall j | 0 <= j < i && MustEvict(led, rows[j]) ensures rows[j].pid in EvictablePIDs(led, rows[..i]) {
        assert rows[..i][j] == rows[j];
      }
    }
  }

  predicate SpeaksLease(led: Ledger, row: GPUProcess, id: string) {
    exists l :: l in led.leases && l.id == id && SpeaksAgainstLease(led, row, l)
  }

  predicate SomeRowSpeaksLease(led: Ledger, rows: seq<GPUProcess>, id: string) {
    exists i :: 0 <= i < |rows| && SpeaksLease(led, rows[i], id)
  }

  predicate OnlyAfterLeaseEvictions(led: Ledger, rows: seq<GPUProcess>, id: string) {
    forall i :: 0 <= i < |rows| && SpeaksLease(led, rows[i], id) ==>
      exists j :: 0 <= j < i && rows[j].pid == rows[i].pid && MustEvict(led, rows[j])
  }

  lemma OverlookedLeaseIff(led: Ledger, initial: Assessment, rows: seq<GPUProcess>, id: string)
    requires Clean(initial.leases, id)
    ensures Clean(Assessed(led, initial, rows, false).leases, id) && SomeRowSpeaksLease(led, rows, id)
            <==> OnlyAfterLeaseEvictions(led, rows, id) && SomeRowSpeaksLease(led, rows, id)
  {
    hide SpeaksAgainstLease, Assessed, MustEvict;
    CleanLeaseIff(led, initial, rows, false, id);
    forall i | 0 <= i < |rows|
      ensures Considered(led, rows, i)
              <==> !exists j :: 0 <= j < i && rows[j].pid == rows[i].pid && MustEvict(led, rows[j]) {
      ConsideredIff(led, rows, i);
    }
  }

  /** The evicted row that keeps row `i` from being looked at. */
  lemma {:induction false} EvictedBefore(led: Ledger, rows: seq<GPUProcess>, i: nat) returns (j: nat)
    requires i < |rows| && !Considered(led, rows, i)
    ensures j < i && rows[j].pid == rows[i].pid && MustEvict(led, rows[j]) && Considered(led, rows, j)
    decreases i
  {
    hide MustEvict, Considered;
    ConsideredIff(led, rows, i);
    var k: nat :| k < i && rows[k].pid == rows[i].pid && MustEvict(led, rows[k]);
    if Considered(led, rows, k) {
      j := k;
    } else {
      j := EvictedBefore(led, rows, k);
    }
  }

  /** A straggler is overlooked only if its PID is evicted first on a GPU where the authorization has not ended. */
  lemma OverlookedOnOtherGPU(led: Ledger, initial: Assessment, rows: seq<GPUProcess>, a: Authorization, i: nat)
    returns (j: nat)
    requires i < |rows| && a in led.authorizations && SpeaksAgainst(led, rows[i], a)
    requires Clean(Assessed(led, initial, rows, false).authorizations, a.id)
    ensures j < i && rows[j].pid == rows[i].pid && MustEvict(led, rows[j]) && Considered(led, rows, j)
    ensures !led.standing(a, rows[j].gpu).stale
  {
    hide Assessed, Considered, Ledger.Resolved, Ledger.Entitled, Ledger.Straggler;
    CleanIff(led, initial, rows, false, a.id);
    j := EvictedBefore(led, rows, i);
    assert !SpeaksAgainst(led, rows[j], a);
  }

  /** So an authorization that has ended on every sampled GPU is clean only if nobody in the sample is inside it. */
  lemma EndedEverywhereIsSeen(led: Ledger, initial: Assessment, rows: seq<GPUProcess>, a: Authorization)
    requires a in led.authorizations && forall i :: 0 <= i < |rows| ==> led.standing(a, rows[i].gpu).stale
    requires Clean(Assessed(led, initial, rows, false).authorizations, a.id)
    ensures forall i :: 0 <= i < |rows| ==> !SpeaksAgainst(led, rows[i], a)
  {
    hide Assessed, SpeaksAgainst, Considered, MustEvict;
    forall i | 0 <= i < |rows| ensures !SpeaksAgainst(led, rows[i], a) {
      if SpeaksAgainst(led, rows[i], a) {
        var _ := OverlookedOnOtherGPU(led, initial, rows, a, i);
      }
    }
  }

  /** A sample of one process on two GPUs, each reserved for it by a grant of its own that has ended. */
  const TWO_GRANTS: State := EMPTY_STATE.(
    tokens := [Token("t0", "h0", "s", "u", Reserved, 0, false, 1, 5, false),
               Token("t1", "h1", "s", "u", Reserved, 0, false, 1, 5, false)],
    reservations := [Reservation("r0", "", "", 0, "h0", "u", "", 1, 1, 5, true, false),
                     Reservation("r1", "", "", 1, "h1", "u", "", 1, 1, 5, true, false)],
    authorizations := [UserGrant("a0", "h0"), UserGrant("a1", "h1")])

  function UserGrant(id: string, hash: string): Authorization {
    Authorization(id, User, hash, Reserved, 0, "u", 1000, "u", 0, "", "", "", "", "", 5, true, false)
  }

  const TWO_ROWS: seq<GPUProcess> := [GPUProcess(0, 7, 1, false), GPUProcess(1, 7, 1, false)]

  lemma TwoGrantsEnded()
    ensures var s := TWO_GRANTS;
            && TokensByHash(s.tokens) == map["h0" := s.tokens[0], "h1" := s.tokens[1]]
            && ValidKeys(s, 10) == {} && StaleKeys(s, 10) == {Key(0, "h0"), Key(1, "h1")}
  {
    var s, r0, r1 := TWO_GRANTS, TWO_GRANTS.reservations[0], TWO_GRANTS.reservations[1];
    var tokens := TokensByHash(s.tokens);
    assert s.tokens[..1] == [s.tokens[0]] && [s.tokens[0]][..0] == [];
    assert s.reservations == [r0, r1];
    assert ReservationStale(tokens, r0, 10) && ReservationStale(tokens, r1, 10);
  }

  lemma TwoGrantsStand(host: Host)
    ensures var led, a, b := Inspect(TWO_GRANTS, host, 10), TWO_GRANTS.authorizations[0], TWO_GRANTS.authorizations[1];
            && led.standing(a, 0) == Standing(false, true) && led.standing(a, 1) == Standing(false, false)
            && led.standing(b, 0) == Standing(false, false) && led.standing(b, 1) == Standing(false, true)
            && Clean(FreshAssessment(TWO_GRANTS, 10).authorizations, "a1")
  {
    hide ValidKeys, StaleKeys, TokensByHash;
    TwoGrantsEnded();
    var s := TWO_GRANTS;
    var tokens, valid, stale := TokensByHash(s.tokens), ValidKeys(s, 10), StaleKeys(s, 10);
    assert "h1" in Hashes(stale) by { assert Key(1, "h1") in stale; }
    assert s.authorizations[1] in s.authorizations;
    assert AssessedAuthorization(s.authorizations[1], tokens, valid, stale, 10);
  }

  /** Two scopes around one process, the first stale on its first row only and the second on its second row only. */
  lemma SecondScopeIsOverlooked(led: Ledger, a: Authorization, b: Authorization, initial: Assessment,
                                first: GPUProcess, second: GPUProcess, info: ProcInfo)
    requires led.authorizations == [a, b] && led.leases == [] && a.id != b.id && Clean(initial.authorizations, b.id)
    requires led.standing(a, first.gpu) == Standing(false, true) && !led.standing(b, first.gpu).stale
    requires !led.standing(b, first.gpu).entitled && !Consulted(led.standing(a, second.gpu))
    requires led.standing(b, second.gpu) == Standing(false, true)
    requires 0 < first.pid == second.pid && led.info(first.pid) == Known(info) && !led.bypassed(info)
    requires led.scope(a, info).Inside? && led.scope(b, info).Inside?
    ensures var rows := [first, second];
            && EvictedRows(led, rows) == [first] && !SomeRowFails(led, rows) && SpeaksAgainst(led, second, b)
            && Clean(Assessed(led, initial, rows, false).authorizations, b.id)
  {
    hide Ledger.Entitled, Ledger.Resolved, Ledger.Straggler, Assessed, RowFails, MustEvict, EvictablePIDs;
    hide SpeaksAgainst;
    hide EvictedRows;
    var rows := [first, second];
    NobodyEntitled(led, a, b, first.gpu, info);
    NobodyEntitled(led, a, b, second.gpu, info);
    StaleOnOne(led, a, b, first, info);
    StaleOnOne(led, b, a, second, info);
    ResolvedDoesNotFail(led, first, info);
    ResolvedDoesNotFail(led, second, info);
    assert rows[..0] == [] && rows[..1] == [first] && [] + [first] == [first] && [first] + [second] == rows;
    assert EvictablePIDs(led, []) == {} && EvictedRows(led, []) == [] by { SampleOfNone(led); }
    EvictedSnoc(led, [], first);
    EvictedSnoc(led, [first], second);
    CleanIff(led, initial, rows, false, b.id);
    assert forall x :: x in led.authorizations && x.id == b.id ==> x == b;
  }

  lemma SampleOfNone(led: Ledger)
    ensures EvictablePIDs(led, []) == {} && EvictedRows(led, []) == []
  {
  }

  lemma NobodyEntitled(led: Ledger, a: Authorization, b: Authorization, gpu: int, info: ProcInfo)
    requires led.authorizations == [a, b] && led.leases == []
    requires !led.standing(a, gpu).entitled && !led.standing(b, gpu).entitled
    requires led.scope(a, info).Inside? && led.scope(b, info).Inside?
    ensures led.Resolved(gpu, info) && !led.Entitled(gpu, info)
  {
  }

  lemma StaleOnOne(led: Ledger, a: Authorization, b: Authorization, row: GPUProcess, info: ProcInfo)
    requires (led.authorizations == [a, b] || led.authorizations == [b, a]) && led.leases == []
    requires 0 < row.pid && led.info(row.pid) == Known(info) && !led.bypassed(info)
    requires led.Resolved(row.gpu, info) && !led.Entitled(row.gpu, info)
    requires led.standing(a, row.gpu).stale && led.scope(a, info).Inside? && !led.standing(b, row.gpu).stale
    ensures MustEvict(led, row) && SpeaksAgainst(led, row, a) && !SpeaksAgainst(led, row, b)
  {
    hide Ledger.Entitled, Ledger.Resolved;
    assert led.StaleInside(a, row.gpu, info) && a in led.authorizations;
  }

  lemma ResolvedDoesNotFail(led: Ledger, row: GPUProcess, info: ProcInfo)
    requires led.info(row.pid) == Known(info) && led.Resolved(row.gpu, info)
    ensures !RowFails(led, row)
  {
    if Judge(led, row.gpu, info).Unresolved? {
      UnresolvedMeans(led, row.gpu, info);
    }
  }

  /** The process is evicted for the grant of GPU 0, and the authorization of GPU 1 is called clean with it inside. */
  lemma SecondGrantIsOverlooked(host: Host, info: ProcInfo)
    requires host.info(7) == Known(info) && info.uid == 1000
    ensures var led, now := Inspect(TWO_GRANTS, host, 10), 10;
            && EvictedRows(led, TWO_ROWS) == [TWO_ROWS[0]] && !SomeRowFails(led, TWO_ROWS)
            && SpeaksAgainst(led, TWO_ROWS[1], TWO_GRANTS.authorizations[1])
            && Clean(Assessed(led, FreshAssessment(TWO_GRANTS, now), TWO_ROWS, false).authorizations, "a1")
  {
    hide AuthorizationStanding, FreshAssessment, SpeaksAgainst, EvictedRows, SomeRowFails, Assessed;
    TwoGrantsStand(host);
    var a, b := TWO_GRANTS.authorizations[0], TWO_GRANTS.authorizations[1];
    SecondScopeIsOverlooked(Inspect(TWO_GRANTS, host, 10), a, b, FreshAssessment(TWO_GRANTS, 10),
                            TWO_ROWS[0], TWO_ROWS[1], info);
  }
}
