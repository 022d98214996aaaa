/**
 One whole enforcement sample: every row is answered exactly once, and every answer
 follows from the state of its GPU.
 */
module EnforcePass {
  import opened Model
  import opened Sequences
  import opened Scopes
  import opened Planning
  import opened Enforcement

  predicate UsesGPUResources(row: GPUProcess) { row.memBytesUnknown || 0 < row.memBytes }

  /** The view of a row that reaches its GPU's rules, if any. */
  function RowView(rules: Rules, row: GPUProcess): seq<View> {
    if !UsesGPUResources(row) || !rules.info(row.pid).Known? then []
    else [View(row, rules.info(row.pid).info, rules.bypassed(rules.info(row.pid).info))]
  }

  /** The decision a row gets before any GPU is looked at, if any. */
  function RowDecision(rules: Rules, row: GPUProcess): seq<Decision> {
    if !UsesGPUResources(row) then [Plain(row, NO_INFO, Skip, NoGPUUsage)]
    else match rules.info(row.pid)
         case Exited => [Plain(row, NO_INFO, Skip, StalePID)]
         case Unreadable => [Plain(row, NO_INFO, Skip, InfoUnavailable)]
         case Known(info) => if rules.bypassed(info) then [Plain(row, info, Allow, Bypass)] else []
  }

  function AllViews(rules: Rules, rows: seq<GPUProcess>): seq<View> {
    if rows == [] then [] else AllViews(rules, rows[..|rows| - 1]) + RowView(rules, rows[|rows| - 1])
  }

  lemma {:induction false} AllViewsSound(rules: Rules, rows: seq<GPUProcess>, v: View)
    requires v in AllViews(rules, rows)
    ensures v.process in rows && RowView(rules, v.process) == [v]
  {
    if v !in RowView(rules, rows[|rows| - 1]) {
      AllViewsSound(rules, rows[..|rows| - 1], v);
    }
  }

  function ViewsOn(rules: Rules, rows: seq<GPUProcess>, gpu: int): seq<View> {
    Filter((v: View) => v.process.gpu == gpu, AllViews(rules, rows))
  }

  /** Where a decision about a process comes from. */
  ghost predicate Justified(rules: Rules, rows: seq<GPUProcess>, d: Decision) {
    var c := CaseOf(rules, d.process.gpu, ViewsOn(rules, rows, d.process.gpu));
    && d.process in rows
    && (|| RowDecision(rules, d.process) == [d]
        || (&& Grounded(c) && !c.FailedCase?
            && exists v :: RowView(rules, d.process) == [v] && Live(v)
                           && CarriesOut(RulingFor(rules, c, v), c, BlameOf(c), v, d)))
  }

  /** No sampled process is the runtime that established the claim. */
  predicate Abandoned(rules: Rules, rows: seq<GPUProcess>, claim: SoftClaim) {
    rules.ClaimVerdict(claim, ViewsOn(rules, rows, claim.gpu)).Outside?
  }

  /** Where a decision about a claim comes from. */
  ghost predicate JustifiedClaim(rules: Rules, rows: seq<GPUProcess>, d: Decision) {
    || (d.action.MakeClaim? && exists gpu :: Opening(rules, gpu, CaseOf(rules, gpu, ViewsOn(rules, rows, gpu))) == [d])
    || (d.action.ReleaseClaim? &&
        exists claim :: claim in rules.softClaims && claim.id == d.claimID && Abandoned(rules, rows, claim))
  }

  ghost predicate AllJustified(rules: Rules, rows: seq<GPUProcess>, decisions: seq<Decision>) {
    forall d :: d in decisions ==> if AboutProcess(d) then Justified(rules, rows, d) else JustifiedClaim(rules, rows, d)
  }

  // ----- Counting -----

  /** The rows that decisions are about, with multiplicity. */
  function Answered(ds: seq<Decision>): multiset<GPUProcess> {
    if ds == [] then multiset{}
    else Answered(ds[..|ds| - 1]) + if AboutProcess(ds[|ds| - 1]) then multiset{ds[|ds| - 1].process} else multiset{}
  }

  lemma {:induction false} AnsweredConcat(xs: seq<Decision>, ys: seq<Decision>)
    ensures Answered(xs + ys) == Answered(xs) + Answered(ys)
  {
    if ys == [] {
      assert xs + ys == xs;
    } else {
      assert (xs + ys)[..|xs + ys| - 1] == xs + ys[..|ys| - 1];
      AnsweredConcat(xs, ys[..|ys| - 1]);
    }
  }

  function Processes(views: seq<View>): multiset<GPUProcess> {
    if views == [] then multiset{} else multiset{views[0].process} + Processes(views[1..])
  }

  lemma {:induction false} ProcessesConcat(xs: seq<View>, ys: seq<View>)
    ensures Processes(xs + ys) == Processes(xs) + Processes(ys)
  {
    if xs == [] {
      assert xs + ys == ys;
    } else {
      assert (xs + ys)[1..] == xs[1..] + ys;
      ProcessesConcat(xs[1..], ys);
    }
  }

  lemma ProcessesLast(views: seq<View>)
    requires views != []
    ensures Processes(views) == Processes(views[..|views| - 1]) + multiset{views[|views| - 1].process}
  {
    hide Processes;
    var n := |views| - 1;
    ProcessesConcat(views[..n], [views[n]]);
    ProcessesOfOne(views[n]);
    assert views == views[..n] + [views[n]];
  }

  lemma ProcessesOfOne(v: View)
    ensures Processes([v]) == multiset{v.process}
  {
    assert [v][1..] == [];
  }

  lemma {:induction false} PairwiseCount(views: seq<View>, delta: seq<Decision>)
    requires |delta| == |views|
    requires forall i :: 0 <= i < |views| ==> AboutProcess(delta[i]) && delta[i].process == views[i].process
    ensures Answered(delta) == Processes(views)
  {
    hide Processes, AboutProcess;
    if views == [] {
      ProcessesOfNone();
    } else {
      PairwiseCount(views[..|views| - 1], delta[..|views| - 1]);
      ProcessesLast(views);
    }
  }

  lemma ProcessesOfNone()
    ensures Processes([]) == multiset{}
  {
  }

  lemma AnswersCount(ruling: View -> Ruling, c: GpuCase, blame: Blame, views: seq<View>, delta: seq<Decision>)
    requires Answers(ruling, c, blame, views, delta)
    ensures Answered(delta) == Processes(views)
  {
    forall i | 0 <= i < |views| ensures AboutProcess(delta[i]) && delta[i].process == views[i].process {
      assert CarriesOut(ruling(views[i]), c, blame, views[i], delta[i]);
    }
    PairwiseCount(views, delta);
  }

  lemma {:induction false} SplitCount(answer: View -> Match<Authorization>, views: seq<View>)
    ensures Processes(Claimants(answer, views) + Others(answer, views)) == Processes(views)
  {
    ProcessesConcat(Claimants(answer, views), Others(answer, views));
    if views != [] {
      SplitCount(answer, views[1..]);
      ProcessesConcat(Claimants(answer, views[1..]), Others(answer, views[1..]));
    }
  }

  /** The live views on the given GPUs. */
  function LiveOn(views: seq<View>, gpus: set<int>): multiset<GPUProcess> {
    if views == [] then multiset{}
    else LiveOn(views[1..], gpus) +
         if Live(views[0]) && views[0].process.gpu in gpus then multiset{views[0].process} else multiset{}
  }

  lemma {:induction false} LiveOnSplit(views: seq<View>, gpus: set<int>, gpu: int)
    requires gpu in gpus
    ensures LiveOn(views, gpus)
         == LiveOn(views, gpus - {gpu}) + Processes(LiveViews(Filter((v: View) => v.process.gpu == gpu, views)))
  {
    if views != [] {
      LiveOnSplit(views[1..], gpus, gpu);
    }
  }

  lemma {:induction false} LiveOnNone(views: seq<View>)
    ensures LiveOn(views, {}) == multiset{}
  {
    if views != [] {
      LiveOnNone(views[1..]);
    }
  }

  lemma {:induction false} LiveOnAll(views: seq<View>, gpus: set<int>)
    requires forall v :: v in views ==> v.process.gpu in gpus
    ensures LiveOn(views, gpus) == Processes(LiveViews(views))
  {
    if views != [] {
      LiveOnAll(views[1..], gpus);
    }
  }

  // ----- The pass -----

  lemma OneRowCount(rules: Rules, row: GPUProcess)
    ensures Answered(RowDecision(rules, row)) + Processes(LiveViews(RowView(rules, row))) == multiset{row}
  {
    if UsesGPUResources(row) && rules.info(row.pid).Known? {
      var v := View(row, rules.info(row.pid).info, rules.bypassed(rules.info(row.pid).info));
      assert RowView(rules, row) == [v] && [v][1..] == [];
      assert Filter(Live, [v]) == if Live(v) then [v] else [];
    }
  }

  /** A row is either decided at once or contributes one live view. */
  lemma RowCount(rules: Rules, row: GPUProcess, decisions: seq<Decision>, views: seq<View>)
    ensures Answered(decisions + RowDecision(rules, row)) + Processes(LiveViews(views + RowView(rules, row)))
            == Answered(decisions) + Processes(LiveViews(views)) + multiset{row}
  {
    hide Answered, Processes, RowDecision, RowView, Filter;
    OneRowCount(rules, row);
    AnsweredConcat(decisions, RowDecision(rules, row));
    FilterConcat(Live, views, RowView(rules, row));
    ProcessesConcat(LiveViews(views), LiveViews(RowView(rules, row)));
  }

  lemma RowDecisionJustified(rules: Rules, rows: seq<GPUProcess>, row: GPUProcess, decisions: seq<Decision>)
    requires row in rows && AllJustified(rules, rows, decisions)
    ensures AllJustified(rules, rows, decisions + RowDecision(rules, row))
  {
    forall d | d in RowDecision(rules, row) ensures AboutProcess(d) && Justified(rules, rows, d) {
    }
  }

  lemma SortNothing(rules: Rules, rows: seq<GPUProcess>)
    ensures AllJustified(rules, rows, []) && Answered([]) == multiset{} && Processes(LiveViews([])) == multiset{}
  {
  }

  /** Decides the rows that need no GPU, and collects the views of the others. */
  method SortRows(rules: Rules, rows: seq<GPUProcess>, plan: Plan) returns (views: seq<View>)
    requires plan.Valid() && plan.decisions == []
    modifies plan
    ensures plan.Valid() && views == AllViews(rules, rows)
    ensures AllJustified(rules, rows, plan.decisions)
    ensures Answered(plan.decisions) + Processes(LiveViews(views)) == multiset(rows)
  {
    hide Answered, Processes, LiveViews, AllJustified, RowDecision, RowView;
    views := [];
    SortNothing(rules, rows);
    for i := 0 to |rows|
      invariant plan.Valid() && views == AllViews(rules, rows[..i])
      invariant AllJustified(rules, rows, plan.decisions)
      invariant Answered(plan.decisions) + Processes(LiveViews(views)) == multiset(rows[..i])
    {
      var row := rows[i];
      assert rows[..i + 1][..i] == rows[..i] && rows[..i + 1] == rows[..i] + [row];
      RowCount(rules, row, plan.decisions, views);
      RowDecisionJustified(rules, rows, row, plan.decisions);
      views := SortRow(rules, row, views, plan);
    }
    assert rows[..|rows|] == rows;
  }

  method SortRow(rules: Rules, row: GPUProcess, before: seq<View>, plan: Plan) returns (views: seq<View>)
    requires plan.Valid()
    modifies plan
    ensures plan.Valid() && views == before + RowView(rules, row)
    ensures plan.decisions == old(plan.decisions) + RowDecision(rules, row)
  {
    views := before;
    if !UsesGPUResources(row) {
      plan.Record(Plain(row, NO_INFO, Skip, NoGPUUsage));
      return;
    }
    match rules.info(row.pid) {
      case Exited => plan.Record(Plain(row, NO_INFO, Skip, StalePID));
      case Unreadable => plan.Record(Plain(row, NO_INFO, Skip, InfoUnavailable));
      case Known(info) =>
        if rules.bypassed(info) {
          plan.Record(Plain(row, info, Allow, Bypass));
        }
        views := views + [View(row, info, rules.bypassed(info))];
    }
  }

  lemma AnswerJustified(rules: Rules, rows: seq<GPUProcess>, gpu: int, v: View, d: Decision)
    requires var c := CaseOf(rules, gpu, ViewsOn(rules, rows, gpu));
             Grounded(c) && !c.FailedCase? && CarriesOut(RulingFor(rules, c, v), c, BlameOf(c), v, d)
    requires v in ViewsOn(rules, rows, gpu) && Live(v)
    ensures AboutProcess(d) && Justified(rules, rows, d)
  {
    AllViewsSound(rules, rows, v);
    assert d.process == v.process && RowView(rules, d.process) == [v];
  }

  lemma OrderIsLive(rules: Rules, c: GpuCase, views: seq<View>, v: View)
    requires v in AnswerOrder(rules, c, views)
    ensures v in views && Live(v)
  {
  }

  /** Everything one GPU adds to the plan is justified. */
  lemma DeltaJustified(rules: Rules, rows: seq<GPUProcess>, gpu: int, delta: seq<Decision>, failed: bool)
    requires Grounded(CaseOf(rules, gpu, ViewsOn(rules, rows, gpu)))
    requires GpuDelta(rules, gpu, ViewsOn(rules, rows, gpu), delta, failed)
    ensures AllJustified(rules, rows, delta)
  {
    hide AnswersPrefix, CarriesOut, ViewsOn, CaseOf, AnswerOrder, Justified, RulingFor, BlameOf;
    var views := ViewsOn(rules, rows, gpu);
    var c := CaseOf(rules, gpu, views);
    var head, order := Opening(rules, gpu, c), AnswerOrder(rules, c, views);
    forall i | 0 <= i < |delta|
      ensures if AboutProcess(delta[i]) then Justified(rules, rows, delta[i])
              else JustifiedClaim(rules, rows, delta[i]) {
      if i < |head| {
        assert head == [delta[i]];
      } else {
        var j := i - |head|;
        AnswerAt(RulingsOf(rules, c), c, BlameOf(c), order, delta[|head|..], failed, j);
        OrderIsLive(rules, c, views, order[j]);
        AnswerJustified(rules, rows, gpu, order[j], delta[i]);
      }
    }
  }

  lemma AnswerAt(ruling: View -> Ruling, c: GpuCase, blame: Blame, order: seq<View>, delta: seq<Decision>,
                 failed: bool, j: nat)
    requires AnswersPrefix(ruling, c, blame, order, delta, failed) && j < |delta|
    ensures j < |order| && order[j] in order && CarriesOut(ruling(order[j]), c, blame, order[j], delta[j])
  {
    assert order[..|delta|][j] == order[j];
  }

  lemma DeltaCount(rules: Rules, gpu: int, views: seq<View>, delta: seq<Decision>)
    requires Grounded(CaseOf(rules, gpu, views)) && GpuDelta(rules, gpu, views, delta, false)
    ensures Answered(delta) == Processes(LiveViews(views))
  {
    hide CarriesOut, CaseOf, RulingFor, BlameOf, LiveViews, Claimants, Others;
    var c := CaseOf(rules, gpu, views);
    var head, order := Opening(rules, gpu, c), AnswerOrder(rules, c, views);
    var rest := delta[|head|..];
    assert delta == head + rest && order[..|rest|] == order;
    AnsweredConcat(head, rest);
    AnswersCount(RulingsOf(rules, c), c, BlameOf(c), order, rest);
    SplitCount(rules.AnyAnswer(), LiveViews(views));
  }

  /** Some lookup of the pass failed: of a process's scope on its GPU, or of a claim. */
  ghost predicate LookupFailed(rules: Rules, rows: seq<GPUProcess>) {
    || (exists gpu: int :: GpuLookupFailed(rules, rows, gpu))
    || (exists claim :: claim in rules.softClaims
                        && rules.ClaimVerdict(claim, ViewsOn(rules, rows, claim.gpu)).Unknown?)
  }

  ghost predicate GpuLookupFailed(rules: Rules, rows: seq<GPUProcess>, gpu: int) {
    var views := ViewsOn(rules, rows, gpu);
    Grounded(CaseOf(rules, gpu, views)) && SomeLookupFails(rules, gpu, views)
  }

  lemma JustifiedConcat(rules: Rules, rows: seq<GPUProcess>, xs: seq<Decision>, ys: seq<Decision>)
    requires AllJustified(rules, rows, xs) && AllJustified(rules, rows, ys)
    ensures AllJustified(rules, rows, xs + ys)
  {
  }

  /** The GPUs of the sample, in the arbitrary order of a Go map. */
  method EnforceGPUs(rules: Rules, rows: seq<GPUProcess>, views: seq<View>, plan: Plan) returns (failed: bool)
    requires plan.Valid() && views == AllViews(rules, rows) && AllJustified(rules, rows, plan.decisions)
    requires Answered(plan.decisions) + Processes(LiveViews(views)) == multiset(rows)
    modifies plan
    ensures plan.Valid() && AllJustified(rules, rows, plan.decisions)
    ensures !failed ==> Answered(plan.decisions) == multiset(rows)
    ensures failed ==> LookupFailed(rules, rows)
  {
    hide Answered, LiveOn, LiveViews, Processes, AllViews, AllJustified, GpuDelta, SomeLookupFails, CaseOf;
    hide LookupFailed, Plan.Valid;
    failed := false;
    var remaining := set v | v in views :: v.process.gpu;
    LiveOnAll(views, remaining);
    while remaining != {}
      invariant plan.Valid() && AllJustified(rules, rows, plan.decisions)
      invariant !failed ==> Answered(plan.decisions) + LiveOn(views, remaining) == multiset(rows)
      invariant failed ==> LookupFailed(rules, rows)
      decreases remaining
    {
      var gpu :| gpu in remaining;
      var mine := ViewsOn(rules, rows, gpu);
      LiveOnSplit(views, remaining, gpu);
      ghost var before := plan.decisions;
      var gpuFailed := EnforceGPU(rules, gpu, mine, plan);
      ghost var delta := plan.decisions[|before|..];
      assert plan.decisions == before + delta;
      DeltaJustified(rules, rows, gpu, delta, gpuFailed);
      JustifiedConcat(rules, rows, before, delta);
      if gpuFailed {
        failed := true;
        GPULookupFailed(rules, rows, gpu);
      } else {
        DeltaCount(rules, gpu, mine, delta);
        AnsweredConcat(before, delta);
      }
      remaining := remaining - {gpu};
    }
    LiveOnNone(views);
  }

  function ReleaseDecision(claim: SoftClaim): Decision {
    Decision(NO_PROCESS, NO_INFO, ReleaseClaim, NoMatchingProcess, "", "", claim.id, "", "", NO_CLAIM)
  }

  lemma ReleaseJustified(rules: Rules, rows: seq<GPUProcess>, claim: SoftClaim, decisions: seq<Decision>)
    requires claim in rules.softClaims && Abandoned(rules, rows, claim) && AllJustified(rules, rows, decisions)
    ensures AllJustified(rules, rows, decisions + [ReleaseDecision(claim)])
    ensures Answered(decisions + [ReleaseDecision(claim)]) == Answered(decisions)
    ensures !ReleaseDecision(claim).action.Kill?
  {
    assert JustifiedClaim(rules, rows, ReleaseDecision(claim));
    AnsweredConcat(decisions, [ReleaseDecision(claim)]);
  }

  lemma GPULookupFailed(rules: Rules, rows: seq<GPUProcess>, gpu: int)
    requires GpuLookupFailed(rules, rows, gpu)
    ensures LookupFailed(rules, rows)
  {
  }

  lemma ClaimLookupFailed(rules: Rules, rows: seq<GPUProcess>, claim: SoftClaim)
    requires claim in rules.softClaims && rules.ClaimVerdict(claim, ViewsOn(rules, rows, claim.gpu)).Unknown?
    ensures LookupFailed(rules, rows)
  {
  }

  /** Claims without a matching process are given up. */
  method ReleaseClaims(rules: Rules, rows: seq<GPUProcess>, plan: Plan) returns (failed: bool)
    requires plan.Valid() && AllJustified(rules, rows, plan.decisions)
    modifies plan
    ensures plan.Valid() && AllJustified(rules, rows, plan.decisions)
    ensures Answered(plan.decisions) == Answered(old(plan.decisions))
    ensures failed ==> LookupFailed(rules, rows)
    ensures forall claim :: claim in rules.softClaims && Abandoned(rules, rows, claim) ==>
              ReleaseDecision(claim) in plan.decisions
  {
    hide AllJustified, Answered, ViewsOn, LookupFailed, ReleaseDecision, Rules.ClaimVerdict, Plan.Valid;
    failed := false;
    var claims := rules.softClaims;
    for i := 0 to |claims|
      invariant plan.Valid() && AllJustified(rules, rows, plan.decisions)
      invariant Answered(plan.decisions) == Answered(old(plan.decisions))
      invariant failed ==> LookupFailed(rules, rows)
      invariant forall j :: 0 <= j < i && Abandoned(rules, rows, claims[j]) ==>
                  ReleaseDecision(claims[j]) in plan.decisions
    {
      var claim := claims[i];
      var verdict := ClaimHasMatchingProcess(rules, claim, ViewsOn(rules, rows, claim.gpu));
      if verdict.Unknown? {
        ClaimLookupFailed(rules, rows, claim);
        failed := true;
      } else if verdict.Outside? {
        ReleaseJustified(rules, rows, claim, plan.decisions);
        plan.Record(ReleaseDecision(claim));
      }
    }
  }

  /**
   One enforcement pass: unless a lookup fails, each sampled row gets exactly one decision; in
   any case every decision follows from the state of its GPU, and at most eight kills on distinct
   PIDs are queued.
   */
  method Enforce(rules: Rules, rows: seq<GPUProcess>, plan: Plan) returns (failed: bool)
    requires plan.Valid() && plan.decisions == []
    modifies plan
    ensures plan.Valid() && AllJustified(rules, rows, plan.decisions)
    ensures !failed ==> Answered(plan.decisions) == multiset(rows)
    ensures failed ==> LookupFailed(rules, rows)
    ensures forall claim :: claim in rules.softClaims && Abandoned(rules, rows, claim) ==>
              ReleaseDecision(claim) in plan.decisions
  {
    var views := SortRows(rules, rows, plan);
    var gpuFailed := EnforceGPUs(rules, rows, views, plan);
    var claimFailed := ReleaseClaims(rules, rows, plan);
    failed := gpuFailed || claimFailed;
  }
}
