/**
 The accumulators that one enforcement pass shares between its planners: decisions, the
 PIDs already targeted and the kills still to be executed.
 */
module Planning {
  import opened Model
  import opened Scopes

  const MAX_KILLS_PER_PASS := 8

  const NO_INFO := ProcInfo(0, 0, 0, "", "", "", "")
  const NO_PROCESS := GPUProcess(0, 0, 0, false)
  const NO_CLAIM := SoftClaim("", 0, "", "", "", "", "", 0, 0, 0, 0)

  datatype View = View(process: GPUProcess, info: ProcInfo, bypassed: bool)

  datatype Action = Allow | Kill | Skip | MakeClaim | ReleaseClaim

  datatype Reason =
    | Bypass | ByAuthorization | ByLease | ByClaim
    | Unauthorized | EntitlementEnded | BudgetExhausted | AlreadyTargeted
    | NoGPUUsage | StalePID | InfoUnavailable | ResolutionUnavailable | ClaimVacated | NoClaimant | NoMatchingProcess

  datatype Decision = Decision(
    process: GPUProcess, info: ProcInfo, action: Action, reason: Reason,
    leaseID: string, authID: string, claimID: string, holder: string, tokenHash: string, claim: SoftClaim)

  function Plain(process: GPUProcess, info: ProcInfo, action: Action, reason: Reason): Decision {
    Decision(process, info, action, reason, "", "", "", "", "", NO_CLAIM)
  }

  /** A process by PID and start time, so that a reused PID is someone else. */
  datatype Identity = Identity(pid: int, startTime: nat)

  /** Who a kill is charged to: the grant that the process violates. */
  datatype Blame = Blame(reason: Reason, leaseID: string, authID: string, holder: string, tokenHash: string)

  datatype KillRequest = KillRequest(view: View, blame: Blame, at: Time)
  {
    function Target(): Identity { Identity(view.process.pid, view.info.startTime) }
  }

  function KillDecision(view: View, b: Blame): Decision {
    Decision(view.process, view.info, Kill, b.reason, b.leaseID, b.authID, "", b.holder, b.tokenHash, NO_CLAIM)
  }

  /** A view that is not allowed is killed or, when over budget or already targeted, skipped. */
  predicate Denial(d: Decision, view: View, b: Blame) {
    || d == KillDecision(view, b)
    || d == KillDecision(view, b).(action := Skip, reason := BudgetExhausted)
    || d == Plain(view.process, view.info, Skip, AlreadyTargeted)
  }

  /** The decision is about a sampled row rather than about a claim. */
  predicate AboutProcess(d: Decision) { d.action.Allow? || d.action.Kill? || d.action.Skip? }

  /** Every decided kill is queued, unless it is under way already or only a dry run. */
  ghost predicate Queued(decisions: seq<Decision>, pending: seq<KillRequest>, awaiting: set<Identity>, dryRun: bool) {
    forall d :: d in decisions && d.action.Kill? && !dryRun ==>
      var id := Identity(d.process.pid, d.info.startTime);
      id in awaiting || exists k :: k in pending && k.Target() == id
  }

  class Plan {
    var decisions: seq<Decision>
    var targeted: set<int>
    var pending: seq<KillRequest>
    /** Identities whose SIGTERM went out on an earlier pass; empty without staged kills. */
    const awaiting: set<Identity>
    const dryRun: bool

    constructor (awaiting: set<Identity>, dryRun: bool)
      ensures Valid() && decisions == [] && targeted == {} && pending == []
      ensures this.awaiting == awaiting && this.dryRun == dryRun
    {
      decisions, targeted, pending := [], {}, [];
      this.awaiting, this.dryRun := awaiting, dryRun;
    }

    /**
     At most eight kills wait, each decided, on distinct targeted PIDs, none of them already
     signalled; and every decided kill waits or is under way.
     */
    ghost predicate Valid()
      reads this
    {
      && |pending| <= MAX_KILLS_PER_PASS
      && (dryRun ==> pending == [])
      && (forall k :: k in pending ==> k.view.process.pid in targeted && k.Target() !in awaiting)
      && (forall k :: k in pending ==> KillDecision(k.view, k.blame) in decisions)
      && (forall i, j :: 0 <= i < j < |pending| ==> pending[i].view.process.pid != pending[j].view.process.pid)
      && Queued(decisions, pending, awaiting, dryRun)
    }

    method Record(decision: Decision)
      requires Valid() && !decision.action.Kill?
      modifies this`decisions
      ensures Valid() && decisions == old(decisions) + [decision]
    {
      decisions := decisions + [decision];
    }

    /** One decision for the view; the kill is queued unless it is already under way or over budget. */
    method KillProcess(view: View, blame: Blame, now: Time)
      requires Valid() && view.process.pid !in targeted
      modifies this
      ensures Valid() && targeted == old(targeted) + {view.process.pid}
      ensures var request := KillRequest(view, blame, now);
              if request.Target() in awaiting || dryRun then
                decisions == old(decisions) + [KillDecision(view, blame)] && pending == old(pending)
              else if |old(pending)| < MAX_KILLS_PER_PASS then
                decisions == old(decisions) + [KillDecision(view, blame)] && pending == old(pending) + [request]
              else
                && decisions == old(decisions) + [KillDecision(view, blame).(action := Skip, reason := BudgetExhausted)]
                && pending == old(pending)
    {
      targeted := targeted + {view.process.pid};
      var decision := KillDecision(view, blame);
      if !dryRun && Identity(view.process.pid, view.info.startTime) in awaiting {
        decisions := decisions + [decision];
        return;
      }
      if !dryRun && |pending| >= MAX_KILLS_PER_PASS {
        decisions := decisions + [decision.(action := Skip, reason := BudgetExhausted)];
        return;
      }
      decisions := decisions + [decision];
      if !dryRun {
        pending := pending + [KillRequest(view, blame, now)];
      }
    }

    /** Like `KillProcess`, but a PID seen on another GPU of the same pass is only skipped. */
    method KillOnce(view: View, blame: Blame, now: Time)
      requires Valid()
      modifies this
      ensures Valid() && targeted == old(targeted) + {view.process.pid}
      ensures exists d ::
                && decisions == old(decisions) + [d] && Denial(d, view, blame)
                && (view.process.pid !in old(targeted) && |old(pending)| < MAX_KILLS_PER_PASS ==> d.action.Kill?)
      ensures old(pending) <= pending && |pending| <= |old(pending)| + 1
      ensures pending != old(pending) ==> view.process.pid !in old(targeted) && pending[|old(pending)|].view == view
    {
      if view.process.pid in targeted {
        targeted := targeted + {view.process.pid};
        decisions := decisions + [Plain(view.process, view.info, Skip, AlreadyTargeted)];
        return;
      }
      KillProcess(view, blame, now);
    }
  }
}
