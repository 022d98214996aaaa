/**
 Observed jobs: processes that enforcement allowed, tracked from pass to pass and reported as
 started, updated and finished.
 */
module Jobs {
  import opened Model
  import opened Sequences
  import opened Planning

  /** One authorization's process, by PID and start time. */
  datatype JobKey = JobKey(authID: string, pid: int, startTime: nat)

  datatype Job = Job(groups: set<string>, primary: string, gpus: set<int>, mode: TokenMode, missed: nat, lastSeen: Time)

  datatype Ending = ProcessGone | ReservationEnded

  datatype JobEvent = Started(key: JobKey) | Updated(key: JobKey) | Finished(key: JobKey, reason: Ending)

  // ----- The bracket property -----

  datatype Bracket = Closed | Open | Broken

  function Shift(b: Bracket, e: JobEvent): Bracket {
    match e
    case Started(_) => if b.Closed? then Open else Broken
    case Updated(_) => if b.Open? then Open else Broken
    case Finished(_, _) => if b.Open? then Closed else Broken
  }

  /** The events of one key so far: `Closed` after (started updated* finished)*, `Open` inside a bracket. */
  function BracketOf(log: seq<JobEvent>, key: JobKey): Bracket {
    if log == [] then Closed
    else
      var b, e := BracketOf(log[..|log| - 1], key), log[|log| - 1];
      if e.key == key then Shift(b, e) else b
  }

  lemma BracketSnoc(log: seq<JobEvent>, e: JobEvent, key: JobKey)
    ensures BracketOf(log + [e], key) == if e.key == key then Shift(BracketOf(log, key), e) else BracketOf(log, key)
  {
    assert (log + [e])[..|log|] == log;
  }

  /** `i` starts the bracket that is still open at `until`: since then the key was only updated. */
  predicate OpenSince(log: seq<JobEvent>, key: JobKey, i: nat, until: nat) {
    && i < until <= |log| && log[i] == Started(key)
    && forall k :: i < k < until && log[k].key == key ==> log[k].Updated?
  }

  lemma {:induction false} OpenBracket(log: seq<JobEvent>, key: JobKey) returns (i: nat)
    requires BracketOf(log, key).Open?
    ensures OpenSince(log, key, i, |log|)
  {
    var n := |log| - 1;
    if log[n] == Started(key) {
      i := n;
    } else {
      i := OpenBracket(log[..n], key);
      assert forall k :: 0 <= k < n ==> log[k] == log[..n][k];
    }
  }

  /** Every update and every end of a job belongs to a start of its key with nothing but updates in between. */
  lemma EveryEventIsInABracket(log: seq<JobEvent>, key: JobKey, j: nat) returns (i: nat)
    requires !BracketOf(log, key).Broken? && j < |log| && log[j].key == key && !log[j].Started?
    ensures OpenSince(log, key, i, j)
  {
    PrefixClosed((l: seq<JobEvent>) => !BracketOf(l, key).Broken?, log, j + 1);
    assert log[..j + 1][..j] == log[..j] && log[..j + 1][j] == log[j];
    i := OpenBracket(log[..j], key);
    assert forall k :: 0 <= k < j ==> log[k] == log[..j][k];
  }

  /** Exactly the keys inside a bracket are tracked. */
  ghost predicate Tracks(observed: map<JobKey, Job>, log: seq<JobEvent>) {
    forall key :: BracketOf(log, key) == if key in observed then Open else Closed
  }

  lemma TracksSnoc(observed: map<JobKey, Job>, observed': map<JobKey, Job>, log: seq<JobEvent>, e: JobEvent)
    requires Tracks(observed, log)
    requires forall key :: key != e.key ==> (key in observed' <==> key in observed)
    requires match e
             case Started(k) => k !in observed && k in observed'
             case Updated(k) => k in observed && k in observed'
             case Finished(k, _) => k in observed && k !in observed'
    ensures Tracks(observed', log + [e])
  {
    hide BracketOf;
    forall key { BracketSnoc(log, e, key); }
  }

  // ----- Missed passes -----

  /** In how many of the latest passes in a row the key was not seen. */
  function MissedRun(passes: seq<set<JobKey>>, key: JobKey): nat {
    if passes == [] || key in passes[|passes| - 1] then 0 else 1 + MissedRun(passes[..|passes| - 1], key)
  }

  lemma MissedTwice(passes: seq<set<JobKey>>, key: JobKey)
    requires 2 <= MissedRun(passes, key)
    ensures 2 <= |passes| && key !in passes[|passes| - 1] && key !in passes[|passes| - 2]
  {
    assert passes[..|passes| - 1][|passes| - 2] == passes[|passes| - 2];
  }

  lemma MissedSnoc(passes: seq<set<JobKey>>, seen: set<JobKey>, key: JobKey)
    ensures MissedRun(passes + [seen], key) == if key in seen then 0 else 1 + MissedRun(passes, key)
  {
    assert (passes + [seen])[..|passes|] == passes;
  }

  // ----- Sightings -----

  /** What a pass's decision says about an observed job. */
  datatype Sighting = Sighting(key: JobKey, mode: TokenMode, groups: set<string>, primary: string, gpu: int,
                               lookupPending: bool)

  function GroupsFor(rs: seq<Reservation>, hash: string, gpu: int, now: Time): set<string> {
    set r | r in rs && r.tokenHash == hash && r.gpu == gpu && ReservationActiveAt(r, now) && r.groupID != ""
      :: r.groupID
  }

  /** The sighting of an allowed process of a non-bare authorization, if there is one. */
  function SightingOf(s: State, auths: map<string, Authorization>, tokens: map<string, Token>, d: Decision, now: Time,
                      first: set<string> -> string, lookupPending: Decision -> bool): seq<Sighting>
  {
    if !d.action.Allow? || d.reason.Bypass? || d.authID == "" || d.process.pid <= 0 || d.info.startTime == 0 then []
    else if d.authID !in auths || auths[d.authID].tokenMode.OtherMode? || auths[d.authID].mode.Bare? then []
    else
      var a := auths[d.authID];
      if a.tokenHash !in tokens || tokens[a.tokenHash].id == "" then []
      else
        var active := GroupsFor(s.reservations, a.tokenHash, d.process.gpu, now);
        var groups := if active == {} && a.tokenMode.Reserved? then {tokens[a.tokenHash].id} else active;
        [Sighting(JobKey(a.id, d.process.pid, d.info.startTime), a.tokenMode, groups,
                  if groups == {} then "" else first(groups), d.process.gpu, lookupPending(d))]
  }

  function SeenKeys(sightings: seq<Sighting>): set<JobKey> { set x | x in sightings :: x.key }

  /** The reservation groups under which the key was seen in this pass. */
  function CurrentGroups(sightings: seq<Sighting>, key: JobKey): set<string> {
    set x, g | x in sightings && x.key == key && g in x.groups :: g
  }

  predicate HasGroups(job: Job) { job.primary != "" || job.groups != {} }

  /** The job was seen without any of the reservation groups it is reported under. */
  predicate LostGroups(sightings: seq<Sighting>, key: JobKey, job: Job) {
    && key in SeenKeys(sightings) && CurrentGroups(sightings, key) == {} && HasGroups(job)
    && (job.mode.Claimed? || job.mode.Managed?)
  }

  lemma LostIsSeen(sightings: seq<Sighting>)
    ensures forall key, job :: LostGroups(sightings, key, job) ==> key in SeenKeys(sightings)
  {
  }

  lemma SightingHasPrimary(s: State, auths: map<string, Authorization>, tokens: map<string, Token>, d: Decision,
                           now: Time,
                           first: set<string> -> string, lookupPending: Decision -> bool)
    ensures forall x :: x in SightingOf(s, auths, tokens, d, now, first, lookupPending) ==>
              (x.groups == {} ==> x.primary == "")
  {
    hide GroupsFor;
  }

  function AuthorizationsByID(auths: seq<Authorization>): map<string, Authorization> {
    if auths == [] then map[]
    else AuthorizationsByID(auths[..|auths| - 1])[auths[|auths| - 1].id := auths[|auths| - 1]]
  }

  function SightingsOf(s: State, decisions: seq<Decision>, now: Time, first: set<string> -> string,
                       lookupPending: Decision -> bool): seq<Sighting>
  {
    if decisions == [] then []
    else
      var n := |decisions| - 1;
      SightingsOf(s, decisions[..n], now, first, lookupPending)
      + SightingOf(s, AuthorizationsByID(s.authorizations), TokensByHash(s.tokens), decisions[n], now,
                   first, lookupPending)
  }

  predicate WellFormed(sightings: seq<Sighting>) {
    forall x :: x in sightings && x.groups == {} ==> x.primary == ""
  }

  // ----- One pass on values -----

  function Observe(job: Job, x: Sighting, now: Time): Job {
    job.(groups := job.groups + x.groups, gpus := job.gpus + {x.gpu}, missed := 0, lastSeen := now)
  }

  function NewJob(x: Sighting, now: Time): Job { Job(x.groups, x.primary, {x.gpu}, x.mode, 0, now) }

  function Continued(job: Job, now: Time): Job { job.(groups := {}, primary := "", missed := 0, lastSeen := now) }

  /** The sighting tells something about the job that was not reported yet. */
  predicate News(job: Job, x: Sighting) { x.gpu !in job.gpus || !(x.groups <= job.groups) }

  function Sighted(observed: map<JobKey, Job>, x: Sighting, now: Time): map<JobKey, Job> {
    observed[x.key := if x.key in observed then Observe(observed[x.key], x, now) else NewJob(x, now)]
  }

  function SightedAll(before: map<JobKey, Job>, sightings: seq<Sighting>, now: Time): map<JobKey, Job> {
    if sightings == [] then before
    else
      var n := |sightings| - 1;
      Sighted(SightedAll(before, sightings[..n], now), sightings[n], now)
  }

  /** What one sighting makes the daemon report. */
  function ReportOf(observed: map<JobKey, Job>, x: Sighting): seq<JobEvent> {
    if x.key !in observed then [Started(x.key)]
    else if News(observed[x.key], x) then [Updated(x.key)]
    else []
  }

  function Reports(before: map<JobKey, Job>, sightings: seq<Sighting>, now: Time): seq<JobEvent> {
    if sightings == [] then []
    else
      var n := |sightings| - 1;
      Reports(before, sightings[..n], now) + ReportOf(SightedAll(before, sightings[..n], now), sightings[n])
  }

  /**
   What is tracked after the pass: sighted jobs, those that lost their groups anew, and those missed
   for the first time.
   */
  function AfterPass(before: map<JobKey, Job>, sightings: seq<Sighting>, now: Time): map<JobKey, Job> {
    var seen, jobs := SeenKeys(sightings), SightedAll(before, sightings, now);
    map key | key in jobs && (key in seen || jobs[key].missed < 1) ::
      if key !in seen then jobs[key].(missed := jobs[key].missed + 1)
      else if LostGroups(sightings, key, jobs[key]) then Continued(jobs[key], now)
      else jobs[key]
  }

  lemma {:induction false} SightedKeys(before: map<JobKey, Job>, sightings: seq<Sighting>, now: Time)
    ensures SightedAll(before, sightings, now).Keys == before.Keys + SeenKeys(sightings)
  {
    if sightings != [] {
      var n := |sightings| - 1;
      SightedKeys(before, sightings[..n], now);
      assert sightings == sightings[..n] + [sightings[n]];
    }
  }

  /** A job that was not sighted is as before; one that was has no misses. */
  lemma {:induction false} SightedJob(before: map<JobKey, Job>, sightings: seq<Sighting>, now: Time, key: JobKey)
    requires key in SightedAll(before, sightings, now)
    ensures var job := SightedAll(before, sightings, now)[key];
            if key in SeenKeys(sightings) then job.missed == 0 else key in before && job == before[key]
  {
    if sightings != [] {
      var n := |sightings| - 1;
      assert sightings == sightings[..n] + [sightings[n]];
      if sightings[n].key != key {
        SightedJob(before, sightings[..n], now, key);
      }
    }
  }

  lemma CurrentGroupsOfFewer(sightings: seq<Sighting>, n: nat, key: JobKey)
    requires n <= |sightings| && CurrentGroups(sightings, key) == {}
    ensures CurrentGroups(sightings[..n], key) == {}
    ensures forall x :: x in sightings && x.key == key ==> x.groups == {}
  {
    forall x | x in sightings && x.key == key ensures x.groups <= CurrentGroups(sightings, key) {
    }
  }

  /** A job seen without groups has those it had before the pass, if it had any. */
  lemma {:induction false} SightedGroups(before: map<JobKey, Job>, sightings: seq<Sighting>, now: Time, key: JobKey)
    requires WellFormed(sightings) && key in SightedAll(before, sightings, now) && CurrentGroups(sightings, key) == {}
    ensures var job := SightedAll(before, sightings, now)[key];
            if key in before then
              job.groups == before[key].groups && job.primary == before[key].primary && job.mode == before[key].mode
            else !HasGroups(job)
  {
    if sightings != [] {
      var n := |sightings| - 1;
      CurrentGroupsOfFewer(sightings, n, key);
      if key in SightedAll(before, sightings[..n], now) {
        SightedGroups(before, sightings[..n], now, key);
      } else {
        SightedKeys(before, sightings[..n], now);
      }
    }
  }

  /** Losing the groups is decided as if by the job before the pass. */
  lemma LostAsBefore(before: map<JobKey, Job>, sightings: seq<Sighting>, now: Time, key: JobKey)
    requires WellFormed(sightings) && key in SightedAll(before, sightings, now)
    ensures LostGroups(sightings, key, SightedAll(before, sightings, now)[key])
            <==> key in before && LostGroups(sightings, key, before[key])
  {
    hide SightedAll, CurrentGroups;
    if CurrentGroups(sightings, key) == {} {
      SightedGroups(before, sightings, now, key);
    }
  }

  /** Sighting `n` has news about a job that is tracked by then. */
  ghost predicate UpdateDue(before: map<JobKey, Job>, sightings: seq<Sighting>, now: Time, n: nat)
    requires n < |sightings|
  {
    var jobs := SightedAll(before, sightings[..n], now);
    sightings[n].key in jobs && News(jobs[sightings[n].key], sightings[n])
  }

  /** Exactly the events that the sightings of the pass call for. */
  ghost predicate SightingDue(e: JobEvent, before: map<JobKey, Job>, sightings: seq<Sighting>, now: Time) {
    match e
    case Started(key) => key in SeenKeys(sightings) && key !in before
    case Updated(key) =>
      exists n :: 0 <= n < |sightings| && sightings[n].key == key && UpdateDue(before, sightings, now, n)
    case Finished(_, _) => false
  }

  lemma {:induction false} ReportsAreDue(before: map<JobKey, Job>, sightings: seq<Sighting>, now: Time, e: JobEvent)
    ensures e in Reports(before, sightings, now) <==> SightingDue(e, before, sightings, now)
  {
    if sightings != [] {
      var n := |sightings| - 1;
      var front := sightings[..n];
      assert sightings == front + [sightings[n]];
      ReportsAreDue(before, front, now, e);
      SightedKeys(before, front, now);
      if e.Updated? {
        UpdateDueInFront(before, sightings, now, e.key);
      }
    }
  }

  lemma UpdateDueInFront(before: map<JobKey, Job>, sightings: seq<Sighting>, now: Time, key: JobKey)
    requires sightings != []
    ensures var n := |sightings| - 1;
            SightingDue(Updated(key), before, sightings, now)
            <==> SightingDue(Updated(key), before, sightings[..n], now)
                 || (sightings[n].key == key && UpdateDue(before, sightings, now, n))
  {
    hide SightedAll, News;
    var n := |sightings| - 1;
    var front := sightings[..n];
    forall k | 0 <= k < n
      ensures front[k] == sightings[k]
      ensures UpdateDue(before, front, now, k) <==> UpdateDue(before, sightings, now, k) {
      assert front[..k] == sightings[..k];
    }
    if SightingDue(Updated(key), before, front, now) {
      var k :| 0 <= k < |front| && front[k].key == key && UpdateDue(before, front, now, k);
      assert sightings[k].key == key && UpdateDue(before, sightings, now, k);
    }
    if SightingDue(Updated(key), before, sightings, now) {
      var k :| 0 <= k < |sightings| && sightings[k].key == key && UpdateDue(before, sightings, now, k);
      if k < n {
        assert front[k].key == key && UpdateDue(before, front, now, k);
      }
    }
  }

  /**
   The events that a pass must report: starts of jobs seen for the first time, news about tracked
   ones, an end and a new start for those seen without any of their groups, and an end for those
   missed twice in a row.
   */
  ghost predicate Due(e: JobEvent, before: map<JobKey, Job>, sightings: seq<Sighting>, now: Time,
                      passes: seq<set<JobKey>>)
  {
    match e
    case Started(key) =>
      || (key in SeenKeys(sightings) && key !in before)
      || (key in before && LostGroups(sightings, key, before[key]))
    case Updated(_) => SightingDue(e, before, sightings, now)
    case Finished(key, ReservationEnded) => key in before && LostGroups(sightings, key, before[key])
    case Finished(key, ProcessGone) => key in before && 2 <= MissedRun(passes, key)
  }

  /** The counters of the tracked jobs are the passes each was missed in. */
  ghost predicate MissesCounted(observed: map<JobKey, Job>, passes: seq<set<JobKey>>) {
    forall key :: key in observed ==> observed[key].missed == MissedRun(passes, key)
  }

  /** Tracked after the pass: whatever was seen, and what was tracked before and not missed twice in a row. */
  lemma AfterPassTracks(before: map<JobKey, Job>, sightings: seq<Sighting>, now: Time, passes: seq<set<JobKey>>)
    requires MissesCounted(before, passes)
    ensures var passes' := passes + [SeenKeys(sightings)];
            && MissesCounted(AfterPass(before, sightings, now), passes')
            && AfterPass(before, sightings, now).Keys
               == SeenKeys(sightings) + (set key | key in before && MissedRun(passes', key) < 2)
  {
    hide LostGroups, SightedAll, SeenKeys, MissedRun;
    var seen := SeenKeys(sightings);
    SightedKeys(before, sightings, now);
    forall key { MissedSnoc(passes, seen, key); }
    forall key | key in SightedAll(before, sightings, now)
      ensures var job := SightedAll(before, sightings, now)[key];
              if key in seen then job.missed == 0 else key in before && job == before[key] {
      SightedJob(before, sightings, now, key);
    }
  }

  /** Which of the ends and restarts of a pass concern lost groups. */
  predicate GroupEvent(e: JobEvent) { e.Started? || e == Finished(e.key, ReservationEnded) }

  /** The events of the three stages of a pass, taken together, are those that are due. */
  lemma StagesAreDue(before: map<JobKey, Job>, sightings: seq<Sighting>, now: Time, passes: seq<set<JobKey>>,
                     lost: seq<JobEvent>, gone: seq<JobEvent>)
    requires WellFormed(sightings) && MissesCounted(before, passes)
    requires var jobs := SightedAll(before, sightings, now);
             forall e :: e in lost <==> GroupEvent(e) && e.key in jobs && LostGroups(sightings, e.key, jobs[e.key])
    requires var jobs := SightedAll(before, sightings, now);
             forall e :: e in gone <==>
               && e == Finished(e.key, ProcessGone) && e.key in jobs && e.key !in SeenKeys(sightings)
               && 1 <= jobs[e.key].missed
    ensures forall e :: e in Reports(before, sightings, now) + lost + gone
                        <==> Due(e, before, sightings, now, passes + [SeenKeys(sightings)])
  {
    hide LostGroups, SightedAll, MissedRun, SightingDue, Reports, SeenKeys;
    var jobs, passes' := SightedAll(before, sightings, now), passes + [SeenKeys(sightings)];
    SightedKeys(before, sightings, now);
    forall e ensures e in Reports(before, sightings, now) + lost + gone <==> Due(e, before, sightings, now, passes') {
      ReportsAreDue(before, sightings, now, e);
      ReportedStarts(before, sightings, now, e);
      MissedSnoc(passes, SeenKeys(sightings), e.key);
      if e.key in jobs {
        LostAsBefore(before, sightings, now, e.key);
        SightedJob(before, sightings, now, e.key);
      }
    }
  }

  lemma ReportedStarts(before: map<JobKey, Job>, sightings: seq<Sighting>, now: Time, e: JobEvent)
    ensures !e.Updated? ==>
              (SightingDue(e, before, sightings, now)
               <==> e.Started? && e.key in SeenKeys(sightings) && e.key !in before)
  {
  }

  method CollectSightings(s: State, decisions: seq<Decision>, now: Time, first: set<string> -> string,
                          lookupPending: Decision -> bool)
    returns (sightings: seq<Sighting>)
    ensures sightings == SightingsOf(s, decisions, now, first, lookupPending) && WellFormed(sightings)
  {
    hide SightingOf;
    var auths, tokens := AuthorizationsByID(s.authorizations), TokensByHash(s.tokens);
    sightings := [];
    for n := 0 to |decisions|
      invariant sightings == SightingsOf(s, decisions[..n], now, first, lookupPending) && WellFormed(sightings)
    {
      assert decisions[..n + 1][..n] == decisions[..n];
      SightingHasPrimary(s, auths, tokens, decisions[n], now, first, lookupPending);
      sightings := sightings + SightingOf(s, auths, tokens, decisions[n], now, first, lookupPending);
    }
    assert decisions[..|decisions|] == decisions;
  }

  /** Jobs that lost their groups go on without them. */
  function Regrouped(jobs: map<JobKey, Job>, sightings: seq<Sighting>, now: Time): map<JobKey, Job> {
    map key | key in jobs :: if LostGroups(sightings, key, jobs[key]) then Continued(jobs[key], now) else jobs[key]
  }

  ghost predicate RegroupedSoFar(before: map<JobKey, Job>, observed: map<JobKey, Job>, sightings: seq<Sighting>,
                                 now: Time,
                                 rest: set<JobKey>)
  {
    && observed.Keys == before.Keys
    && (forall key :: key in rest && key in before ==> observed[key] == before[key])
    && (forall key :: key in before && key !in rest ==> observed[key] == Regrouped(before, sightings, now)[key])
  }

  lemma RegroupOne(before: map<JobKey, Job>, observed: map<JobKey, Job>, sightings: seq<Sighting>, now: Time,
                   rest: set<JobKey>, key: JobKey)
    requires RegroupedSoFar(before, observed, sightings, now, rest) && key in rest && key in before
    ensures key in observed && observed[key] == before[key]
    ensures var lost := LostGroups(sightings, key, before[key]);
            RegroupedSoFar(before, if lost then observed[key := Continued(before[key], now)] else observed,
                           sightings, now, rest - {key})
  {
    hide LostGroups;
  }

  /** Of the jobs not seen, those missed for the first time stay. */
  function MissCounted(jobs: map<JobKey, Job>, seen: set<JobKey>): map<JobKey, Job> {
    map key | key in jobs && (key in seen || jobs[key].missed < 1) :: Counted(jobs[key], key in seen)
  }

  function Counted(job: Job, spared: bool): Job { if spared then job else job.(missed := job.missed + 1) }

  /** Midway through counting misses: the jobs in `rest` wait, the seen ones stay, the others are counted or gone. */
  ghost predicate CountedSoFar(before: map<JobKey, Job>, observed: map<JobKey, Job>, seen: set<JobKey>,
                               rest: set<JobKey>)
  {
    && observed.Keys <= before.Keys
    && forall key :: key in before ==>
         && (key in observed <==> key in rest || key in seen || before[key].missed < 1)
         && (key in observed ==> observed[key] == Counted(before[key], key in rest || key in seen))
  }

  ghost predicate GoneReported(before: map<JobKey, Job>, seen: set<JobKey>, rest: set<JobKey>, added: seq<JobEvent>) {
    forall e :: e in added <==>
      && e == Finished(e.key, ProcessGone) && e.key in before && e.key !in seen && e.key !in rest
      && 1 <= before[e.key].missed
  }

  lemma ReportGone(before: map<JobKey, Job>, seen: set<JobKey>, rest: set<JobKey>, added: seq<JobEvent>, key: JobKey)
    requires GoneReported(before, seen, rest, added) && key in rest && key in before && key !in seen
    ensures GoneReported(before, seen, rest - {key},
                         if 1 <= before[key].missed then added + [Finished(key, ProcessGone)] else added)
  {
  }

  ghost predicate LostReported(before: map<JobKey, Job>, sightings: seq<Sighting>, rest: set<JobKey>,
                               added: seq<JobEvent>)
  {
    forall e :: e in added <==>
      GroupEvent(e) && e.key in before && e.key !in rest && LostGroups(sightings, e.key, before[e.key])
  }

  lemma ReportLost(before: map<JobKey, Job>, sightings: seq<Sighting>, rest: set<JobKey>, added: seq<JobEvent>,
                   key: JobKey)
    requires LostReported(before, sightings, rest, added) && key in rest && key in before
    ensures var restarted := [Finished(key, ReservationEnded), Started(key)];
            LostReported(before, sightings, rest - {key},
                         if LostGroups(sightings, key, before[key]) then added + restarted else added)
  {
    hide LostGroups;
  }

  lemma CountStart(before: map<JobKey, Job>, seen: set<JobKey>, rest: set<JobKey>)
    requires rest == set key | key in before && key !in seen
    ensures CountedSoFar(before, before, seen, rest) && GoneReported(before, seen, rest, [])
  {
  }

  lemma CountDone(before: map<JobKey, Job>, observed: map<JobKey, Job>, seen: set<JobKey>, added: seq<JobEvent>)
    requires CountedSoFar(before, observed, seen, {}) && GoneReported(before, seen, {}, added)
    ensures observed == MissCounted(before, seen)
    ensures forall e :: e in added <==>
              e == Finished(e.key, ProcessGone) && e.key in before && e.key !in seen && 1 <= before[e.key].missed
  {
  }

  lemma CountOne(before: map<JobKey, Job>, observed: map<JobKey, Job>, seen: set<JobKey>, rest: set<JobKey>,
                 key: JobKey)
    requires CountedSoFar(before, observed, seen, rest) && key in rest && key in before && key !in seen
    ensures key in observed && observed[key] == before[key]
    ensures var job := before[key].(missed := before[key].missed + 1);
            CountedSoFar(before, if job.missed < 2 then observed[key := job] else observed - {key}, seen, rest - {key})
  {
  }

  class JobTracker {
    var observed: map<JobKey, Job>
    var pending: seq<JobKey>
    ghost var log: seq<JobEvent>
    ghost var passes: seq<set<JobKey>>

    constructor ()
      ensures Valid() && observed == map[] && pending == [] && log == [] && passes == []
    {
      observed, pending, log, passes := map[], [], [], [];
    }

    ghost predicate Valid()
      reads this
    {
      Tracks(observed, log) && MissesCounted(observed, passes)
    }

    /** One sighting starts a job or refreshes it; only news is reported. */
    method See(x: Sighting, now: Time)
      requires Tracks(observed, log)
      modifies this`observed, this`log, this`pending
      ensures Tracks(observed, log)
      ensures observed == Sighted(old(observed), x, now) && log == old(log) + ReportOf(old(observed), x)
      ensures pending == if x.key !in old(observed) && x.lookupPending && |old(pending)| < 256
                         then old(pending) + [x.key] else old(pending)
    {
      hide Tracks;
      if x.key !in observed {
        TracksSnoc(observed, observed[x.key := NewJob(x, now)], log, Started(x.key));
        observed := observed[x.key := NewJob(x, now)];
        log := log + [Started(x.key)];
        if x.lookupPending && |pending| < 256 {
          pending := pending + [x.key];
        }
      } else {
        var job := observed[x.key];
        if x.gpu !in job.gpus || !(x.groups <= job.groups) {
          TracksSnoc(observed, observed[x.key := Observe(job, x, now)], log, Updated(x.key));
          log := log + [Updated(x.key)];
        } else {
          TracksSame(observed, observed[x.key := Observe(job, x, now)], log);
        }
        observed := observed[x.key := Observe(job, x, now)];
      }
    }

    /** All sightings of a pass, in the order of its decisions. */
    method SeeAll(sightings: seq<Sighting>, now: Time)
      requires Tracks(observed, log)
      modifies this`observed, this`log, this`pending
      ensures Tracks(observed, log)
      ensures observed == SightedAll(old(observed), sightings, now)
      ensures log == old(log) + Reports(old(observed), sightings, now)
    {
      hide Tracks, Sighted, ReportOf;
      for n := 0 to |sightings|
        invariant Tracks(observed, log)
        invariant observed == SightedAll(old(observed), sightings[..n], now)
        invariant log == old(log) + Reports(old(observed), sightings[..n], now)
      {
        assert sightings[..n + 1][..n] == sightings[..n];
        See(sightings[n], now);
      }
      assert sightings[..|sightings|] == sightings;
    }

    /** The job's reservation is over: its bracket closes, and a new one opens without groups. */
    method Restart(key: JobKey, now: Time)
      requires Tracks(observed, log) && key in observed
      modifies this`observed, this`log
      ensures Tracks(observed, log) && observed == old(observed)[key := Continued(old(observed)[key], now)]
      ensures log == old(log) + [Finished(key, ReservationEnded), Started(key)]
    {
      hide Tracks;
      var job := Continued(observed[key], now);
      TracksSnoc(observed, observed - {key}, log, Finished(key, ReservationEnded));
      TracksSnoc(observed - {key}, observed[key := job], log + [Finished(key, ReservationEnded)], Started(key));
      assert log + [Finished(key, ReservationEnded)] + [Started(key)]
          == log + [Finished(key, ReservationEnded), Started(key)];
      log := log + [Finished(key, ReservationEnded), Started(key)];
      observed := observed[key := job];
    }

    /** Counts a miss; the second in a row ends the job. */
    method Miss(key: JobKey)
      requires Tracks(observed, log) && key in observed
      modifies this`observed, this`log
      ensures Tracks(observed, log)
      ensures var job := old(observed)[key].(missed := old(observed)[key].missed + 1);
              if job.missed < 2 then observed == old(observed)[key := job] && log == old(log)
              else observed == old(observed) - {key} && log == old(log) + [Finished(key, ProcessGone)]
    {
      hide Tracks;
      var missed := observed[key].missed + 1;
      if missed < 2 {
        TracksSame(observed, observed[key := observed[key].(missed := missed)], log);
        observed := observed[key := observed[key].(missed := missed)];
      } else {
        TracksSnoc(observed, observed - {key}, log, Finished(key, ProcessGone));
        log := log + [Finished(key, ProcessGone)];
        observed := observed - {key};
      }
    }

    /** Jobs that lost their last reservation group end here and continue without one. */
    method EndLostGroups(sightings: seq<Sighting>, now: Time) returns (ghost added: seq<JobEvent>)
      requires Tracks(observed, log)
      modifies this`observed, this`log
      ensures Tracks(observed, log) && log == old(log) + added
      ensures observed == Regrouped(old(observed), sightings, now)
      ensures forall e :: e in added <==>
                GroupEvent(e) && e.key in old(observed) && LostGroups(sightings, e.key, old(observed)[e.key])
    {
      hide Tracks, LostGroups;
      ghost var before, start := observed, log;
      var rest := observed.Keys;
      added := [];
      while rest != {}
        invariant Tracks(observed, log) && log == start + added && rest <= before.Keys
        invariant RegroupedSoFar(before, observed, sightings, now, rest) && LostReported(before, sightings, rest, added)
        decreases rest
      {
        var key :| key in rest;
        RegroupOne(before, observed, sightings, now, rest, key);
        ReportLost(before, sightings, rest, added, key);
        if LostGroups(sightings, key, observed[key]) {
          Restart(key, now);
          added := added + [Finished(key, ReservationEnded), Started(key)];
        }
        rest := rest - {key};
      }
    }

    /** Jobs that were not seen count a miss; the second miss in a row ends them. */
    method EndGone(seen: set<JobKey>) returns (ghost added: seq<JobEvent>)
      requires Tracks(observed, log)
      modifies this`observed, this`log
      ensures Tracks(observed, log) && log == old(log) + added
      ensures observed == MissCounted(old(observed), seen)
      ensures forall e :: e in added <==> e == Finished(e.key, ProcessGone) && e.key in old(observed) && e.key !in seen
                                          && 1 <= old(observed)[e.key].missed
    {
      hide Tracks, CountedSoFar, GoneReported;
      ghost var before, start := observed, log;
      var rest := set key | key in observed && key !in seen;
      added := [];
      CountStart(before, seen, rest);
      while rest != {}
        invariant Tracks(observed, log) && log == start + added && rest <= before.Keys && rest !! seen
        invariant CountedSoFar(before, observed, seen, rest) && GoneReported(before, seen, rest, added)
        decreases rest
      {
        var key :| key in rest;
        CountOne(before, observed, seen, rest, key);
        ReportGone(before, seen, rest, added, key);
        added := if 1 <= before[key].missed then added + [Finished(key, ProcessGone)] else added;
        Miss(key);
        rest := rest - {key};
      }
      CountDone(before, observed, seen, added);
    }

    /**
     One pass: every key's events keep the form (started updated* finished)*, exactly the keys inside
     a bracket stay tracked, exactly the events that are due are reported, and a job ends exactly
     after two passes in a row without it or when it is seen without any of its reservation groups.
     */
    method Track(sightings: seq<Sighting>, now: Time)
      requires Valid() && WellFormed(sightings)
      modifies this
      ensures Valid() && passes == old(passes) + [SeenKeys(sightings)]
      ensures observed == AfterPass(old(observed), sightings, now)
      ensures observed.Keys == SeenKeys(sightings) + (set key | key in old(observed) && MissedRun(passes, key) < 2)
      ensures |old(log)| <= |log| && log[..|old(log)|] == old(log)
      ensures forall e :: e in log[|old(log)|..] <==> Due(e, old(observed), sightings, now, passes)
    {
      hide Tracks, MissedRun, LostGroups, WellFormed, MissesCounted, SightedAll, Reports, Due, GroupEvent;
      ghost var before, start := observed, log;
      SeeAll(sightings, now);
      ghost var lost := EndLostGroups(sightings, now);
      ghost var gone := EndGone(SeenKeys(sightings));
      LostIsSeen(sightings);
      StagesAreDue(before, sightings, now, passes, lost, gone);
      AfterPassTracks(before, sightings, now, passes);
      assert observed == AfterPass(before, sightings, now) by {
        StagesCompose(before, sightings, now, observed);
      }
      passes := passes + [SeenKeys(sightings)];
      assert log[|start|..] == Reports(before, sightings, now) + lost + gone;
    }

    /** Metadata that arrived late is reported only for jobs that are still tracked. */
    method CompletePendingRuntimeContexts(gains: JobKey -> bool)
      requires Valid()
      modifies this`pending, this`log
      ensures Valid() && pending == []
      ensures log == old(log) + Gains(old(pending), observed.Keys, gains)
    {
      hide Tracks, MissesCounted;
      var items := pending;
      pending := [];
      for n := 0 to |items|
        invariant pending == [] && Tracks(observed, log)
        invariant log == old(log) + Gains(items[..n], observed.Keys, gains)
      {
        var key := items[n];
        assert items[..n + 1][..n] == items[..n];
        if key in observed && gains(key) {
          TracksSnoc(observed, observed, log, Updated(key));
          log := log + [Updated(key)];
        }
      }
      assert items[..|items|] == items;
    }

    /** The pass as the monitor calls it: the sightings are those of the allowed processes. */
    method TrackDecisions(s: State, decisions: seq<Decision>, now: Time, first: set<string> -> string,
                          lookupPending: Decision -> bool)
      requires Valid()
      modifies this
      ensures Valid() && |old(log)| <= |log| && log[..|old(log)|] == old(log)
      ensures var sightings := SightingsOf(s, decisions, now, first, lookupPending);
              && passes == old(passes) + [SeenKeys(sightings)]
              && observed == AfterPass(old(observed), sightings, now)
              && forall e :: e in log[|old(log)|..] <==> Due(e, old(observed), sightings, now, passes)
    {
      hide SightingOf, Tracks, MissesCounted, SeenKeys, Due, AfterPass, MissedRun;
      var sightings := CollectSightings(s, decisions, now, first, lookupPending);
      Track(sightings, now);
    }
  }

  /** Late metadata: an update for each queued job that is still tracked and gained something. */
  function Gains(items: seq<JobKey>, tracked: set<JobKey>, gains: JobKey -> bool): seq<JobEvent> {
    if items == [] then []
    else
      var n := |items| - 1;
      Gains(items[..n], tracked, gains) + if items[n] in tracked && gains(items[n]) then [Updated(items[n])] else []
  }

  /** The two endings, one after the other, come to what the pass leaves. */
  lemma StagesCompose(before: map<JobKey, Job>, sightings: seq<Sighting>, now: Time, after: map<JobKey, Job>)
    requires after == MissCounted(Regrouped(SightedAll(before, sightings, now), sightings, now), SeenKeys(sightings))
    ensures after == AfterPass(before, sightings, now)
  {
    hide SightedAll;
  }

  lemma TracksSame(observed: map<JobKey, Job>, observed': map<JobKey, Job>, log: seq<JobEvent>)
    requires Tracks(observed, log) && observed'.Keys == observed.Keys
    ensures Tracks(observed', log)
  {
    hide BracketOf;
  }
}
