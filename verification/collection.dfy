/**
 Producer, pruner and collector of one node's telemetry as one state machine.  Cursor and
 effects of a page are committed together, events are de-duplicated by stream and number, and
 a reader that fell behind is told so.
 */
module Collection {
  import opened Telemetry

  datatype Mark = Mark(stream: string, number: nat)

  /** A fetched page: the `count` events after `base`.  `opening` if it was asked for without a cursor. */
  datatype Fetched = Fetched(stream: string, base: nat, count: nat, opening: bool)
  {
    function Next(): Cursor { Cursor(stream, base + count) }
    predicate Holds(m: Mark) { m.stream == stream && base < m.number <= base + count }
  }

  /** A gap reply that the collector received. */
  datatype Told = Told(stream: string, earliest: nat)

  datatype Collector = Resting | Asking(query: Query) | Holding(page: Fetched)

  datatype World = World(
    window: Window, past: set<string>,
    stored: Query, collector: Collector,
    ingested: set<Mark>, log: seq<Mark>, pages: set<Fetched>, told: set<Told>, starts: map<string, nat>)

  datatype Step =
    | Append(n: nat)
    | Drop(n: nat)
    | Reset(stream: string)
    | Start
    | Fetch(count: nat)
    | Apply
    | Fail
    | Replay(page: Fetched)

  /** The events of a page that are new, in page order. */
  function Fresh(ingested: set<Mark>, stream: string, base: nat, count: nat): seq<Mark> {
    if count == 0 then []
    else
      var m := Mark(stream, base + count);
      Fresh(ingested, stream, base, count - 1) + if m in ingested then [] else [m]
  }

  /** One transaction: new events, their marks and the cursor. */
  function Commit(w: World, p: Fetched): World {
    var added := Fresh(w.ingested, p.stream, p.base, p.count);
    w.(ingested := w.ingested + (set m | m in added), log := w.log + added,
       stored := From(p.Next()), pages := w.pages + {p},
       starts := if p.opening && p.stream !in w.starts then w.starts[p.stream := p.base + 1] else w.starts)
  }

  predicate Enabled(w: World, step: Step) {
    match step
    case Append(_) => true
    case Drop(n) => w.window.first + n <= w.window.next
    case Reset(stream) => stream !in w.past && stream != w.window.stream
    case Start => w.collector.Resting?
    case Fetch(count) =>
      w.collector.Asking? && w.window.Valid() &&
      (match Judge(w.window, w.collector.query)
       case Serve(position) => if w.window.Empty() then count == 0 else position + count < w.window.next
       case _ => true)
    case Apply => w.collector.Holding?
    case Fail => true
    case Replay(page) => page in w.pages
  }

  function Next(w: World, step: Step): World
    requires w.window.Valid() && Enabled(w, step)
  {
    match step
    case Append(n) => w.(window := w.window.(next := w.window.next + n))
    case Drop(n) => w.(window := w.window.(first := w.window.first + n))
    case Reset(stream) => w.(window := Window(stream, 1, 1), past := w.past + {w.window.stream})
    case Start => w.(collector := Asking(w.stored))
    case Fetch(count) =>
      (match Judge(w.window, w.collector.query)
       case Serve(position) =>
         w.(collector := Holding(Fetched(w.window.stream, position, count, w.collector.query.FromStart?)))
       case Tell(_) =>
         w.(told := w.told + {Told(w.window.stream, w.window.Earliest())},
            collector := Asking(From(Cursor(w.window.stream, w.window.Resume()))))
       case Reject => w.(collector := Resting))
    case Apply => Commit(w, w.collector.page).(collector := Asking(From(w.collector.page.Next())))
    case Fail => w.(collector := Resting)
    case Replay(page) => Commit(w, page)
  }

  // ----- The invariant -----

  predicate Known(w: World, stream: string) { stream == w.window.stream || stream in w.past }

  /** Where the collector's first contact with the stream began. */
  function StartOf(w: World, stream: string): nat { if stream in w.starts then w.starts[stream] else 1 }

  /** Applied, or lost to retention before a gap the collector was told about. */
  predicate Accounted(w: World, m: Mark) {
    m in w.ingested || exists t :: t in w.told && t.stream == m.stream && m.number < t.earliest
  }

  ghost predicate Covered(w: World, stream: string, number: nat) {
    forall q: nat :: StartOf(w, stream) <= q <= number ==> Accounted(w, Mark(stream, q))
  }

  /** Everything up to the cursor has been dealt with. */
  ghost predicate Sound(w: World, c: Cursor) {
    && Known(w, c.stream) && Covered(w, c.stream, c.number) && StartOf(w, c.stream) <= c.number + 1
    && (c.stream == w.window.stream ==> c.number < w.window.next)
  }

  ghost predicate SoundQuery(w: World, q: Query) {
    match q
    case Garbled => false
    case FromStart => w.ingested == {} && w.pages == {} && w.starts == map[] && w.told == {}
    case From(c) => Sound(w, c) && (w.window.stream in w.starts ==> c.stream == w.window.stream)
  }

  /** The event comes after everything applied from its stream. */
  predicate Ahead(w: World, m: Mark) {
    forall k :: k in w.ingested && k.stream == m.stream ==> k.number < m.number
  }

  ghost predicate InOrder(w: World, p: Fetched) {
    forall m :: p.Holds(m) && m !in w.ingested ==> Ahead(w, m)
  }

  ghost predicate SoundPage(w: World, p: Fetched) {
    && Known(w, p.stream) && InOrder(w, p)
    && (p.stream == w.window.stream ==> p.base + p.count < w.window.next)
    && (p.opening <==> w.stored.FromStart?) && (!p.opening ==> Sound(w, Cursor(p.stream, p.base)))
    && (w.window.stream in w.starts ==> p.stream == w.window.stream)
  }

  ghost predicate AppliedPage(w: World, p: Fetched) {
    && Sound(w, p.Next()) && (p.opening ==> p.stream in w.starts)
    && (forall m :: p.Holds(m) ==> m in w.ingested)
    && (w.window.stream in w.starts ==> p.stream == w.window.stream)
  }

  predicate Increasing(log: seq<Mark>) {
    forall i, j :: 0 <= i < j < |log| && log[i].stream == log[j].stream ==> log[i].number < log[j].number
  }

  ghost predicate SoundMarks(w: World) {
    forall m :: m in w.ingested ==>
      && Known(w, m.stream) && StartOf(w, m.stream) <= m.number && Covered(w, m.stream, m.number)
      && (m.stream == w.window.stream ==> m.number < w.window.next)
  }

  predicate SoundTold(w: World) {
    forall t :: t in w.told ==> Known(w, t.stream) && (t.stream == w.window.stream ==> t.earliest <= w.window.first)
  }

  ghost predicate SoundCollector(w: World) {
    match w.collector
    case Resting => true
    case Asking(q) => SoundQuery(w, q) && (q.FromStart? <==> w.stored.FromStart?)
    case Holding(p) => SoundPage(w, p)
  }

  ghost predicate Inv(w: World) {
    && w.window.Valid() && w.window.stream !in w.past
    && (forall stream :: stream in w.starts ==> Known(w, stream))
    && Increasing(w.log) && (forall m :: m in w.log <==> m in w.ingested)
    && SoundMarks(w) && SoundTold(w) && SoundQuery(w, w.stored) && SoundCollector(w)
    && (forall p :: p in w.pages ==> AppliedPage(w, p))
  }

  // ----- Steps that only move the window -----

  /** The window moved on, and nothing the collector knows changed. */
  predicate Slid(w: World, w': World) {
    && w'.window.Valid() && w'.window.stream == w.window.stream && w'.past == w.past
    && w.window.first <= w'.window.first && w.window.next <= w'.window.next
    && w' == w.(window := w'.window)
  }

  lemma SlideKeepsInv(w: World, w': World)
    requires Inv(w) && Slid(w, w')
    ensures Inv(w')
  {
    forall stream, n: nat ensures Covered(w', stream, n) <==> Covered(w, stream, n) {
      CoveredDepends(w, w', stream, n);
    }
    assert forall c :: Sound(w, c) ==> Sound(w', c);
  }

  /** Coverage depends on the collector's records alone. */
  lemma CoveredDepends(w: World, w': World, stream: string, n: nat)
    requires w'.ingested == w.ingested && w'.told == w.told && w'.starts == w.starts
    ensures Covered(w', stream, n) <==> Covered(w, stream, n)
  {
    assert forall q: nat :: Accounted(w', Mark(stream, q)) <==> Accounted(w, Mark(stream, q));
  }

  lemma ResetKeepsInv(w: World, stream: string)
    requires Inv(w) && Enabled(w, Reset(stream))
    ensures Inv(Next(w, Reset(stream)))
  {
    var w' := Next(w, Reset(stream));
    forall s: string, n: nat ensures Covered(w', s, n) <==> Covered(w, s, n) {
      CoveredDepends(w, w', s, n);
    }
    assert forall c :: Sound(w, c) ==> Sound(w', c) && c.stream != stream;
    assert forall p :: p in w.pages ==> AppliedPage(w', p);
  }

  /** Only the collector's own activity changed. */
  lemma ActivityKeepsInv(w: World, w': World)
    requires Inv(w) && w' == w.(collector := w'.collector) && SoundCollector(w')
    ensures Inv(w')
  {
    forall s: string, n: nat ensures Covered(w', s, n) <==> Covered(w, s, n) {
      CoveredDepends(w, w', s, n);
    }
    assert forall c :: Sound(w, c) ==> Sound(w', c);
    assert forall p :: p in w.pages ==> AppliedPage(w', p);
  }

  lemma SameActivity(w: World, w': World, q: Query)
    requires w' == w.(collector := w'.collector) && SoundQuery(w, q)
    ensures SoundQuery(w', q)
  {
    forall s: string, n: nat ensures Covered(w', s, n) <==> Covered(w, s, n) {
      CoveredDepends(w, w', s, n);
    }
  }

  /** What the window serves after a sound cursor is ahead of everything applied before. */
  lemma ServedInOrder(w: World, position: nat, count: nat, opening: bool)
    requires Inv(w) && (!w.window.Empty() ==> w.window.first <= position + 1) && (w.window.Empty() ==> count == 0)
    requires if opening then w.ingested == {} else Sound(w, Cursor(w.window.stream, position))
    ensures InOrder(w, Fetched(w.window.stream, position, count, opening))
  {
    var p := Fetched(w.window.stream, position, count, opening);
    forall m, k | p.Holds(m) && m !in w.ingested && k in w.ingested && k.stream == m.stream
      ensures k.number < m.number {
      assert Covered(w, m.stream, k.number);
      assert m == Mark(m.stream, m.number) && k == Mark(k.stream, k.number);
    }
  }

  lemma ServeKeepsInv(w: World, position: nat, count: nat)
    requires Inv(w) && Enabled(w, Fetch(count)) && Judge(w.window, w.collector.query) == Serve(position)
    ensures Inv(Next(w, Fetch(count)))
  {
    hide Increasing, InOrder, Covered, SoundMarks, SoundTold, AppliedPage;
    var w' := Next(w, Fetch(count));
    var p := w'.collector.page;
    ServedInOrder(w, position, count, p.opening);
    SamePage(w, w', p);
    ActivityKeepsInv(w, w');
  }

  lemma SamePage(w: World, w': World, p: Fetched)
    requires w' == w.(collector := w'.collector) && SoundPage(w, p)
    ensures SoundPage(w', p)
  {
    if !p.opening {
      CoveredDepends(w, w', p.stream, p.base);
    }
    assert InOrder(w, p) ==> InOrder(w', p);
  }

  /** Telling the collector about a gap accounts for everything below the oldest retained event. */
  lemma TellKeepsInv(w: World, reset: bool, count: nat)
    requires Inv(w) && Enabled(w, Fetch(count)) && Judge(w.window, w.collector.query) == Tell(reset)
    ensures Inv(Next(w, Fetch(count)))
  {
    var w' := Next(w, Fetch(count));
    forall s: string, n: nat | Covered(w, s, n) ensures Covered(w', s, n) {
      assert forall q: nat :: Accounted(w, Mark(s, q)) ==> Accounted(w', Mark(s, q));
    }
    assert forall c :: Sound(w, c) ==> Sound(w', c);
    assert forall p :: p in w.pages ==> AppliedPage(w', p);
    var t := Told(w.window.stream, w.window.Earliest());
    var c := w'.collector.query.cursor;
    assert Sound(w', c) by {
      assert t in w'.told;
      assert forall q: nat :: q <= c.number && 1 <= q ==> Accounted(w', Mark(c.stream, q));
    }
  }

  // ----- Committing a page -----

  lemma FreshOne(ingested: set<Mark>, stream: string, base: nat, count: nat, before: seq<Mark>)
    requires 0 < count && before == Fresh(ingested, stream, base, count - 1) && Increasing(before)
    requires forall m :: m in before ==> m.stream == stream && m.number < base + count
    ensures Increasing(Fresh(ingested, stream, base, count))
  {
    assert forall i :: 0 <= i < |before| ==> before[i] in before;
  }

  lemma {:induction false} FreshMarks(ingested: set<Mark>, stream: string, base: nat, count: nat)
    ensures var added := Fresh(ingested, stream, base, count);
            && Increasing(added)
            && (forall m :: m in added <==> m.stream == stream && base < m.number <= base + count && m !in ingested)
  {
    if count != 0 {
      FreshMarks(ingested, stream, base, count - 1);
      FreshOne(ingested, stream, base, count, Fresh(ingested, stream, base, count - 1));
    }
  }

  lemma IncreasingConcat(xs: seq<Mark>, ys: seq<Mark>)
    requires Increasing(xs) && Increasing(ys)
    requires forall x, y :: x in xs && y in ys && x.stream == y.stream ==> x.number < y.number
    ensures Increasing(xs + ys)
  {
    assert forall i :: 0 <= i < |xs| ==> xs[i] in xs;
    assert forall i :: 0 <= i < |ys| ==> ys[i] in ys;
  }

  lemma CommitKeepsLog(w: World, p: Fetched)
    requires Increasing(w.log) && (forall m :: m in w.log <==> m in w.ingested) && InOrder(w, p)
    ensures var w' := Commit(w, p);
            && Increasing(w'.log) && (forall m :: m in w'.log <==> m in w'.ingested)
            && (forall m :: m in w'.ingested <==> m in w.ingested || p.Holds(m))
  {
    var added := Fresh(w.ingested, p.stream, p.base, p.count);
    FreshMarks(w.ingested, p.stream, p.base, p.count);
    forall x, y | x in w.log && y in added && x.stream == y.stream ensures x.number < y.number {
      assert p.Holds(y) && Ahead(w, y);
    }
    IncreasingConcat(w.log, added);
  }

  /** What was accounted for stays so, and the page's own range joins it. */
  lemma CommitCovers(w: World, p: Fetched)
    requires SoundPage(w, p) && SoundQuery(w, w.stored)
    requires forall m :: m in Commit(w, p).ingested <==> m in w.ingested || p.Holds(m)
    ensures forall s: string, n: nat :: Covered(w, s, n) && !w.stored.FromStart? ==> Covered(Commit(w, p), s, n)
    ensures Covered(Commit(w, p), p.stream, p.base + p.count)
    ensures StartOf(Commit(w, p), p.stream) <= p.base + 1
    ensures !w.stored.FromStart? ==> Commit(w, p).starts == w.starts
  {
    var w' := Commit(w, p);
    assert forall m :: Accounted(w, m) ==> Accounted(w', m);
    if !w.stored.FromStart? {
      forall s: string, n: nat | Covered(w, s, n) ensures Covered(w', s, n) {
      }
    }
    forall q: nat | StartOf(w', p.stream) <= q <= p.base + p.count ensures Accounted(w', Mark(p.stream, q)) {
      if p.base < q {
        assert p.Holds(Mark(p.stream, q));
      } else {
        assert Covered(w, p.stream, p.base);
      }
    }
  }

  lemma CommittedMarks(w: World, p: Fetched, m: Mark)
    requires Inv(w) && SoundPage(w, p) && m in Commit(w, p).ingested
    ensures var w' := Commit(w, p);
            && Known(w', m.stream) && StartOf(w', m.stream) <= m.number && Covered(w', m.stream, m.number)
            && (m.stream == w'.window.stream ==> m.number < w'.window.next)
  {
    hide Increasing, AppliedPage, SoundTold;
    CommitKeepsLog(w, p);
    CommitCovers(w, p);
  }

  lemma CommittedPage(w: World, p: Fetched)
    requires Inv(w) && SoundPage(w, p)
    ensures AppliedPage(Commit(w, p), p) && SoundQuery(Commit(w, p), From(p.Next()))
  {
    hide Increasing, SoundMarks, SoundTold;
    CommitKeepsLog(w, p);
    CommitCovers(w, p);
  }

  lemma EarlierPage(w: World, p: Fetched, e: Fetched)
    requires Inv(w) && SoundPage(w, p) && e in w.pages
    ensures AppliedPage(Commit(w, p), e)
  {
    hide Increasing, SoundMarks, SoundTold;
    CommitKeepsLog(w, p);
    CommitCovers(w, p);
  }

  lemma ApplyKeepsInv(w: World)
    requires Inv(w) && w.collector.Holding?
    ensures Inv(Next(w, Apply))
  {
    hide Increasing, InOrder, Covered, SoundPage, AppliedPage, SoundQuery, SoundTold;
    var p := w.collector.page;
    var mid := Commit(w, p).(collector := Resting);
    CommittedPage(w, p);
    SettleKeepsInv(w, p, mid);
    SameActivity(Commit(w, p), Next(w, Apply), From(p.Next()));
    ActivityKeepsInv(mid, Next(w, Apply));
  }

  /** Without an activity of its own, the world after a commit satisfies the invariant. */
  lemma SettleKeepsInv(w: World, p: Fetched, mid: World)
    requires Inv(w) && SoundPage(w, p) && mid == Commit(w, p).(collector := Resting)
    ensures Inv(mid)
  {
    hide Increasing, InOrder, Covered, AppliedPage, SoundQuery, SoundTold;
    CommitKeepsLogOf(w, p);
    CommittedPage(w, p);
    SameActivity(Commit(w, p), mid, From(p.Next()));
    forall m | m in mid.ingested
      ensures Known(mid, m.stream) && StartOf(mid, m.stream) <= m.number && Covered(mid, m.stream, m.number)
      ensures m.stream == mid.window.stream ==> m.number < mid.window.next {
      CommittedMarks(w, p, m);
      CoveredDepends(Commit(w, p), mid, m.stream, m.number);
    }
    forall e | e in mid.pages ensures AppliedPage(mid, e) {
      if e in w.pages {
        EarlierPage(w, p, e);
      }
      SameAppliedPage(Commit(w, p), mid, e);
    }
    ToldUntouched(w, mid);
  }

  lemma CommitKeepsLogOf(w: World, p: Fetched)
    requires Inv(w) && SoundPage(w, p)
    ensures var w' := Commit(w, p);
            && Increasing(w'.log) && (forall m :: m in w'.log <==> m in w'.ingested)
            && (forall stream :: stream in w'.starts ==> Known(w', stream))
  {
    hide Increasing, InOrder, Covered, AppliedPage, SoundMarks, SoundTold;
    CommitKeepsLog(w, p);
  }

  lemma SameAppliedPage(w: World, w': World, e: Fetched)
    requires w' == w.(collector := w'.collector) && AppliedPage(w, e)
    ensures AppliedPage(w', e)
  {
    CoveredDepends(w, w', e.stream, e.base + e.count);
  }

  lemma ToldUntouched(w: World, w': World)
    requires SoundTold(w) && w'.told == w.told && w'.window == w.window && w'.past == w.past
    ensures SoundTold(w')
  {
  }

  /** Re-applying a page that was applied before only puts the stored cursor back. */
  lemma ReplayOnlyMovesCursor(w: World, p: Fetched)
    requires Inv(w) && p in w.pages
    ensures Commit(w, p) == w.(stored := From(p.Next()))
  {
    hide Increasing, Covered, SoundMarks, SoundTold, SoundQuery, SoundCollector;
    assert AppliedPage(w, p);
    forall m | Fetched(p.stream, p.base, p.count, false).Holds(m) ensures m in w.ingested {
      assert p.Holds(m);
    }
    NothingFresh(w.ingested, p.stream, p.base, p.count);
  }

  lemma {:induction false} NothingFresh(ingested: set<Mark>, stream: string, base: nat, count: nat)
    requires forall m :: Fetched(stream, base, count, false).Holds(m) ==> m in ingested
    ensures Fresh(ingested, stream, base, count) == []
  {
    if count != 0 {
      assert Fetched(stream, base, count, false).Holds(Mark(stream, base + count));
      forall m | Fetched(stream, base, count - 1, false).Holds(m) ensures m in ingested {
        assert Fetched(stream, base, count, false).Holds(m);
      }
      NothingFresh(ingested, stream, base, count - 1);
    }
  }

  lemma ReplayKeepsInv(w: World, p: Fetched)
    requires Inv(w) && p in w.pages
    ensures Inv(Next(w, Replay(p)))
  {
    ReplayOnlyMovesCursor(w, p);
    var w' := Next(w, Replay(p));
    forall s: string, n: nat ensures Covered(w', s, n) <==> Covered(w, s, n) {
      CoveredDepends(w, w', s, n);
    }
    assert forall c :: Sound(w, c) ==> Sound(w', c);
    assert AppliedPage(w, p);
    assert forall e :: e in w.pages ==> AppliedPage(w', e);
  }

  // ----- Every run -----

  lemma StepKeepsInv(w: World, step: Step)
    requires Inv(w) && Enabled(w, step)
    ensures Inv(Next(w, step))
  {
    hide Increasing, InOrder, Covered, SoundMarks, SoundTold, AppliedPage, Sound;
    match step {
      case Append(n) => SlideKeepsInv(w, Next(w, step));
      case Drop(n) => SlideKeepsInv(w, Next(w, step));
      case Reset(stream) => ResetKeepsInv(w, stream);
      case Start =>
        SameActivity(w, Next(w, step), w.stored);
        ActivityKeepsInv(w, Next(w, step));
      case Fetch(count) =>
        match Judge(w.window, w.collector.query) {
          case Serve(position) => ServeKeepsInv(w, position, count);
          case Tell(reset) => TellKeepsInv(w, reset, count);
          case Reject => ActivityKeepsInv(w, Next(w, step));
        }
      case Apply => ApplyKeepsInv(w);
      case Fail => ActivityKeepsInv(w, Next(w, step));
      case Replay(page) => ReplayKeepsInv(w, page);
    }
  }

  function Initial(stream: string): World {
    World(Window(stream, 1, 1), {}, FromStart, Resting, {}, [], {}, {}, map[])
  }

  predicate EnabledRun(w: World, steps: seq<Step>)
    decreases |steps|
  {
    w.window.Valid() && (steps != [] ==> Enabled(w, steps[0]) && EnabledRun(Next(w, steps[0]), steps[1..]))
  }

  function Run(w: World, steps: seq<Step>): World
    requires EnabledRun(w, steps)
    decreases |steps|
  {
    if steps == [] then w else Run(Next(w, steps[0]), steps[1..])
  }

  lemma {:induction false} RunKeepsInv(w: World, steps: seq<Step>)
    requires Inv(w) && EnabledRun(w, steps)
    ensures Inv(Run(w, steps))
    decreases |steps|
  {
    if steps != [] {
      StepKeepsInv(w, steps[0]);
      RunKeepsInv(Next(w, steps[0]), steps[1..]);
    }
  }

  /** In every run, the events of each stream are applied in strictly increasing order, hence each at most once. */
  lemma AppliedOnceInOrder(stream: string, steps: seq<Step>, i: nat, j: nat)
    requires EnabledRun(Initial(stream), steps)
    requires i < j < |Run(Initial(stream), steps).log|
    ensures var log := Run(Initial(stream), steps).log;
            log[i].stream == log[j].stream ==> log[i].number < log[j].number
  {
    RunKeepsInv(Initial(stream), steps);
  }

  /**
   In every run, a number that was passed over after first contact lies below the earliest number
   of a gap the collector was told about.
   */
  lemma NoSilentLoss(stream: string, steps: seq<Step>, m: Mark, q: nat)
    requires EnabledRun(Initial(stream), steps)
    requires var w := Run(Initial(stream), steps);
             m in w.log && StartOf(w, m.stream) <= q <= m.number && Mark(m.stream, q) !in w.log
    ensures var w := Run(Initial(stream), steps);
            exists t :: t in w.told && t.stream == m.stream && q < t.earliest
  {
    RunKeepsInv(Initial(stream), steps);
    var w := Run(Initial(stream), steps);
    assert Covered(w, m.stream, m.number);
    assert Accounted(w, Mark(m.stream, q));
  }

  /** First contact is where the collector's first page began. */
  lemma FirstContact(w: World)
    requires Inv(w) && w.stored.FromStart? && w.collector.Holding?
    ensures StartOf(Next(w, Apply), w.collector.page.stream) == w.collector.page.base + 1
  {
  }

  /** A page of the outbox is a step of this machine: the consecutive numbers right after the position. */
  lemma PageIsFetch(box: Outbox, reply: Reply, position: nat, limit: nat, w: World)
    requires box.Valid() && reply.PageReply? && box.Answers(reply, position, limit)
    requires w.window == box.Retained() && w.collector.Asking? && Judge(w.window, w.collector.query) == Serve(position)
    ensures Enabled(w, Fetch(|reply.events|))
    ensures forall i :: 0 <= i < |reply.events| ==> reply.events[i].number == position + 1 + i
    ensures Next(w, Fetch(|reply.events|)).collector.page.Next() == reply.next
  {
    hide Linked, ChainEnd, TotalSize, Fits;
  }
}
