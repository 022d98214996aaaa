/**
 Minute rollups of GPU samples: a window is split at minute boundaries, each piece is added to
 its minute's row and to the running summary of its GPU.
 */
module Rollups {
  import opened Options

  const MS: int := 1_000_000
  const MINUTE: int := 60_000_000_000
  const MINUTE_MS: int := 60_000

  function MinuteOf(t: int): int { t - t % MINUTE }

  function NextMinute(t: int): int { MinuteOf(t) + MINUTE }

  function Min(a: int, b: int): int { if a < b then a else b }

  function Max(a: int, b: int): int { if a < b then b else a }

  // ----- The splitter -----

  /** A stretch of whole milliseconds in one minute. */
  datatype Piece = Piece(minute: int, ms: int)

  /**
   `applyGPUIntervals` splits a window at minute boundaries; it stops at the first piece shorter than
   a millisecond.
   */
  function Pieces(start: int, end: int): seq<Piece>
    decreases end - start
  {
    if end <= start then []
    else
      var stop := Min(NextMinute(start), end);
      var ms := (stop - start) / MS;
      if ms <= 0 then [] else [Piece(MinuteOf(start), ms)] + Pieces(stop, end)
  }

  /** What one minute gains from a list of pieces. */
  function Gain(pieces: seq<Piece>, minute: int): int {
    if pieces == [] then 0 else (if pieces[0].minute == minute then pieces[0].ms else 0) + Gain(pieces[1..], minute)
  }

  /** The length of the window inside `[from, to)`. */
  function Overlap(start: int, end: int, from: int, to: int): int { Max(0, Min(end, to) - Max(start, from)) }

  /** The window begins in the last millisecond of a minute and reaches at least a millisecond beyond it. */
  predicate Loses(start: int, end: int) {
    NextMinute(start) - start < MS && MS <= end - NextMinute(start)
  }

  lemma MinuteBounds(t: int)
    ensures MinuteOf(t) <= t < NextMinute(t) && MinuteOf(t) % MINUTE == 0 && NextMinute(t) % MINUTE == 0
  {
  }

  /** Minutes are all or nothing with respect to a minute boundary. */
  lemma MinutesApart(minute: int, boundary: int)
    requires minute % MINUTE == 0 && boundary % MINUTE == 0
    ensures minute < boundary ==> minute + MINUTE <= boundary
  {
  }

  lemma {:induction false} NoGainBefore(start: int, end: int, minute: int)
    requires minute % MINUTE == 0 && minute < MinuteOf(start)
    ensures Gain(Pieces(start, end), minute) == 0
    decreases end - start
  {
    MinuteBounds(start);
    if start < end {
      var stop := Min(NextMinute(start), end);
      MinuteBounds(stop);
      if 0 < (stop - start) / MS {
        StopMinute(start, end);
        NoGainBefore(stop, end, minute);
      }
    }
  }

  /** The next piece starts on the following boundary or the window is over. */
  lemma StopMinute(start: int, end: int)
    requires start < end
    ensures var stop := Min(NextMinute(start), end);
            MinuteOf(start) <= MinuteOf(stop) && (stop < end ==> MinuteOf(stop) == stop == NextMinute(start))
  {
    MinuteBounds(start);
    var stop := Min(NextMinute(start), end);
    MinuteBounds(stop);
    if stop < end {
      assert stop % MINUTE == 0;
    } else if MinuteOf(stop) < MinuteOf(start) {
      MinutesApart(MinuteOf(stop), MinuteOf(start));
    }
  }

  /** Cutting a window at its first boundary does not change what the later minutes see. */
  lemma OverlapAfterCut(start: int, end: int, minute: int)
    requires start < end && minute % MINUTE == 0 && minute != MinuteOf(start)
    ensures Overlap(start, end, minute, minute + MINUTE)
         == Overlap(Min(NextMinute(start), end), end, minute, minute + MINUTE)
  {
    MinuteBounds(start);
    if minute < MinuteOf(start) {
      MinutesApart(minute, MinuteOf(start));
    } else {
      MinutesApart(MinuteOf(start), minute);
    }
  }

  lemma TinyWindow(start: int, end: int, minute: int)
    requires start < end && minute % MINUTE == 0 && !Loses(start, end) && Min(NextMinute(start), end) - start < MS
    ensures Overlap(start, end, minute, minute + MINUTE) / MS == 0
  {
    MinuteBounds(start);
    if minute < MinuteOf(start) {
      MinutesApart(minute, MinuteOf(start));
    } else if MinuteOf(start) < minute {
      MinutesApart(MinuteOf(start), minute);
    }
  }

  lemma FirstPiece(start: int, end: int)
    requires start < end
    ensures Overlap(start, end, MinuteOf(start), NextMinute(start)) == Min(NextMinute(start), end) - start
  {
    MinuteBounds(start);
  }

  /** Each minute gains the whole milliseconds of its part of the window. */
  lemma {:induction false} SplitExact(start: int, end: int, minute: int)
    requires minute % MINUTE == 0 && !Loses(start, end)
    ensures Gain(Pieces(start, end), minute) == Overlap(start, end, minute, minute + MINUTE) / MS
    decreases end - start
  {
    if start < end {
      var stop := Min(NextMinute(start), end);
      MinuteBounds(start);
      if (stop - start) / MS <= 0 {
        TinyWindow(start, end, minute);
      } else {
        StopMinute(start, end);
        MinuteBounds(stop);
        if minute == MinuteOf(start) {
          FirstPiece(start, end);
          if stop < end {
            NoGainBefore(stop, end, minute);
          }
        } else {
          OverlapAfterCut(start, end, minute);
          SplitExact(stop, end, minute);
        }
      }
    }
  }

  predicate ExactOn(start: int, end: int, minute: int) {
    Gain(Pieces(start, end), minute) == Overlap(start, end, minute, minute + MINUTE) / MS
  }

  /**
   The splitter is exact on every minute exactly when the window does not begin in a minute's last
   millisecond and outlive it.
   */
  lemma SplitExactIff(start: int, end: int)
    ensures !Loses(start, end) <==> forall minute :: minute % MINUTE == 0 ==> ExactOn(start, end, minute)
  {
    if Loses(start, end) {
      MinuteBounds(start);
      var next := NextMinute(start);
      assert Pieces(start, end) == [];
      assert MS <= Overlap(start, end, next, next + MINUTE);
      assert next % MINUTE == 0 && !ExactOn(start, end, next);
    } else {
      forall minute | minute % MINUTE == 0 ensures ExactOn(start, end, minute) {
        SplitExact(start, end, minute);
      }
    }
  }

  lemma Multiples(a: int, b: int)
    requires a % MS == 0 && b % MS == 0
    ensures (a - b) % MS == 0 && (a + b) % MS == 0
  {
    var k, m := a / MS, b / MS;
    assert a == k * MS && b == m * MS;
    assert a - b == (k - m) * MS && a + b == (k + m) * MS;
  }

  lemma MinuteIsAligned(minute: int)
    requires minute % MINUTE == 0
    ensures minute % MS == 0 && (minute + MINUTE) % MS == 0
  {
    var k := minute / MINUTE;
    assert minute == k * 60_000 * MS;
    assert (k * 60_000 * MS) % MS == 0;
    assert MINUTE == 60_000 * MS;
    Multiples(minute, MINUTE);
  }

  /** Windows on millisecond boundaries lose nothing and are counted exactly. */
  lemma AlignedSplit(start: int, end: int, minute: int)
    requires start % MS == 0 && end % MS == 0 && minute % MINUTE == 0
    ensures Gain(Pieces(start, end), minute) * MS == Overlap(start, end, minute, minute + MINUTE)
  {
    MinuteBounds(start);
    MinuteIsAligned(NextMinute(start));
    Multiples(NextMinute(start), start);
    SplitExact(start, end, minute);
    MinuteIsAligned(minute);
    Multiples(Min(end, minute + MINUTE), Max(start, minute));
  }

  /** A concrete window whose sixty seconds after the boundary are lost. */
  lemma LostMinute()
    ensures Loses(MINUTE - 1, 2 * MINUTE) && Gain(Pieces(MINUTE - 1, 2 * MINUTE), MINUTE) == 0
    ensures Overlap(MINUTE - 1, 2 * MINUTE, MINUTE, 2 * MINUTE) == MINUTE
  {
  }

  // ----- Disjoint windows -----

  datatype Span = Span(start: int, end: int)

  predicate Apart(a: Span, b: Span) {
    a.end <= b.start || b.end <= a.start || a.end <= a.start || b.end <= b.start
  }

  predicate AllApart(spans: seq<Span>) { forall i, j :: 0 <= i < j < |spans| ==> Apart(spans[i], spans[j]) }

  function TotalOverlap(spans: seq<Span>, from: int, to: int): int {
    if spans == [] then 0 else Overlap(spans[0].start, spans[0].end, from, to) + TotalOverlap(spans[1..], from, to)
  }

  function TotalGain(spans: seq<Span>, minute: int): int {
    if spans == [] then 0 else Gain(Pieces(spans[0].start, spans[0].end), minute) + TotalGain(spans[1..], minute)
  }

  /** Spans apart from `[lo, hi)` see an interval around it as the parts on either side. */
  lemma {:induction false} SplitAround(spans: seq<Span>, hole: Span, from: int, to: int)
    requires from <= hole.start < hole.end <= to && forall s :: s in spans ==> Apart(s, hole)
    ensures TotalOverlap(spans, from, to) == TotalOverlap(spans, from, hole.start) + TotalOverlap(spans, hole.end, to)
  {
    if spans != [] {
      assert Apart(spans[0], hole);
      SplitAround(spans[1..], hole, from, to);
    }
  }

  /** Disjoint spans cannot cover more of an interval than its length. */
  lemma {:induction false} DisjointSpansFit(spans: seq<Span>, from: int, to: int)
    requires AllApart(spans) && from <= to
    ensures TotalOverlap(spans, from, to) <= to - from
    decreases |spans|
  {
    if spans != [] {
      var first, rest := spans[0], spans[1..];
      var hole := Span(Max(first.start, from), Min(first.end, to));
      if hole.start < hole.end {
        forall s | s in rest ensures Apart(s, hole) {
          var i :| 0 <= i < |rest| && rest[i] == s;
          assert Apart(spans[0], spans[i + 1]);
        }
        SplitAround(rest, hole, from, to);
        DisjointSpansFit(rest, from, hole.start);
        DisjointSpansFit(rest, hole.end, to);
      } else {
        DisjointSpansFit(rest, from, to);
      }
    }
  }

  lemma GainWithinOverlap(start: int, end: int, minute: int)
    requires minute % MINUTE == 0
    ensures 0 <= Gain(Pieces(start, end), minute)
    ensures Gain(Pieces(start, end), minute) * MS <= Overlap(start, end, minute, minute + MINUTE)
  {
    if Loses(start, end) {
      MinuteBounds(start);
      assert Pieces(start, end) == [];
    } else {
      SplitExact(start, end, minute);
    }
  }

  lemma {:induction false} TotalGainWithinOverlap(spans: seq<Span>, minute: int)
    requires minute % MINUTE == 0
    ensures 0 <= TotalGain(spans, minute)
    ensures TotalGain(spans, minute) * MS <= TotalOverlap(spans, minute, minute + MINUTE)
  {
    if spans != [] {
      GainWithinOverlap(spans[0].start, spans[0].end, minute);
      TotalGainWithinOverlap(spans[1..], minute);
    }
  }

  /** However disjoint windows arrive, no minute is ever credited with more than a minute. */
  lemma MinuteNeverOverfull(spans: seq<Span>, minute: int)
    requires AllApart(spans) && minute % MINUTE == 0
    ensures 0 <= TotalGain(spans, minute) <= MINUTE_MS
  {
    TotalGainWithinOverlap(spans, minute);
    DisjointSpansFit(spans, minute, minute + MINUTE);
  }

  // ----- Rows and running summaries -----

  const MAX_INT64: int := 0x7fff_ffff_ffff_ffff

  datatype Sample = Sample(gpu: int, utilization: Option<real>, memory: Option<nat>)
  {
    predicate Valid() { utilization.Some? && 0.0 <= utilization.value <= 100.0 }
  }

  datatype Totals = Totals(
    observed: int, busy: int, integral: real, memoryIntegral: real, memoryObserved: int, peak: Option<int>,
    validSamples: nat, missingSamples: nat)

  const ZERO := Totals(0, 0, 0.0, 0.0, 0, None, 0, 0)

  function Higher(a: Option<int>, b: Option<int>): Option<int> {
    if a.None? then b else if b.None? then a else Some(Max(a.value, b.value))
  }

  /** Counters and integrals add up; of two peaks the higher remains. */
  function Add(a: Totals, b: Totals): Totals {
    Totals(a.observed + b.observed, a.busy + b.busy, a.integral + b.integral, a.memoryIntegral + b.memoryIntegral,
           a.memoryObserved + b.memoryObserved, Higher(a.peak, b.peak),
           a.validSamples + b.validSamples, a.missingSamples + b.missingSamples)
  }

  lemma AddAssociative(a: Totals, b: Totals, c: Totals)
    ensures Add(Add(a, b), c) == Add(a, Add(b, c))
  {
  }

  /** What `ms` milliseconds of a sample contribute; memory counts even when utilization is missing. */
  function Contribution(s: Sample, ms: int): Totals {
    var clamped := if s.memory.None? then 0 else Min(s.memory.value, MAX_INT64);
    var memory := if s.memory.None? then ZERO
                  else ZERO.(memoryIntegral := clamped as real * ms as real, memoryObserved := ms,
                             peak := Some(clamped));
    if s.Valid() then
      memory.(observed := ms, busy := if 5.0 <= s.utilization.value then ms else 0,
              integral := s.utilization.value * ms as real, validSamples := 1)
    else memory.(missingSamples := 1)
  }

  datatype RowKey = RowKey(gpu: int, minute: int)

  datatype Entry = Entry(key: RowKey, totals: Totals)

  function Entries(s: Sample, pieces: seq<Piece>): seq<Entry> {
    if pieces == [] then []
    else [Entry(RowKey(s.gpu, pieces[0].minute), Contribution(s, pieces[0].ms))] + Entries(s, pieces[1..])
  }

  /** The sum of the entries that `counts` selects. */
  function Sum(entries: seq<Entry>, counts: RowKey -> bool): Totals {
    if entries == [] then ZERO
    else
      var rest, last := Sum(entries[..|entries| - 1], counts), entries[|entries| - 1];
      if counts(last.key) then Add(rest, last.totals) else rest
  }

  function ForRow(key: RowKey): RowKey -> bool { (k: RowKey) => k == key }

  function ForGPU(gpu: int): RowKey -> bool { (k: RowKey) => k.gpu == gpu }

  function Lookup(rows: map<RowKey, Totals>, key: RowKey): Totals { if key in rows then rows[key] else ZERO }

  lemma SumSnoc(entries: seq<Entry>, e: Entry, counts: RowKey -> bool)
    ensures Sum(entries + [e], counts)
         == if counts(e.key) then Add(Sum(entries, counts), e.totals) else Sum(entries, counts)
  {
    assert (entries + [e])[..|entries|] == entries;
  }

  class Tables {
    var rows: map<RowKey, Totals>
    var summaries: map<int, Totals>
    ghost var log: seq<Entry>
    ghost var since: map<int, nat>
    ghost var readings: seq<Reading>

    constructor ()
      ensures Valid() && log == [] && rows == map[] && summaries == map[] && readings == [] && Complete()
    {
      rows, summaries, log, since, readings := map[], map[], [], map[], [];
    }

    /** Rows and summaries are the sums of everything ever applied to them. */
    ghost predicate Valid()
      reads this
    {
      && (forall key :: Lookup(rows, key) == Sum(log, ForRow(key)))
      && summaries.Keys == since.Keys
      && (forall gpu :: gpu in summaries ==>
            since[gpu] <= |log| && summaries[gpu] == Sum(log[since[gpu]..], ForGPU(gpu)))
    }

    /** Whatever was applied belongs to the readings, each applied in full. */
    ghost predicate Complete()
      reads this
    {
      log == LogOf(readings)
    }

    /** A summary row starts empty, once. */
    method OpenSummary(gpu: int)
      requires Valid()
      modifies this`summaries, this`since
      ensures Valid() && gpu in summaries
      ensures forall g :: g in old(since) ==> g in since && since[g] == old(since)[g]
      ensures gpu !in old(since) ==> since[gpu] == |log|
    {
      if gpu !in summaries {
        summaries := summaries[gpu := ZERO];
        since := since[gpu := |log|];
      }
    }

    /** One piece: its minute's row is inserted or increased, and the summary increased if there is one. */
    method ApplyPiece(s: Sample, minute: int, ms: int)
      requires Valid()
      modifies this`rows, this`summaries, this`log
      ensures Valid() && log == old(log) + [Entry(RowKey(s.gpu, minute), Contribution(s, ms))]
    {
      hide Contribution, Add, Sum;
      var key, c := RowKey(s.gpu, minute), Contribution(s, ms);
      ghost var e := Entry(key, c);
      forall k { SumSnoc(log, e, ForRow(k)); }
      forall gpu | gpu in summaries ensures (log + [e])[since[gpu]..] == log[since[gpu]..] + [e] {
      }
      forall gpu | gpu in summaries { SumSnoc(log[since[gpu]..], e, ForGPU(gpu)); }
      rows := rows[key := Add(Lookup(rows, key), c)];
      if s.gpu in summaries {
        summaries := summaries[s.gpu := Add(summaries[s.gpu], c)];
      }
      log := log + [e];
    }

    /** `applyGPUIntervals`, over one window of one sample. */
    method ApplyGPUIntervals(s: Sample, start: int, end: int)
      requires Valid() && Complete()
      modifies this`rows, this`summaries, this`log, this`readings
      ensures Valid() && Complete() && readings == old(readings) + [Reading(s, Span(start, end))]
      ensures log == old(log) + Entries(s, Pieces(start, end))
    {
      hide Contribution, Entries, Sum, LogOf;
      var cursor := start;
      while cursor < end
        invariant Valid() && |old(log)| <= |log| && readings == old(readings)
        invariant log + Entries(s, Pieces(cursor, end)) == old(log) + Entries(s, Pieces(start, end))
        decreases end - cursor
      {
        var minute := MinuteOf(cursor);
        var partEnd := Min(minute + MINUTE, end);
        var duration := (partEnd - cursor) / MS;
        if duration <= 0 {
          break;
        }
        ghost var before := log;
        ApplyPiece(s, minute, duration);
        StepEntries(s, cursor, end, before);
        MinuteBounds(cursor);
        cursor := partEnd;
      }
      assert Pieces(cursor, end) == [] && Entries(s, []) == [] by { NoEntries(s); }
      LogOfSnoc(readings, Reading(s, Span(start, end)));
      readings := readings + [Reading(s, Span(start, end))];
    }

    /** As long as a GPU's readings do not overlap, its rows stay within busy <= observed <= one minute. */
    lemma RowWithinTheMinute(key: RowKey)
      requires Valid() && Complete() && AllApart(ObservedSpans(readings, key.gpu)) && key.minute % MINUTE == 0
      ensures key in rows ==> 0 <= rows[key].busy <= rows[key].observed <= MINUTE_MS
    {
      hide Sum, LogOf, ObservedSpans, AllApart;
      RowsStayWithinTheMinute(readings, key);
      assert Lookup(rows, key) == Sum(log, ForRow(key));
    }

    /** A summary opened before the first entry of its GPU is the sum of all its entries. */
    lemma SummaryIsWhole(gpu: int)
      requires Valid() && gpu in summaries && forall i :: 0 <= i < since[gpu] ==> log[i].key.gpu != gpu
      ensures summaries[gpu] == Sum(log, ForGPU(gpu))
    {
      SumFrom(log, since[gpu], ForGPU(gpu));
    }
  }

  lemma NoEntries(s: Sample)
    ensures Entries(s, []) == []
  {
  }

  lemma {:induction false} LogOfSnoc(rs: seq<Reading>, r: Reading)
    ensures LogOf(rs + [r]) == LogOf(rs) + Entries(r.sample, Pieces(r.span.start, r.span.end))
  {
    hide Pieces, Entries;
    if rs == [] {
      assert rs + [r] == [r];
    } else {
      assert (rs + [r])[1..] == rs[1..] + [r];
      LogOfSnoc(rs[1..], r);
    }
  }

  /** Entries that do not count may be skipped. */
  lemma {:induction false} SumFrom(entries: seq<Entry>, n: nat, counts: RowKey -> bool)
    requires n <= |entries| && forall i :: 0 <= i < n ==> !counts(entries[i].key)
    ensures Sum(entries[n..], counts) == Sum(entries, counts)
  {
    hide Add;
    if n == |entries| {
      SumOfUncounted(entries, counts);
    } else {
      var m := |entries| - 1;
      assert entries[n..][..m - n] == entries[..m][n..];
      SumFrom(entries[..m], n, counts);
    }
  }

  lemma {:induction false} SumOfUncounted(entries: seq<Entry>, counts: RowKey -> bool)
    requires forall i :: 0 <= i < |entries| ==> !counts(entries[i].key)
    ensures Sum(entries, counts) == ZERO
  {
    hide Add;
    if entries != [] {
      SumOfUncounted(entries[..|entries| - 1], counts);
    }
  }

  lemma StepEntries(s: Sample, start: int, end: int, before: seq<Entry>)
    requires start < end && 0 < (Min(NextMinute(start), end) - start) / MS
    ensures var stop := Min(NextMinute(start), end);
            var first := Entry(RowKey(s.gpu, MinuteOf(start)), Contribution(s, (stop - start) / MS));
            before + Entries(s, Pieces(start, end)) == before + [first] + Entries(s, Pieces(stop, end))
  {
    hide Contribution;
    var stop := Min(NextMinute(start), end);
    var piece := Piece(MinuteOf(start), (stop - start) / MS);
    assert Pieces(start, end) == [piece] + Pieces(stop, end);
    assert Pieces(start, end)[1..] == Pieces(stop, end);
  }

  // ----- What the rows of many readings hold -----

  datatype Reading = Reading(sample: Sample, span: Span)

  /** Everything that applying the readings one after the other logs. */
  function LogOf(rs: seq<Reading>): seq<Entry> {
    if rs == [] then [] else Entries(rs[0].sample, Pieces(rs[0].span.start, rs[0].span.end)) + LogOf(rs[1..])
  }

  /** The windows in which the GPU was observed. */
  function ObservedSpans(rs: seq<Reading>, gpu: int): seq<Span> {
    if rs == [] then []
    else (if rs[0].sample.gpu == gpu && rs[0].sample.Valid() then [rs[0].span] else []) + ObservedSpans(rs[1..], gpu)
  }

  lemma {:induction false} SumConcat(xs: seq<Entry>, ys: seq<Entry>, counts: RowKey -> bool)
    ensures Sum(xs + ys, counts) == Add(Sum(xs, counts), Sum(ys, counts))
  {
    if ys == [] {
      assert xs + ys == xs;
    } else {
      var n := |ys| - 1;
      SumConcat(xs, ys[..n], counts);
      assert xs + ys == (xs + ys[..n]) + [ys[n]] && ys == ys[..n] + [ys[n]];
      SumSnoc(xs + ys[..n], ys[n], counts);
      SumSnoc(ys[..n], ys[n], counts);
      AddAssociative(Sum(xs, counts), Sum(ys[..n], counts), ys[n].totals);
    }
  }

  lemma {:induction false} EntriesObserve(s: Sample, pieces: seq<Piece>, key: RowKey)
    requires forall p :: p in pieces ==> 0 <= p.ms
    ensures var t := Sum(Entries(s, pieces), ForRow(key));
            && t.observed == (if s.gpu == key.gpu && s.Valid() then Gain(pieces, key.minute) else 0)
            && 0 <= t.busy <= t.observed
  {
    hide Contribution, Sum, Sample.Valid;
    if pieces == [] {
      SumNone(ForRow(key));
    } else {
      EntriesObserve(s, pieces[1..], key);
      var first := Entry(RowKey(s.gpu, pieces[0].minute), Contribution(s, pieces[0].ms));
      ContributionObserves(s, pieces[0].ms);
      SumConcat([first], Entries(s, pieces[1..]), ForRow(key));
      SumOne(first, ForRow(key));
    }
  }

  lemma SumNone(counts: RowKey -> bool)
    ensures Sum([], counts) == ZERO
  {
  }

  lemma SumOne(e: Entry, counts: RowKey -> bool)
    ensures Sum([e], counts) == if counts(e.key) then Add(ZERO, e.totals) else ZERO
  {
    assert [e][..0] == [];
  }

  lemma ContributionObserves(s: Sample, ms: int)
    requires 0 <= ms
    ensures Contribution(s, ms).observed == (if s.Valid() then ms else 0)
    ensures 0 <= Contribution(s, ms).busy <= Contribution(s, ms).observed
  {
  }

  lemma {:induction false} PiecesArePositive(start: int, end: int)
    ensures forall p :: p in Pieces(start, end) ==> 0 <= p.ms
    decreases end - start
  {
    if start < end && 0 < (Min(NextMinute(start), end) - start) / MS {
      MinuteBounds(start);
      PiecesArePositive(Min(NextMinute(start), end), end);
    }
  }

  lemma {:induction false} RowsObserve(rs: seq<Reading>, key: RowKey)
    ensures var t := Sum(LogOf(rs), ForRow(key));
            t.observed == TotalGain(ObservedSpans(rs, key.gpu), key.minute) && 0 <= t.busy <= t.observed
  {
    hide Sum, Pieces, Entries, Gain, Sample.Valid;
    if rs == [] {
      SumNone(ForRow(key));
    } else {
      var pieces := Pieces(rs[0].span.start, rs[0].span.end);
      PiecesArePositive(rs[0].span.start, rs[0].span.end);
      EntriesObserve(rs[0].sample, pieces, key);
      SumConcat(Entries(rs[0].sample, pieces), LogOf(rs[1..]), ForRow(key));
      RowsObserve(rs[1..], key);
      if rs[0].sample.gpu == key.gpu && rs[0].sample.Valid() {
        assert ObservedSpans(rs, key.gpu)[1..] == ObservedSpans(rs[1..], key.gpu);
      } else {
        assert ObservedSpans(rs, key.gpu) == ObservedSpans(rs[1..], key.gpu);
      }
    }
  }

  /** Disjoint readings keep every minute row within busy <= observed <= one minute. */
  lemma RowsStayWithinTheMinute(rs: seq<Reading>, key: RowKey)
    requires AllApart(ObservedSpans(rs, key.gpu)) && key.minute % MINUTE == 0
    ensures var t := Sum(LogOf(rs), ForRow(key)); 0 <= t.busy <= t.observed <= MINUTE_MS
  {
    RowsObserve(rs, key);
    MinuteNeverOverfull(ObservedSpans(rs, key.gpu), key.minute);
  }

  // ----- Clipping a sample to its session -----

  /** A session's bounds in milliseconds, as stored. */
  datatype Session = Session(claimedRun: bool, startsMS: int, expiresMS: int, revokedMS: Option<int>,
                             finalizedMS: Option<int>)
  {
    /** The end of the session as far as it is known; a running claim has none yet. */
    function End(): Option<int> {
      if claimedRun then finalizedMS
      else if revokedMS.Some? then Some(Min(revokedMS.value, expiresMS))
      else Some(expiresMS)
    }
  }

  function Clip(s: Session, w: Span): Span {
    Span(Max(w.start, s.startsMS * MS), if s.End().Some? then Min(w.end, s.End().value * MS) else w.end)
  }

  /** Clipping loses only what lies outside the session: on every instant the two agree. */
  lemma ClipIsIntersection(s: Session, w: Span, t: int)
    ensures Clip(s, w).start <= t < Clip(s, w).end <==>
            w.start <= t < w.end && s.startsMS * MS <= t && (s.End().Some? ==> t < s.End().value * MS)
  {
  }

  /** Disjoint sample windows stay disjoint however their sessions clip them, and aligned ones aligned. */
  lemma ClippedApart(s: Session, s': Session, a: Span, b: Span)
    requires Apart(a, b)
    ensures Apart(Clip(s, a), Clip(s', b))
    ensures a.start % MS == 0 && a.end % MS == 0 ==> Clip(s, a).start % MS == 0 && Clip(s, a).end % MS == 0
  {
  }
}
