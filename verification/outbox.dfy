/**
 The node's telemetry outbox: a segmented log with front pruning and cursor paging.
 */
module Telemetry {
  import opened Model

  const DEFAULT_PAGE_LIMIT := 128
  const MAX_PAGE_LIMIT := 256
  const MAX_PAGE_BYTES := 1_048_576
  const MAX_SEGMENT_BYTES := 8_388_608
  const MAX_OUTBOX_BYTES := 268_435_456
  const MAX_RETENTION: int := 24 * 3600 * 1_000_000_000
  const PAGE_OVERHEAD := 512
  const EVENT_OVERHEAD := 160

  datatype Draft = Draft(kind: string, payload: string, at: Time)

  datatype Event = Event(number: nat, at: Time, kind: string, payload: string)
  {
    function Weight(): nat { |payload| + |kind| + EVENT_OVERHEAD }
  }

  /** A file of consecutive events; `last == 0` while nothing has been written to it. */
  datatype Segment = Segment(first: nat, last: nat, size: nat, created: Time, lastAt: Time)

  datatype Cursor = Cursor(stream: string, number: nat)

  datatype Query = FromStart | From(cursor: Cursor) | Garbled

  datatype Reply =
    | PageReply(stream: string, events: seq<Event>, next: Cursor, hasMore: bool, earliest: nat, latest: nat)
    | GapReply(reset: bool, stream: string, resume: Cursor, earliest: nat, latest: nat)
    | InvalidReply

  // ----- What a query is answered from -----

  /** The retained sequence numbers `first .. next - 1` of one stream. */
  datatype Window = Window(stream: string, first: nat, next: nat)
  {
    predicate Valid() { 1 <= first <= next }
    predicate Empty() { first == next }
    function Earliest(): nat { if Empty() then 0 else first }
    function Latest(): nat
      requires Valid()
    {
      if Empty() then 0 else next - 1
    }
    function Resume(): nat
      requires Valid()
    {
      if Empty() then 0 else first - 1
    }
  }

  /** How many retained events lie at or before `position`. */
  function Skipped(w: Window, position: nat): nat
    requires w.Valid()
  {
    if position < w.first then 0 else if w.next <= position then w.next - w.first else position + 1 - w.first
  }

  datatype Judgement = Serve(position: nat) | Tell(reset: bool) | Reject

  function Judge(w: Window, q: Query): Judgement
    requires w.Valid()
  {
    match q
    case Garbled => Reject
    case FromStart => Serve(w.Resume())
    case From(c) =>
      if c.stream != w.stream then Tell(true)
      else if !w.Empty() && w.Latest() < c.number then Reject
      else if !w.Empty() && c.number + 1 < w.first then Tell(false)
      else Serve(c.number)
  }

  // ----- Segments -----

  /** The sequence number after the last one in the segments, which start at `lo`. */
  function ChainEnd(segments: seq<Segment>, lo: nat): nat {
    if segments == [] then lo
    else
      var last := segments[|segments| - 1];
      if last.last == 0 then ChainEnd(segments[..|segments| - 1], lo) else last.last + 1
  }

  /** Written segments hold consecutive ranges without a hole. */
  predicate Linked(segments: seq<Segment>, lo: nat) {
    segments == [] ||
    var front, last := segments[..|segments| - 1], segments[|segments| - 1];
    Linked(front, lo) && (last.last == 0 || ChainEnd(front, lo) == last.first <= last.last)
  }

  function TotalSize(segments: seq<Segment>): nat {
    if segments == [] then 0 else TotalSize(segments[..|segments| - 1]) + segments[|segments| - 1].size
  }

  /** Where the chain starts once its first segment is gone. */
  function AfterFirst(segments: seq<Segment>, lo: nat): nat
    requires segments != []
  {
    if segments[0].last == 0 then lo else segments[0].last + 1
  }

  lemma {:induction false} ChainGrows(segments: seq<Segment>, lo: nat)
    requires Linked(segments, lo)
    ensures lo <= ChainEnd(segments, lo)
  {
    if segments != [] {
      ChainGrows(segments[..|segments| - 1], lo);
    }
  }

  lemma {:induction false} DropFirst(segments: seq<Segment>, lo: nat)
    requires segments != [] && Linked(segments, lo)
    ensures var rest, lo' := segments[1..], AfterFirst(segments, lo);
            Linked(rest, lo') && ChainEnd(rest, lo') == ChainEnd(segments, lo) && lo <= lo'
    ensures TotalSize(segments) == segments[0].size + TotalSize(segments[1..])
  {
    var n := |segments| - 1;
    if n == 0 {
      assert segments[..n] == [];
    } else {
      DropFirst(segments[..n], lo);
      assert segments[..n][1..] == segments[1..][..n - 1];
      assert segments[1..][n - 1] == segments[n];
    }
  }

  function Stamped(batch: seq<Draft>, base: nat): seq<Event> {
    if batch == [] then []
    else
      var n := |batch| - 1;
      Stamped(batch[..n], base) + [Event(base + n, batch[n].at, batch[n].kind, batch[n].payload)]
  }

  function PageLimit(requested: int): nat {
    if requested <= 0 then DEFAULT_PAGE_LIMIT else if MAX_PAGE_LIMIT < requested then MAX_PAGE_LIMIT else requested
  }

  function Used(events: seq<Event>): nat {
    if events == [] then PAGE_OVERHEAD else Used(events[..|events| - 1]) + events[|events| - 1].Weight()
  }

  predicate Fits(events: seq<Event>, limit: nat) {
    |events| <= limit && (events != [] ==> Used(events) <= MAX_PAGE_BYTES)
  }

  /** How each append of a batch fares. */
  datatype Faults = Faults(
    encodes: bool, lineSize: nat -> nat, lineEncodes: nat -> bool, syncs: nat -> bool, rotates: nat -> bool,
    writes: nat -> bool, aged: nat -> bool, created: nat -> Time, finalSync: bool)

  class Outbox {
    const stream: string
    var nextSeq: nat
    var events: seq<Event>
    var segments: seq<Segment>
    var totalBytes: nat
    var fileOpen: bool

    constructor (stream: string)
      ensures Valid() && this.stream == stream && events == [] && nextSeq == 1
    {
      this.stream := stream;
      nextSeq, events, segments, totalBytes, fileOpen := 1, [], [], 0, false;
    }

    ghost predicate Valid()
      reads this
    {
      && |events| < nextSeq
      && (forall i :: 0 <= i < |events| ==> events[i].number == nextSeq - |events| + i)
      && Linked(segments, nextSeq - |events|) && ChainEnd(segments, nextSeq - |events|) == nextSeq
      && totalBytes == TotalSize(segments)
      && (segments != [] && segments[|segments| - 1].last == 0 ==> segments[|segments| - 1].first == nextSeq)
    }

    function Retained(): Window
      reads this
      requires |events| < nextSeq
    {
      Window(stream, nextSeq - |events|, nextSeq)
    }

    /** `sort.Search`: the first retained event after `position`. */
    method Search(position: nat) returns (index: nat)
      requires Valid()
      ensures index <= |events|
      ensures forall i :: 0 <= i < index ==> events[i].number <= position
      ensures forall i :: index <= i < |events| ==> position < events[i].number
      ensures index == Skipped(Retained(), position)
    {
      var lo, hi := 0, |events|;
      while lo < hi
        invariant lo <= hi <= |events|
        invariant forall i :: 0 <= i < lo ==> events[i].number <= position
        invariant forall i :: hi <= i < |events| ==> position < events[i].number
      {
        var mid := (lo + hi) / 2;
        if position < events[mid].number {
          hi := mid;
        } else {
          lo := mid + 1;
        }
      }
      index := lo;
      assert 0 < index ==> events[index - 1].number <= position;
      assert index < |events| ==> position < events[index].number;
    }

    /** Drops whole segments, and exactly their events, from the front. */
    method Prune(now: Time)
      requires Valid()
      modifies this`events, this`segments, this`totalBytes
      ensures Valid() && |events| <= |old(events)| && events == old(events)[|old(events)| - |events|..]
      ensures |segments| <= 1 || (totalBytes <= MAX_OUTBOX_BYTES && now - MAX_RETENTION <= LastTime(segments[0]))
    {
      hide Linked, ChainEnd, TotalSize;
      while |segments| > 1
        invariant Valid() && |events| <= |old(events)| && events == old(events)[|old(events)| - |events|..]
        decreases |segments|
      {
        if totalBytes <= MAX_OUTBOX_BYTES && !(LastTime(segments[0]) < now - MAX_RETENTION) {
          break;
        }
        DropSegment();
      }
    }

    method DropSegment()
      requires Valid() && 1 < |segments|
      modifies this`events, this`segments, this`totalBytes
      ensures Valid() && segments == old(segments)[1..]
      ensures |events| <= |old(events)| && events == old(events)[|old(events)| - |events|..]
    {
      var seg := segments[0];
      ghost var lo := nextSeq - |events|;
      DropFirst(segments, lo);
      ChainGrows(segments[1..], AfterFirst(segments, lo));
      var cut := Search(seg.last);
      assert lo + cut == AfterFirst(segments, lo);
      totalBytes := totalBytes - seg.size;
      segments := segments[1..];
      events := events[cut..];
    }

    /** Starts a new segment file. */
    method Rotate(created: Time)
      requires Valid()
      modifies this`segments, this`fileOpen
      ensures Valid() && fileOpen && segments == old(segments) + [Segment(nextSeq, 0, 0, created, 0)]
    {
      segments := segments + [Segment(nextSeq, 0, 0, created, 0)];
      fileOpen := true;
      assert segments[..|segments| - 1] == old(segments);
    }

    /** One event that reached its segment file. */
    method Write(draft: Draft, size: nat) returns (event: Event)
      requires Valid() && segments != []
      modifies this`segments, this`totalBytes, this`events, this`nextSeq
      ensures Valid() && nextSeq == old(nextSeq) + 1 && segments != []
      ensures event == Event(old(nextSeq), draft.at, draft.kind, draft.payload) && events == old(events) + [event]
    {
      event := Event(nextSeq, draft.at, draft.kind, draft.payload);
      var n := |segments| - 1;
      var seg := segments[n];
      segments := segments[n := seg.(last := nextSeq, size := seg.size + size, lastAt := draft.at)];
      assert segments[..n] == old(segments)[..n];
      totalBytes := totalBytes + size;
      events := events + [event];
      nextSeq := nextSeq + 1;
    }

    /** The last segment cannot take the line. */
    predicate NeedsRotation(size: nat, aged: bool)
      reads this
    {
      !fileOpen || segments == [] || MAX_SEGMENT_BYTES < segments[|segments| - 1].size + size || aged
    }

    /** One draft: encoded, written to a segment with room for it, and only then numbered. */
    method AppendOne(draft: Draft, i: nat, f: Faults) returns (written: bool, event: Event)
      requires Valid()
      modifies this
      ensures Valid()
      ensures written ==> nextSeq == old(nextSeq) + 1 && events == old(events) + [event]
                          && event == Event(old(nextSeq), draft.at, draft.kind, draft.payload)
      ensures !written ==> nextSeq == old(nextSeq) && events == old(events)
    {
      hide Linked, ChainEnd, TotalSize;
      written, event := false, Event(nextSeq, draft.at, draft.kind, draft.payload);
      if !f.lineEncodes(i) {
        return;
      }
      if NeedsRotation(f.lineSize(i), f.aged(i)) {
        if !f.syncs(i) || !f.rotates(i) {
          return;
        }
        Rotate(f.created(i));
      }
      if !f.writes(i) {
        return;
      }
      event := Write(draft, f.lineSize(i));
      written := true;
    }

    /**
     Appends drafts until one fails.  Whatever reached a file keeps its sequence number; nothing is
     pruned after a failure, and only a front part of the log otherwise.
     */
    method AppendBatch(batch: seq<Draft>, f: Faults, now: Time) returns (appended: seq<Event>, failed: bool)
      requires Valid()
      modifies this
      ensures Valid()
      ensures |appended| <= |batch| && appended == Stamped(batch[..|appended|], old(nextSeq))
      ensures nextSeq == old(nextSeq) + |appended| && (!failed ==> |appended| == |batch|)
      ensures var all := old(events) + appended;
              |events| <= |all| && events == all[|all| - |events|..] && (failed ==> events == all)
    {
      hide Linked, ChainEnd, TotalSize;
      appended, failed := [], false;
      if batch == [] {
        return;
      }
      if !f.encodes {
        return [], true;
      }
      for i := 0 to |batch|
        invariant Valid() && |appended| == i && appended == Stamped(batch[..i], old(nextSeq))
        invariant nextSeq == old(nextSeq) + i && events == old(events) + appended
      {
        assert batch[..i + 1][..i] == batch[..i];
        var written, event := AppendOne(batch[i], i, f);
        if !written {
          return appended, true;
        }
        appended := appended + [event];
      }
      if !f.finalSync {
        return appended, true;
      }
      Prune(now);
    }

    /** The page that answers a query, or the gap the reader has to be told about. */
    method Page(q: Query, requested: int) returns (reply: Reply)
      requires Valid()
      ensures match Judge(Retained(), q)
              case Reject => reply == InvalidReply
              case Tell(reset) =>
                reply == GapReply(reset, stream, Cursor(stream, Retained().Resume()),
                                  Retained().Earliest(), Retained().Latest())
              case Serve(position) => reply.PageReply? && Answers(reply, position, PageLimit(requested))
    {
      hide Linked, ChainEnd, TotalSize, Answers;
      var limit := PageLimit(requested);
      var w := Retained();
      var position := w.Resume();
      if q.Garbled? {
        return InvalidReply;
      }
      if q.From? {
        if q.cursor.stream != stream {
          return GapReply(true, stream, Cursor(stream, w.Resume()), w.Earliest(), w.Latest());
        }
        position := q.cursor.number;
        if 0 < w.Latest() && w.Latest() < position {
          return InvalidReply;
        }
        if 0 < w.Earliest() && position + 1 < w.Earliest() {
          return GapReply(false, stream, Cursor(stream, w.Resume()), w.Earliest(), w.Latest());
        }
      }
      reply := PageFrom(position, limit);
    }

    method PageFrom(position: nat, limit: nat) returns (reply: Reply)
      requires Valid()
      ensures reply.PageReply? && Answers(reply, position, limit)
    {
      hide Linked, ChainEnd, TotalSize, Fits;
      var w := Retained();
      var start := Search(position);
      var n := Fit(start, limit);
      reply := PageReply(stream, events[start..start + n], Cursor(stream, position + n), position + n < w.Latest(),
                         w.Earliest(), w.Latest());
    }

    /** As many events from `start` on as the limit and the byte budget allow. */
    method Fit(start: nat, limit: nat) returns (n: nat)
      requires start <= |events|
      ensures start + n <= |events| && Fits(events[start..start + n], limit)
      ensures start + n < |events| ==> !Fits(events[start..start + n + 1], limit)
    {
      n := 0;
      var used := PAGE_OVERHEAD;
      while start + n < |events|
        invariant start + n <= |events| && used == Used(events[start..start + n])
        invariant Fits(events[start..start + n], limit)
      {
        var size := events[start + n].Weight();
        assert events[start..start + n + 1][..n] == events[start..start + n];
        if n >= limit || used + size > MAX_PAGE_BYTES {
          return;
        }
        used := used + size;
        n := n + 1;
      }
    }

    /** The page holds the events right after `position`, as many as fit, and a cursor behind them. */
    ghost predicate Answers(reply: Reply, position: nat, limit: nat)
      reads this
      requires |events| < nextSeq && reply.PageReply?
    {
      var start := Skipped(Retained(), position);
      var n := |reply.events|;
      && start + n <= |events| && reply.events == events[start..start + n] && Fits(reply.events, limit)
      && (start + n < |events| ==> !Fits(events[start..start + n + 1], limit))
      && reply.next == Cursor(stream, position + n) && reply.stream == stream
      && reply.hasMore == (position + n < Retained().Latest())
      && reply.earliest == Retained().Earliest() && reply.latest == Retained().Latest()
    }
  }

  /** When the segment's last event happened; an empty one counts from its creation. */
  function LastTime(s: Segment): Time { if IsSet(s.lastAt) then s.lastAt else s.created }

  /** A page makes progress exactly when there is a next event and it fits the byte budget on its own. */
  lemma PageProgress(box: Outbox, reply: Reply, position: nat, limit: nat)
    requires box.Valid() && reply.PageReply? && 1 <= limit && box.Answers(reply, position, limit)
    ensures var start := Skipped(box.Retained(), position);
            reply.events != [] <==> start < |box.events| && PAGE_OVERHEAD + box.events[start].Weight() <= MAX_PAGE_BYTES
  {
    hide Linked, ChainEnd, TotalSize;
    var start := Skipped(box.Retained(), position);
    if start < |box.events| {
      var one := box.events[start..start + 1];
      assert one[..0] == [] && Used(one) == PAGE_OVERHEAD + box.events[start].Weight();
      if reply.events != [] {
        UsedGrows(reply.events);
        assert reply.events[..1] == one;
      }
    }
  }

  lemma {:induction false} UsedGrows(events: seq<Event>)
    requires events != []
    ensures Used(events[..1]) <= Used(events)
  {
    if |events| == 1 {
      assert events[..1] == events;
    } else {
      UsedGrows(events[..|events| - 1]);
      assert events[..|events| - 1][..1] == events[..1];
    }
  }
}
