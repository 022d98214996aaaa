/**
 Go slices: a length over an array that other slices may share.  Appending writes into spare
 capacity, and filtering into `x[:0]` overwrites the same array.
 */
module Slices {
  import opened Sequences

  datatype Slice<T> = Slice(rows: array<T>, len: nat)
  {
    predicate Valid() { len <= rows.Length }

    function Contents(): seq<T>
      requires Valid()
      reads rows
    {
      rows[..len]
    }
  }

  method Empty<T(0)>() returns (s: Slice<T>)
    ensures fresh(s.rows) && s.Valid() && s.Contents() == []
  {
    var rows := new T[0];
    s := Slice(rows, 0);
  }

  /** `append([]T(nil), s...)`: the same elements in an array of their own. */
  method Clone<T(0)>(s: Slice<T>) returns (c: Slice<T>)
    requires s.Valid()
    ensures fresh(c.rows) && c.Valid() && c.Contents() == s.Contents()
  {
    var rows := new T[s.len];
    for i := 0 to s.len
      invariant forall j :: 0 <= j < i ==> rows[j] == s.rows[j]
    {
      rows[i] := s.rows[i];
    }
    c := Slice(rows, s.len);
  }

  /** A slice built from scratch. */
  method Make<T(0)>(xs: seq<T>) returns (s: Slice<T>)
    ensures fresh(s.rows) && s.Valid() && s.Contents() == xs
  {
    var rows := new T[|xs|](i requires 0 <= i < |xs| => xs[i]);
    s := Slice(rows, |xs|);
    assert rows[..] == xs;
  }

  /** `append(s, x)`: in place when there is spare capacity. */
  method Append<T(0)>(s: Slice<T>, x: T) returns (r: Slice<T>)
    requires s.Valid()
    modifies s.rows
    ensures r.Valid() && (r.rows == s.rows || fresh(r.rows)) && r.Contents() == old(s.Contents()) + [x]
  {
    if s.len < s.rows.Length {
      s.rows[s.len] := x;
      return Slice(s.rows, s.len + 1);
    }
    var rows := new T[2 * s.len + 1];
    for i := 0 to s.len
      invariant s.rows[..] == old(s.rows[..])
      invariant forall j :: 0 <= j < i ==> rows[j] == s.rows[j]
    {
      rows[i] := s.rows[i];
    }
    rows[s.len] := x;
    r := Slice(rows, s.len + 1);
  }

  method AppendAll<T(0)>(s: Slice<T>, xs: seq<T>) returns (r: Slice<T>)
    requires s.Valid()
    modifies s.rows
    ensures r.Valid() && (r.rows == s.rows || fresh(r.rows)) && r.Contents() == old(s.Contents()) + xs
  {
    r := s;
    for i := 0 to |xs|
      invariant r.Valid() && (r.rows == s.rows || fresh(r.rows)) && r.Contents() == old(s.Contents()) + xs[..i]
    {
      r := Append(r, xs[i]);
      assert xs[..i + 1] == xs[..i] + [xs[i]];
    }
    assert xs[..|xs|] == xs;
  }

  /** The `filtered := s[:0]` loop: kept elements move forward inside the array they came from. */
  method FilterInPlace<T(!new)>(s: Slice<T>, keep: T -> bool) returns (r: Slice<T>)
    requires s.Valid()
    modifies s.rows
    ensures r.Valid() && r.rows == s.rows && r.Contents() == Filter(keep, old(s.Contents()))
  {
    hide Filter;
    var n := 0;
    ghost var xs := s.Contents();
    ghost var kept: seq<T> := [];
    FilterNone(keep, []);
    for i := 0 to s.len
      invariant n <= i && |kept| == n && kept == Filter(keep, xs[..i])
      invariant forall j :: 0 <= j < n ==> s.rows[j] == kept[j]
      invariant forall j :: i <= j < s.len ==> s.rows[j] == xs[j]
    {
      var x := s.rows[i];
      assert xs[..i + 1] == xs[..i] + [x];
      FilterSnoc(keep, xs[..i], x);
      if keep(x) {
        s.rows[n] := x;
        n := n + 1;
        kept := kept + [x];
      }
    }
    assert xs[..s.len] == xs;
    r := Slice(s.rows, n);
  }

  /** The `for i := range s` loop that rewrites elements through their index. */
  method UpdateInPlace<T>(s: Slice<T>, f: T -> T)
    requires s.Valid()
    modifies s.rows
    ensures s.Contents() == Map(f, old(s.Contents()))
  {
    for i := 0 to s.len
      invariant forall j :: 0 <= j < i ==> s.rows[j] == f(old(s.rows[j]))
      invariant forall j :: i <= j < s.rows.Length ==> s.rows[j] == old(s.rows[j])
    {
      s.rows[i] := f(s.rows[i]);
    }
  }

  method SetInPlace<T>(s: Slice<T>, i: nat, x: T)
    requires s.Valid() && i < s.len
    modifies s.rows
    ensures s.Contents() == old(s.Contents())[i := x]
  {
    s.rows[i] := x;
  }
}
