/**
 The newest minute rollups of a session, read through per-GPU index scans: at most `limit` keys
 per GPU to find the cut, then only the rows above each GPU's floor.
 */
module Timeline {
  datatype Key = Key(minute: int, gpu: int)

  datatype Row = Row(observedMS: int, busyMS: int, integral: real)

  datatype Item = Item(key: Key, row: Row)

  predicate Less(a: Key, b: Key) { a.minute < b.minute || (a.minute == b.minute && a.gpu < b.gpu) }

  /** The `limit` largest keys: as many as there are, and none left out is larger than one kept. */
  ghost predicate Newest(kept: set<Key>, all: set<Key>, limit: nat) {
    && kept <= all && |kept| == (if |all| < limit then |all| else limit)
    && forall k, t :: k in all - kept && t in kept ==> Less(k, t)
  }

  // ----- Sorting -----

  predicate Descending(keys: seq<Key>) { forall i, j :: 0 <= i < j < |keys| ==> Less(keys[j], keys[i]) }

  function Elements(keys: seq<Key>): set<Key> { set k | k in keys }

  function InsertDescending(keys: seq<Key>, k: Key): seq<Key> {
    if keys == [] || Less(keys[0], k) then [k] + keys else [keys[0]] + InsertDescending(keys[1..], k)
  }

  lemma {:induction false} InsertKeepsDescending(keys: seq<Key>, k: Key)
    requires Descending(keys) && k !in keys
    ensures Descending(InsertDescending(keys, k)) && Elements(InsertDescending(keys, k)) == Elements(keys) + {k}
  {
    if keys != [] && !Less(keys[0], k) {
      var rest := InsertDescending(keys[1..], k);
      InsertKeepsDescending(keys[1..], k);
      assert forall x :: x in rest ==> x in Elements(rest);
      assert forall i :: 0 <= i < |rest| ==> rest[i] in Elements(keys[1..]) + {k};
    }
  }

  /** `sort.Slice` with the newest key first. */
  method SortDescending(keys: set<Key>) returns (sorted: seq<Key>)
    ensures Descending(sorted) && Elements(sorted) == keys
  {
    sorted := [];
    var rest := keys;
    while rest != {}
      invariant Descending(sorted) && rest <= keys && Elements(sorted) == keys - rest
      decreases rest
    {
      var k :| k in rest;
      assert k !in sorted;
      InsertKeepsDescending(sorted, k);
      sorted := InsertDescending(sorted, k);
      rest := rest - {k};
    }
  }

  lemma {:induction false} DescendingSize(keys: seq<Key>)
    requires Descending(keys)
    ensures |Elements(keys)| == |keys|
  {
    if keys != [] {
      var rest := keys[1..];
      DescendingSize(rest);
      assert keys[0] !in rest by {
        forall i | 0 <= i < |rest| ensures rest[i] != keys[0] {
          assert Less(keys[i + 1], keys[0]);
        }
      }
      assert Elements(keys) == {keys[0]} + Elements(rest);
    } else {
      assert Elements(keys) == {};
    }
  }

  function InsertAscending(items: seq<Item>, x: Item): seq<Item> {
    if items == [] || Less(x.key, items[0].key) then [x] + items else [items[0]] + InsertAscending(items[1..], x)
  }

  predicate AscendingItems(items: seq<Item>) {
    forall i, j :: 0 <= i < j < |items| ==> Less(items[i].key, items[j].key)
  }

  lemma {:induction false} InsertKeepsAscending(items: seq<Item>, x: Item)
    requires AscendingItems(items) && forall y :: y in items ==> y.key != x.key
    ensures AscendingItems(InsertAscending(items, x))
    ensures forall y :: y in InsertAscending(items, x) <==> y in items || y == x
  {
    if items != [] && !Less(x.key, items[0].key) {
      var rest := InsertAscending(items[1..], x);
      InsertKeepsAscending(items[1..], x);
      assert forall i :: 0 <= i < |rest| ==> rest[i] in rest;
      assert forall y :: y in items ==> y == items[0] || y in items[1..];
      assert forall i :: 1 <= i < |items| ==> Less(items[0].key, items[i].key);
    }
  }

  /** `sort.Slice` of distinct rollups, oldest first. */
  method SortAscending(items: seq<Item>) returns (sorted: seq<Item>)
    requires forall i, j :: 0 <= i < j < |items| ==> items[i].key != items[j].key
    ensures AscendingItems(sorted) && forall x :: x in sorted <==> x in items
  {
    sorted := [];
    for n := 0 to |items|
      invariant AscendingItems(sorted) && forall x :: x in sorted <==> x in items[..n]
    {
      assert items[..n + 1] == items[..n] + [items[n]];
      InsertKeepsAscending(sorted, items[n]);
      sorted := InsertAscending(sorted, items[n]);
    }
    assert items[..|items|] == items;
  }

  // ----- The cut -----

  function OnGPU(keys: set<Key>, gpu: int): set<Key> { set k | k in keys && k.gpu == gpu }

  lemma {:induction false} SubsetSize(a: set<Key>, b: set<Key>)
    requires a <= b
    ensures |a| <= |b|
    decreases |a|
  {
    if a != {} {
      var x :| x in a;
      SubsetSize(a - {x}, b - {x});
    }
  }

  /** The head of a descending list holds its newest keys. */
  lemma HeadIsNewest(sorted: seq<Key>, limit: nat)
    requires Descending(sorted)
    ensures var n := if |sorted| < limit then |sorted| else limit;
            Newest(Elements(sorted[..n]), Elements(sorted), limit)
  {
    var n := if |sorted| < limit then |sorted| else limit;
    DescendingSize(sorted);
    DescendingSize(sorted[..n]);
    assert forall i :: 0 <= i < n ==> sorted[i] == sorted[..n][i] && sorted[i] in Elements(sorted[..n]);
    forall k, t | k in Elements(sorted) - Elements(sorted[..n]) && t in Elements(sorted[..n]) ensures Less(k, t) {
      var i :| 0 <= i < |sorted| && sorted[i] == k;
      var j :| 0 <= j < n && sorted[..n][j] == t;
    }
  }

  /** The candidates hold each GPU's newest keys. */
  ghost predicate NewestOfEach(candidates: set<Key>, all: set<Key>, limit: nat) {
    candidates <= all && forall gpu: int :: Newest(OnGPU(candidates, gpu), OnGPU(all, gpu), limit)
  }

  /** A key that is no candidate lies below a full set of candidates of its GPU. */
  lemma PassedOver(candidates: set<Key>, all: set<Key>, limit: nat, k: Key)
    requires NewestOfEach(candidates, all, limit) && k in all && k !in candidates
    ensures |OnGPU(candidates, k.gpu)| == limit && forall c :: c in OnGPU(candidates, k.gpu) ==> Less(k, c)
  {
    var mine, whole := OnGPU(candidates, k.gpu), OnGPU(all, k.gpu);
    assert Newest(mine, whole, limit) && k in whole - mine;
    if |mine| != limit {
      SubsetSize(mine, whole - {k});
    }
  }

  /** The newest of the per-GPU newest are the newest of all. */
  lemma CutIsNewest(kept: set<Key>, candidates: set<Key>, all: set<Key>, limit: nat)
    requires NewestOfEach(candidates, all, limit) && Newest(kept, candidates, limit)
    ensures Newest(kept, all, limit)
  {
    forall k, t | k in all - kept && t in kept ensures Less(k, t) {
      if k !in candidates && !Less(k, t) {
        PassedOver(candidates, all, limit, k);
        RoomForFew(kept, candidates, limit, OnGPU(candidates, k.gpu), t);
      }
    }
    SubsetSize(candidates, all);
    if candidates != all {
      var k :| k in all && k !in candidates;
      PassedOver(candidates, all, limit, k);
      SubsetSize(OnGPU(candidates, k.gpu), candidates);
    }
  }

  /** A kept key cannot lie below `limit` candidates: they would leave no room for it. */
  lemma RoomForFew(kept: set<Key>, candidates: set<Key>, limit: nat, above: set<Key>, t: Key)
    requires Newest(kept, candidates, limit) && t in kept && above <= candidates && |above| == limit
    ensures exists c :: c in above && !Less(t, c)
  {
    if above <= kept && t !in above {
      SubsetSize(above + {t}, kept);
    } else if t in above {
      assert !Less(t, t);
    } else {
      var c :| c in above && c !in kept;
      assert Less(c, t);
    }
  }

  // ----- The two reads -----

  /** The index scan of one GPU: its newest keys, at most `limit` of them. */
  method NewestOnGPU(keys: set<Key>, gpu: int, limit: nat) returns (newest: seq<Key>)
    ensures Newest(Elements(newest), OnGPU(keys, gpu), limit)
  {
    var sorted := SortDescending(OnGPU(keys, gpu));
    HeadIsNewest(sorted, limit);
    newest := sorted[..if |sorted| < limit then |sorted| else limit];
  }

  /** Collects every GPU's newest keys. */
  method Candidates(keys: set<Key>, limit: nat) returns (candidates: set<Key>)
    ensures NewestOfEach(candidates, keys, limit)
  {
    candidates := {};
    var gpus := set k | k in keys :: k.gpu;
    var rest := gpus;
    while rest != {}
      invariant candidates <= keys && rest <= gpus
      invariant forall gpu: int :: gpu in rest ==> OnGPU(candidates, gpu) == {}
      invariant forall gpu: int :: gpu !in rest ==> Newest(OnGPU(candidates, gpu), OnGPU(keys, gpu), limit)
      decreases rest
    {
      var gpu :| gpu in rest;
      var newest := NewestOnGPU(keys, gpu, limit);
      ghost var before := candidates;
      candidates := candidates + Elements(newest);
      forall g: int ensures OnGPU(candidates, g) == if g == gpu then Elements(newest) else OnGPU(before, g) {
        AddedOnGPU(before, Elements(newest), keys, gpu, g);
      }
      rest := rest - {gpu};
    }
  }

  lemma AddedOnGPU(before: set<Key>, added: set<Key>, keys: set<Key>, gpu: int, g: int)
    requires added <= OnGPU(keys, gpu) && OnGPU(before, gpu) == {}
    ensures OnGPU(before + added, g) == if g == gpu then added else OnGPU(before, g)
  {
    assert forall k :: k in before && k.gpu == gpu ==> k in OnGPU(before, gpu);
  }

  /** The oldest kept minute of each GPU. */
  method Floors(kept: seq<Key>) returns (floors: map<int, int>)
    ensures forall k :: k in kept ==> k.gpu in floors && floors[k.gpu] <= k.minute
    ensures forall gpu :: gpu in floors ==> Key(floors[gpu], gpu) in kept
  {
    floors := map[];
    for i := 0 to |kept|
      invariant forall j :: 0 <= j < i ==> kept[j].gpu in floors && floors[kept[j].gpu] <= kept[j].minute
      invariant forall gpu :: gpu in floors ==> Key(floors[gpu], gpu) in kept
    {
      var k := kept[i];
      if k.gpu !in floors || k.minute < floors[k.gpu] {
        assert k == Key(k.minute, k.gpu);
        floors := floors[k.gpu := k.minute];
      }
    }
  }

  /** Reading each GPU from its floor on selects exactly the kept keys. */
  lemma FloorsSelect(kept: set<Key>, all: set<Key>, limit: nat, floors: map<int, int>, k: Key)
    requires Newest(kept, all, limit) && k in all
    requires forall t :: t in kept ==> t.gpu in floors && floors[t.gpu] <= t.minute
    requires forall gpu :: gpu in floors ==> Key(floors[gpu], gpu) in kept
    ensures k.gpu in floors && floors[k.gpu] <= k.minute <==> k in kept
  {
    if k.gpu in floors && k !in kept {
      assert Less(k, Key(floors[k.gpu], k.gpu));
    }
  }

  /** Reads the selected rows, GPU by GPU, each in index order. */
  method SelectedRows(table: map<Key, Row>, floors: map<int, int>) returns (items: seq<Item>)
    ensures forall i, j :: 0 <= i < j < |items| ==> items[i].key != items[j].key
    ensures forall x :: x in items <==>
              x.key in table && x.key.gpu in floors && floors[x.key.gpu] <= x.key.minute && x.row == table[x.key]
  {
    items := [];
    var rest := set k | k in table && k.gpu in floors && floors[k.gpu] <= k.minute;
    ghost var wanted := rest;
    while rest != {}
      invariant rest <= wanted
      invariant forall i, j :: 0 <= i < j < |items| ==> items[i].key != items[j].key
      invariant forall x :: x in items <==> x.key in wanted && x.key !in rest && x.row == table[x.key]
      decreases rest
    {
      var k :| k in rest;
      items := items + [Item(k, table[k])];
      rest := rest - {k};
    }
  }

  /**
   The `limit` newest rollups of a session in ascending order, although only `limit` keys per GPU
   were looked at.
   */
  method Read(table: map<Key, Row>, limit: nat) returns (items: seq<Item>)
    ensures AscendingItems(items)
    ensures Newest(set x | x in items :: x.key, table.Keys, limit)
    ensures forall x :: x in items ==> x.key in table && x.row == table[x.key]
  {
    var candidates := Candidates(table.Keys, limit);
    var sorted := SortDescending(candidates);
    var kept := sorted[..if |sorted| < limit then |sorted| else limit];
    HeadIsNewest(sorted, limit);
    CutIsNewest(Elements(kept), candidates, table.Keys, limit);
    var floors := Floors(kept);
    var rows := SelectedRows(table, floors);
    forall k | k in table ensures k.gpu in floors && floors[k.gpu] <= k.minute <==> k in kept {
      FloorsSelect(Elements(kept), table.Keys, limit, floors, k);
    }
    items := SortAscending(rows);
    assert (set x | x in items :: x.key) == Elements(kept) by {
      forall k | k in kept ensures k in set x | x in items :: x.key {
        assert Item(k, table[k]) in items;
      }
    }
  }
}
