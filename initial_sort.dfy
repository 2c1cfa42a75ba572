/** The initial-sort part of the configuration generators: the columns
    with an initial sort direction are collected in a TreeMap keyed by
    their sort order, and the map is read back in ascending key order as
    `[columnIndex, direction]` pairs. */
module InitialSorts {
  import opened Wrappers
  import opened StringUtils

  /** The sortInitDirection and sortInitOrder options of one column. */
  datatype SortInit = SortInit(direction: Option<string>, order: Option<int>)

  /** A TreeMap value: the column's index and its initial direction. */
  datatype Placed = Placed(index: int, direction: string)

  /** A TreeMap: its entries in ascending key order, each key once. */
  type TreeMap = seq<(int, Placed)>

  predicate Ordered(t: TreeMap) {
    forall i, j :: 0 <= i < j < |t| ==> t[i].0 < t[j].0
  }

  /** TreeMap.get: the value under `k`, null when there is none. */
  function Get(t: TreeMap, k: int): Option<Placed> {
    if t == [] then None else if t[0].0 == k then Some(t[0].1) else Get(t[1..], k)
  }

  /** TreeMap.put: the entry goes in its place by key, replacing the entry
      already under that key. */
  function Put(t: TreeMap, k: int, v: Placed): (r: TreeMap)
    requires Ordered(t)
    ensures Ordered(r) && |r| > 0
    ensures forall i :: 0 <= i < |r| ==> r[i] == (k, v) || r[i] in t
    ensures |t| > 0 && k > t[0].0 ==> r[0] == t[0]
  {
    if t == [] || k < t[0].0 then [(k, v)] + t
    else if k == t[0].0 then [(k, v)] + t[1..]
    else [t[0]] + Put(t[1..], k, v)
  }

  /** put behaves as a map update: `k` now holds `v`, every other key keeps
      its value, and the size grows by one exactly for a new key. */
  lemma {:induction false} PutIsUpdate(t: TreeMap, k: int, v: Placed)
    requires Ordered(t)
    ensures forall j :: Get(Put(t, k, v), j) == if j == k then Some(v) else Get(t, j)
    ensures |Put(t, k, v)| == if Get(t, k).None? then |t| + 1 else |t|
  {
    if t != [] && k > t[0].0 {
      PutIsUpdate(t[1..], k, v);
      var r := Put(t, k, v);
      assert r[1..] == Put(t[1..], k, v);
      forall j ensures Get(r, j) == if j == k then Some(v) else Get(t, j) {
      }
    } else if t != [] && k == t[0].0 {
      assert Get(t, k).Some?;
      GetAbsentBelow(t[1..], k);
    } else {
      GetAbsentBelow(t, k);
    }
  }

  /** Keys are ascending, so a key below the first is absent. */
  lemma {:induction false} GetAbsentBelow(t: TreeMap, k: int)
    requires Ordered(t)
    requires t == [] || k <= t[0].0
    ensures t != [] && k == t[0].0 ==> Get(t, k) == Some(t[0].1)
    ensures t == [] || k < t[0].0 ==> Get(t, k).None?
  {
    if t != [] && k < t[0].0 && |t| > 1 {
      GetAbsentBelow(t[1..], k);
    }
  }

  /** A key above every key goes last. */
  lemma {:induction false} PutAbove(t: TreeMap, k: int, v: Placed)
    requires Ordered(t)
    requires forall i :: 0 <= i < |t| ==> t[i].0 < k
    ensures Put(t, k, v) == t + [(k, v)]
  {
    if t != [] {
      PutAbove(t[1..], k, v);
      assert [t[0]] + (t[1..] + [(k, v)]) == t + [(k, v)];
    }
  }

  /** The TreeMap after the loop has seen `cols`: a column with an order
      and a direction goes under its order, a column with a direction only
      under the current number of keys, and a later column replaces an
      earlier one placed under the same key. */
  function Tree(cols: seq<SortInit>): (t: TreeMap)
    ensures Ordered(t)
    decreases |cols|
  {
    if cols == [] then []
    else
      var t, c, i := Tree(cols[..|cols| - 1]), cols[|cols| - 1], |cols| - 1;
      if c.order.Some? && NotBlank(c.direction) then Put(t, c.order.value, Placed(i, c.direction.value))
      else if NotBlank(c.direction) then Put(t, |t|, Placed(i, c.direction.value))
      else t
  }

  /** The loop over the columns, building the TreeMap. */
  method SortedColumnMap(cols: seq<SortInit>) returns (t: TreeMap)
    ensures t == Tree(cols)
  {
    t := [];
    var columnIndex := 0;
    while columnIndex < |cols|
      invariant 0 <= columnIndex <= |cols|
      invariant t == Tree(cols[..columnIndex])
    {
      var c := cols[columnIndex];
      assert cols[..columnIndex + 1][..columnIndex] == cols[..columnIndex];
      if c.order.Some? && NotBlank(c.direction) {
        t := Put(t, c.order.value, Placed(columnIndex, c.direction.value));
      } else if NotBlank(c.direction) {
        t := Put(t, |t|, Placed(columnIndex, c.direction.value));
      }
      columnIndex := columnIndex + 1;
    }
    assert cols[..columnIndex] == cols;
  }

  /** The values of a TreeMap in the order its entry set lists them. */
  function Values(t: TreeMap): (r: seq<Placed>)
    ensures |r| == |t|
  {
    seq(|t|, i requires 0 <= i < |t| => t[i].1)
  }

  /** The columns with a direction, in column order, each with its index:
      what the initial sort lists when no column has a sort order. */
  function Directed(cols: seq<SortInit>): (r: seq<Placed>)
    decreases |cols|
  {
    if cols == [] then []
    else
      var c := cols[|cols| - 1];
      Directed(cols[..|cols| - 1]) + if NotBlank(c.direction) then [Placed(|cols| - 1, c.direction.value)] else []
  }

  /** Without sort orders every column with a direction is listed, in
      column order, under the keys 0, 1, ... */
  lemma {:induction false} TreeWithoutOrders(cols: seq<SortInit>)
    requires forall i :: 0 <= i < |cols| ==> cols[i].order.None?
    ensures forall i :: 0 <= i < |Tree(cols)| ==> Tree(cols)[i].0 == i
    ensures Values(Tree(cols)) == Directed(cols)
    decreases |cols|
  {
    if cols != [] {
      var init := cols[..|cols| - 1];
      var c := cols[|cols| - 1];
      assert forall i :: 0 <= i < |init| ==> init[i] == cols[i];
      TreeWithoutOrders(init);
      var t := Tree(init);
      if NotBlank(c.direction) {
        var p := Placed(|cols| - 1, c.direction.value);
        PutAbove(t, |t|, p);
        assert Tree(cols) == t + [(|t|, p)];
        assert Values(t + [(|t|, p)]) == Values(t) + [p];
        assert Directed(cols) == Directed(init) + [p];
      } else {
        assert Tree(cols) == t;
        assert Directed(cols) == Directed(init);
      }
    }
  }

  /** The sort is empty exactly when no column has an initial direction. */
  lemma {:induction false} TreeEmptyIffNoDirection(cols: seq<SortInit>)
    ensures Tree(cols) == [] <==> forall i :: 0 <= i < |cols| ==> !NotBlank(cols[i].direction)
    decreases |cols|
  {
    if cols != [] {
      TreeEmptyIffNoDirection(cols[..|cols| - 1]);
    }
  }

  /** `p` names a column of `cols` that has the direction `p` carries. */
  predicate DirectedAt(cols: seq<SortInit>, p: Placed) {
    0 <= p.index < |cols| && NotBlank(cols[p.index].direction) && cols[p.index].direction.value == p.direction
  }

  /** Every listed pair names a column that has that initial direction. */
  lemma {:induction false} TreeEntriesDirected(cols: seq<SortInit>)
    ensures forall i :: 0 <= i < |Tree(cols)| ==> DirectedAt(cols, Tree(cols)[i].1)
    decreases |cols|
  {
    if cols != [] {
      var init := cols[..|cols| - 1];
      TreeEntriesDirected(init);
      forall i | 0 <= i < |Tree(init)|
        ensures var p := Tree(init)[i].1; 0 <= p.index < |cols| && cols[p.index] == init[p.index]
      {
      }
    }
  }

  /** Explicit orders reorder the columns: a first column sorted second
      and a second column sorted first come out second-column first. */
  lemma ExplicitOrdersReorder(d1: string, d2: string)
    requires NotBlank(Some(d1)) && NotBlank(Some(d2))
    ensures Values(Tree([SortInit(Some(d1), Some(1)), SortInit(Some(d2), Some(0))])) == [Placed(1, d2), Placed(0, d1)]
  {
    var cols := [SortInit(Some(d1), Some(1)), SortInit(Some(d2), Some(0))];
    assert cols[..1][..0] == [];
    assert Tree(cols[..1]) == [(1, Placed(0, d1))];
    assert Tree(cols) == [(0, Placed(1, d2)), (1, Placed(0, d1))];
  }

  /** A column without an order goes under the number of keys, which can be
      a key a column with an order already holds: that column's initial
      sort is lost. */
  lemma UnorderedReplacesOrdered(d1: string, d2: string)
    requires NotBlank(Some(d1)) && NotBlank(Some(d2))
    ensures Values(Tree([SortInit(Some(d1), Some(1)), SortInit(Some(d2), None)])) == [Placed(1, d2)]
  {
    var cols := [SortInit(Some(d1), Some(1)), SortInit(Some(d2), None)];
    assert cols[..1][..0] == [];
    assert Tree(cols[..1]) == [(1, Placed(0, d1))];
    assert Tree(cols) == [(1, Placed(1, d2))];
  }
}
