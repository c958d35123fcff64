/** What the derivation, `dice` and `slice` promise, proved about the cube's value. */
module CubeLemmas {
  import opened Errors
  import opened Labels
  import opened Tables
  import opened Cubes

  // ---------------------------------------------------------------------------
  // Derivation

  /** A derivation succeeds exactly when every lookup it makes succeeds and, over the
      three pairs, exactly three tables cover a pair; with the lookups succeeding, any
      other number of covering tables is reported as incomplete coverage. */
  lemma DeriveCoverage(c: Cube, a: string, b: string, e: string)
    ensures Derive(c, a, b, e).Ok? <==>
              LookupsSucceed(c.tables, Pairs(a, b, e)) && TotalHits(c.tables, Pairs(a, b, e)) == 3
    ensures Derive(c, a, b, e) == Err(IncompleteCoverage) <==>
              LookupsSucceed(c.tables, Pairs(a, b, e)) && TotalHits(c.tables, Pairs(a, b, e)) != 3
  {
    CollectOk(c.tables, Pairs(a, b, e));
    CollectErrors(c.tables, Pairs(a, b, e));
  }

  /** With no table covering `p`, nothing is collected for it. */
  lemma {:induction false} CollectPairNoCover(ts: seq<Table>, p: Pair)
    requires forall k :: 0 <= k < |ts| ==> !Covers(ts[k], p)
    ensures CollectPair(ts, p) == Ok([])
  {
    if ts != [] {
      assert forall k :: 0 <= k < |ts| - 1 ==> ts[..|ts| - 1][k] == ts[k];
      CollectPairNoCover(ts[..|ts| - 1], p);
    }
  }

  /** Table `m` is the only table of `ts` that covers `p`, and the lookup there gives `v`. */
  predicate SoleCover(ts: seq<Table>, p: Pair, m: nat, v: int)
  {
    && m < |ts|
    && (forall k :: 0 <= k < |ts| ==> (Covers(ts[k], p) <==> k == m))
    && GetValue(ts[m], p.0, p.1) == Ok(v)
  }

  /** With exactly one table covering `p`, its lookup is the one value collected. */
  lemma {:induction false} CollectPairSingleCover(ts: seq<Table>, p: Pair, m: nat, v: int)
    requires SoleCover(ts, p, m, v)
    ensures CollectPair(ts, p) == Ok([v])
  {
    var n := |ts| - 1;
    assert forall k :: 0 <= k < n ==> ts[..n][k] == ts[k];
    if m == n {
      CollectPairNoCover(ts[..n], p);
      assert CollectPair(ts, p) == Ok([] + [v]);
      assert [] + [v] == [v];
    } else {
      CollectPairSingleCover(ts[..n], p, m, v);
    }
  }

  /** Complete, non-overlapping coverage: when each of the three pairs is covered by exactly
      one table and its lookup there succeeds, the cell is the mean of the three lookups. */
  lemma DeriveSingleCovers(c: Cube, a: string, b: string, e: string, m1: nat, m2: nat, m3: nat, v1: int, v2: int, v3: int)
    requires SoleCover(c.tables, (a, b), m1, v1) && SoleCover(c.tables, (a, e), m2, v2) && SoleCover(c.tables, (b, e), m3, v3)
    ensures Derive(c, a, b, e) == Ok((v1 + v2 + v3) as real / 3.0)
  {
    CollectPairSingleCover(c.tables, (a, b), m1, v1);
    CollectPairSingleCover(c.tables, (a, e), m2, v2);
    CollectPairSingleCover(c.tables, (b, e), m3, v3);
    DeriveOfSingletons(c, a, b, e, v1, v2, v3);
  }

  /** One value collected for each of the three pairs makes the cell their mean. */
  lemma DeriveOfSingletons(c: Cube, a: string, b: string, e: string, v1: int, v2: int, v3: int)
    requires CollectPair(c.tables, (a, b)) == Ok([v1])
    requires CollectPair(c.tables, (a, e)) == Ok([v2])
    requires CollectPair(c.tables, (b, e)) == Ok([v3])
    ensures Derive(c, a, b, e) == Ok((v1 + v2 + v3) as real / 3.0)
  {
    CollectThree(c.tables, Pairs(a, b, e), [v1], [v2], [v3]);
    assert [v1] + [v2] + [v3] == [v1, v2, v3];
    DeriveOfThree(c, a, b, e, v1, v2, v3);
  }

  /** Three collected values make the cell their mean. */
  lemma DeriveOfThree(c: Cube, a: string, b: string, e: string, v1: int, v2: int, v3: int)
    requires Collect(c.tables, Pairs(a, b, e)) == Ok([v1, v2, v3])
    ensures Derive(c, a, b, e) == Ok((v1 + v2 + v3) as real / 3.0)
  {
  }

  /** Collecting three pairs gives what each pair yields, in pair order. */
  lemma CollectThree(ts: seq<Table>, ps: seq<Pair>, w1: seq<int>, w2: seq<int>, w3: seq<int>)
    requires |ps| == 3
    requires CollectPair(ts, ps[0]) == Ok(w1) && CollectPair(ts, ps[1]) == Ok(w2) && CollectPair(ts, ps[2]) == Ok(w3)
    ensures Collect(ts, ps) == Ok(w1 + w2 + w3)
  {
    assert ps[..1][..0] == [] && ps[..1][0] == ps[0];
    assert Collect(ts, ps[..1]) == Ok([] + w1);
    assert [] + w1 == w1;
    assert ps[..2][..1] == ps[..1] && ps[..2][1] == ps[1];
    assert Collect(ts, ps[..2]) == Ok(w1 + w2);
    assert ps[..2] == ps[..|ps| - 1];
  }

  // ---------------------------------------------------------------------------
  // Dice keeps the lookups of retained labels

  /** Filtering keeps membership and lookups of every label it does not drop. */
  lemma {:induction false} FilterKeepsLookup(t: Table, allowed: seq<string>, items: seq<string>, a: string, b: string)
    requires WellFormed(t) && Filter(t, allowed, items).Ok?
    requires a !in DroppedNames(allowed, items) && b !in DroppedNames(allowed, items)
    ensures ContainsOne(Filter(t, allowed, items).value, a) == ContainsOne(t, a)
    ensures ContainsOne(Filter(t, allowed, items).value, b) == ContainsOne(t, b)
    ensures GetValue(Filter(t, allowed, items).value, a, b) == GetValue(t, a, b)
    decreases |items|
  {
    if items != [] {
      assert DroppedNames(allowed, items[1..]) <= DroppedNames(allowed, items);
      if items[0] in allowed {
        FilterKeepsLookup(t, allowed, items[1..], a, b);
      } else {
        var n := items[0];
        assert n in DroppedNames(allowed, items);
        DroppedKeepsMembership(t, n, a);
        DroppedKeepsMembership(t, n, b);
        DroppedKeepsLookup(t, n, a, b);
        FilterKeepsLookup(Dropped(t, n).value, allowed, items[1..], a, b);
      }
    }
  }

  /** The labels the dice of `c` to `xs`, `ys`, `zs` removes from every table. */
  function DiceDrops(c: Cube, xs: seq<string>, ys: seq<string>, zs: seq<string>): set<string>
  {
    DroppedNames(xs, c.x) + DroppedNames(ys, c.y) + DroppedNames(zs, c.z)
  }

  /** The copy of a table in the diced cube answers like the original for every pair of
      retained labels. */
  lemma DiceTableKeepsLookup(c: Cube, t: Table, xs: seq<string>, ys: seq<string>, zs: seq<string>, a: string, b: string)
    requires WellFormed(t) && DiceTable(c, t, xs, ys, zs).Ok?
    requires a !in DiceDrops(c, xs, ys, zs) && b !in DiceDrops(c, xs, ys, zs)
    ensures Covers(DiceTable(c, t, xs, ys, zs).value, (a, b)) == Covers(t, (a, b))
    ensures GetValue(DiceTable(c, t, xs, ys, zs).value, a, b) == GetValue(t, a, b)
  {
    var t1 := Filter(t, xs, c.x).value;
    var t2 := Filter(t1, ys, c.y).value;
    FilterKeepsLookup(t, xs, c.x, a, b);
    FilterKeepsLookup(t1, ys, c.y, a, b);
    FilterKeepsLookup(t2, zs, c.z, a, b);
  }

  /** Two table sequences that agree, table by table, on covering `p` and on its lookup
      collect the same values for `p`. */
  lemma {:induction false} CollectPairAgree(ts: seq<Table>, us: seq<Table>, p: Pair)
    requires |ts| == |us|
    requires forall k :: 0 <= k < |ts| ==> Covers(us[k], p) == Covers(ts[k], p)
    requires forall k :: 0 <= k < |ts| ==> GetValue(us[k], p.0, p.1) == GetValue(ts[k], p.0, p.1)
    ensures CollectPair(us, p) == CollectPair(ts, p)
  {
    if ts != [] {
      var n := |ts| - 1;
      CollectPairAgree(ts[..n], us[..n], p);
    }
  }

  /** Collecting over several pairs agrees when collecting over each pair does. */
  lemma {:induction false} CollectAgree(ts: seq<Table>, us: seq<Table>, ps: seq<Pair>)
    requires forall i :: 0 <= i < |ps| ==> CollectPair(us, ps[i]) == CollectPair(ts, ps[i])
    ensures Collect(us, ps) == Collect(ts, ps)
  {
    if ps != [] {
      CollectAgree(ts, us, ps[..|ps| - 1]);
    }
  }

  /** Dicing keeps the derived value of every triple of retained labels. */
  lemma DiceKeepsDerive(c: Cube, xs: seq<string>, ys: seq<string>, zs: seq<string>, a: string, b: string, e: string)
    requires Consistent(c) && Diced(c, xs, ys, zs).Ok?
    requires a !in DiceDrops(c, xs, ys, zs) && b !in DiceDrops(c, xs, ys, zs) && e !in DiceDrops(c, xs, ys, zs)
    ensures Derive(Diced(c, xs, ys, zs).value, a, b, e) == Derive(c, a, b, e)
  {
    var d := Diced(c, xs, ys, zs).value;
    var ps := Pairs(a, b, e);
    forall i | 0 <= i < |ps|
      ensures CollectPair(d.tables, ps[i]) == CollectPair(c.tables, ps[i])
    {
      forall k | 0 <= k < |c.tables|
        ensures Covers(d.tables[k], ps[i]) == Covers(c.tables[k], ps[i])
        ensures GetValue(d.tables[k], ps[i].0, ps[i].1) == GetValue(c.tables[k], ps[i].0, ps[i].1)
      {
        DiceTableKeepsLookup(c, c.tables[k], xs, ys, zs, ps[i].0, ps[i].1);
      }
      CollectPairAgree(c.tables, d.tables, ps[i]);
    }
    CollectAgree(c.tables, d.tables, ps);
  }

  /** No label lies on two axes. */
  predicate AxesDisjoint(c: Cube)
  {
    Elements(c.x) !! Elements(c.y) && Elements(c.x) !! Elements(c.z) && Elements(c.y) !! Elements(c.z)
  }

  /** Dice, then cell: on a cube whose axes share no label, every cell of the diced cube
      equals the cell of the original cube at the same three labels. */
  lemma DicePreservesCell(c: Cube, xs: seq<string>, ys: seq<string>, zs: seq<string>, i: nat, j: nat, k: nat)
    requires Consistent(c) && AxesDisjoint(c) && Diced(c, xs, ys, zs).Ok?
    requires i < |xs| && j < |ys| && k < |zs|
    ensures xs[i] in c.x && ys[j] in c.y && zs[k] in c.z
    ensures CellAt(Diced(c, xs, ys, zs).value, i, j, k)
            == CellAt(c, IndexOf(c.x, xs[i]), IndexOf(c.y, ys[j]), IndexOf(c.z, zs[k]))
  {
    assert xs[i] in Elements(xs) && ys[j] in Elements(ys) && zs[k] in Elements(zs);
    assert xs[i] !in Elements(c.y) && xs[i] !in Elements(c.z);
    assert ys[j] !in Elements(c.x) && ys[j] !in Elements(c.z);
    assert zs[k] !in Elements(c.x) && zs[k] !in Elements(c.y);
    DiceKeepsDerive(c, xs, ys, zs, xs[i], ys[j], zs[k]);
  }

  // ---------------------------------------------------------------------------
  // When dice succeeds

  /** On a clean table a filter drops exactly the names it does not allow. */
  lemma {:induction false} FilterElements(t: Table, allowed: seq<string>, items: seq<string>)
    requires Clean(t)
    ensures Filter(t, allowed, items).Ok? && Clean(Filter(t, allowed, items).value)
    ensures Elements(Filter(t, allowed, items).value.rows) == Elements(t.rows) - DroppedNames(allowed, items)
    ensures Elements(Filter(t, allowed, items).value.cols) == Elements(t.cols) - DroppedNames(allowed, items)
    decreases |items|
  {
    if items == [] {
      assert DroppedNames(allowed, items) == {};
    } else {
      var rest := DroppedNames(allowed, items[1..]);
      if items[0] in allowed {
        assert DroppedNames(allowed, items) == rest;
        FilterElements(t, allowed, items[1..]);
      } else {
        assert DroppedNames(allowed, items) == rest + {items[0]};
        DroppedElements(t, items[0]);
        FilterElements(Dropped(t, items[0]).value, allowed, items[1..]);
      }
    }
  }

  /** On a clean table the dice copy keeps exactly the labels that are not dropped. */
  lemma DiceTableElements(c: Cube, t: Table, xs: seq<string>, ys: seq<string>, zs: seq<string>)
    requires Clean(t)
    ensures DiceTable(c, t, xs, ys, zs).Ok?
    ensures Elements(DiceTable(c, t, xs, ys, zs).value.rows) == Elements(t.rows) - DiceDrops(c, xs, ys, zs)
    ensures Elements(DiceTable(c, t, xs, ys, zs).value.cols) == Elements(t.cols) - DiceDrops(c, xs, ys, zs)
  {
    FilterElements(t, xs, c.x);
    var t1 := Filter(t, xs, c.x).value;
    FilterElements(t1, ys, c.y);
    var t2 := Filter(t1, ys, c.y).value;
    FilterElements(t2, zs, c.z);
  }

  /** With disjoint axes and subsets requested, removing the dropped labels turns the label
      set of an axis into the requested set for that axis. */
  lemma AxisAfterDice(c: Cube, xs: seq<string>, ys: seq<string>, zs: seq<string>, s: set<string>)
    requires AxesDisjoint(c)
    requires Elements(xs) <= Elements(c.x) && Elements(ys) <= Elements(c.y) && Elements(zs) <= Elements(c.z)
    requires s in {Elements(c.x), Elements(c.y), Elements(c.z)}
    ensures s - DiceDrops(c, xs, ys, zs) in {Elements(xs), Elements(ys), Elements(zs)}
  {
    var dx, dy, dz := DroppedNames(xs, c.x), DroppedNames(ys, c.y), DroppedNames(zs, c.z);
    assert dx == Elements(c.x) - Elements(xs);
    assert dy == Elements(c.y) - Elements(ys);
    assert dz == Elements(c.z) - Elements(zs);
    if s == Elements(c.x) {
      assert s - DiceDrops(c, xs, ys, zs) == Elements(xs);
    } else if s == Elements(c.y) {
      assert s - DiceDrops(c, xs, ys, zs) == Elements(ys);
    } else {
      assert s - DiceDrops(c, xs, ys, zs) == Elements(zs);
    }
  }

  /** Every clean, accepted table survives the dice and is accepted on the new axes. */
  lemma {:induction false} DicedTablesOk(c: Cube, xs: seq<string>, ys: seq<string>, zs: seq<string>, n: nat)
    requires Consistent(c) && AxesDisjoint(c) && n <= |c.tables|
    requires forall k :: 0 <= k < |c.tables| ==> Clean(c.tables[k])
    requires Elements(xs) <= Elements(c.x) && Elements(ys) <= Elements(c.y) && Elements(zs) <= Elements(c.z)
    ensures DicedTables(c, xs, ys, zs, n).Ok?
  {
    if n > 0 {
      DicedTablesOk(c, xs, ys, zs, n - 1);
      var t := c.tables[n - 1];
      DiceTableElements(c, t, xs, ys, zs);
      AxisAfterDice(c, xs, ys, zs, Elements(t.rows));
      AxisAfterDice(c, xs, ys, zs, Elements(t.cols));
    }
  }

  /** On a cube whose axes share no label and whose tables are clean, dice fails exactly
      when a requested list is not a subset of its axis. */
  lemma DiceSucceeds(c: Cube, xs: seq<string>, ys: seq<string>, zs: seq<string>)
    requires Consistent(c) && AxesDisjoint(c)
    requires forall k :: 0 <= k < |c.tables| ==> Clean(c.tables[k])
    ensures Diced(c, xs, ys, zs).Ok? <==>
              Elements(xs) <= Elements(c.x) && Elements(ys) <= Elements(c.y) && Elements(zs) <= Elements(c.z)
  {
    if Elements(xs) <= Elements(c.x) && Elements(ys) <= Elements(c.y) && Elements(zs) <= Elements(c.z) {
      DicedTablesOk(c, xs, ys, zs, |c.tables|);
    }
  }

  // ---------------------------------------------------------------------------
  // Slice

  /** Slicing by a label is slicing by that label's first position; a label not on the
      axis is reported as unknown. */
  lemma SliceByLabel(c: Cube, axis: Axis, name: string)
    requires Consistent(c)
    ensures name in AxisLabels(c, axis) ==>
              Sliced(c, axis, Label(name)) == Sliced(c, axis, Index(IndexOf(AxisLabels(c, axis), name)))
    ensures name !in AxisLabels(c, axis) ==> Sliced(c, axis, Label(name)) == Err(UnknownLabel)
  {
  }

  /** On a cube whose axes share no label and whose tables are clean, every slice at a
      label or position on the axis succeeds. */
  lemma SliceSucceeds(c: Cube, axis: Axis, line: Line)
    requires Consistent(c) && AxesDisjoint(c)
    requires forall k :: 0 <= k < |c.tables| ==> Clean(c.tables[k])
    ensures Sliced(c, axis, line).Ok? <==> LineIndex(AxisLabels(c, axis), line).Ok?
  {
    var r := LineIndex(AxisLabels(c, axis), line);
    if r.Ok? {
      var i := r.value;
      match axis {
        case X => assert Elements([c.x[i]]) <= Elements(c.x); DiceSucceeds(c, [c.x[i]], c.y, c.z);
        case Y => assert Elements([c.y[i]]) <= Elements(c.y); DiceSucceeds(c, c.x, [c.y[i]], c.z);
        case Z => assert Elements([c.z[i]]) <= Elements(c.z); DiceSucceeds(c, c.x, c.y, [c.z[i]]);
      }
    }
  }
}
