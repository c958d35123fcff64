/** The three-axis data cube (`DataCube`): its value, the derivation of a cell from the
    pairwise tables, the projections `dice` and `slice`, and the mutable class. */
module Cubes {
  import opened Errors
  import opened Labels
  import opened Tables

  /** The axes of the cube (the `Axis` enumeration). */
  datatype Axis = X | Y | Z

  /** What `slice` pins an axis to: a position on it or one of its labels. */
  datatype Line = Index(i: int) | Label(name: string)

  /** The state of a cube: three axis label sequences and the tables added so far. */
  datatype Cube = Cube(x: seq<string>, y: seq<string>, z: seq<string>, tables: seq<Table>)

  type Pair = (string, string)

  function AxisLabels(c: Cube, axis: Axis): seq<string>
  {
    match axis
    case X => c.x
    case Y => c.y
    case Z => c.z
  }

  /** As a set, `names` is the label set of one of the three axes. */
  predicate NamesAnAxis(x: seq<string>, y: seq<string>, z: seq<string>, names: seq<string>)
  {
    Elements(names) in {Elements(x), Elements(y), Elements(z)}
  }

  /** The checks of `add_data`: the row names first, then the column names. */
  function AxisCheck(x: seq<string>, y: seq<string>, z: seq<string>, t: Table): (o: Outcome)
    ensures o.Pass? <==> NamesAnAxis(x, y, z, t.rows) && NamesAnAxis(x, y, z, t.cols)
    ensures o == Fail(RowsMatchNoAxis) <==> !NamesAnAxis(x, y, z, t.rows)
  {
    if !NamesAnAxis(x, y, z, t.rows) then Fail(RowsMatchNoAxis)
    else if !NamesAnAxis(x, y, z, t.cols) then Fail(ColumnsMatchNoAxis)
    else Pass
  }

  /** Every table of the cube is well formed and passed the checks of `add_data`. */
  predicate Consistent(c: Cube)
  {
    forall i :: 0 <= i < |c.tables| ==> WellFormed(c.tables[i]) && AxisCheck(c.x, c.y, c.z, c.tables[i]).Pass?
  }

  // ---------------------------------------------------------------------------
  // Cell derivation

  /** `itertools.combinations([a, b, e], 2)`. */
  function Pairs(a: string, b: string, e: string): seq<Pair>
  {
    [(a, b), (a, e), (b, e)]
  }

  /** `pair in table`: the table holds both labels of the pair. */
  predicate Covers(t: Table, p: Pair)
    ensures Covers(t, p) <==> ContainsOne(t, p.0) && ContainsOne(t, p.1)
  {
    assert [p.0, p.1][0] == p.0 && [p.0, p.1][1] == p.1;
    ContainsAll(t, [p.0, p.1])
  }

  /** The number of tables that cover `p`. */
  function Hits(ts: seq<Table>, p: Pair): nat
  {
    if ts == [] then 0
    else Hits(ts[..|ts| - 1], p) + (if Covers(ts[|ts| - 1], p) then 1 else 0)
  }

  /** The number of covering tables summed over all pairs. */
  function TotalHits(ts: seq<Table>, ps: seq<Pair>): nat
  {
    if ps == [] then 0 else TotalHits(ts, ps[..|ps| - 1]) + Hits(ts, ps[|ps| - 1])
  }

  /** The lookup of `p` succeeds in every table that covers `p`. */
  predicate PairLookupsSucceed(ts: seq<Table>, p: Pair)
  {
    forall k :: 0 <= k < |ts| && Covers(ts[k], p) ==> GetValue(ts[k], p.0, p.1).Ok?
  }

  /** Every lookup the derivation makes, for a pair of `ps` in a table that covers it,
      succeeds. */
  predicate LookupsSucceed(ts: seq<Table>, ps: seq<Pair>)
  {
    forall i :: 0 <= i < |ps| ==> PairLookupsSucceed(ts, ps[i])
  }

  /** The values that the inner loop of `_compute_value` appends for one pair: one lookup
      per covering table, in table order; the first failing lookup is the result. */
  function CollectPair(ts: seq<Table>, p: Pair): (r: Result<seq<int>>)
    ensures r.Ok? ==> |r.value| == Hits(ts, p)
  {
    if ts == [] then Ok([])
    else
      match CollectPair(ts[..|ts| - 1], p)
      case Err(e) => Err(e)
      case Ok(vs) =>
        var t := ts[|ts| - 1];
        if !Covers(t, p) then Ok(vs)
        else
          match GetValue(t, p.0, p.1)
          case Err(e) => Err(e)
          case Ok(v) => Ok(vs + [v])
  }

  /** The scan for one pair succeeds exactly when every lookup in a covering table does. */
  lemma {:induction false} CollectPairOk(ts: seq<Table>, p: Pair)
    ensures CollectPair(ts, p).Ok? <==> PairLookupsSucceed(ts, p)
  {
    if ts != [] {
      var n := |ts| - 1;
      CollectPairOk(ts[..n], p);
      assert forall k :: 0 <= k < n ==> ts[..n][k] == ts[k];
    }
  }

  /** The contents of a successful scan for one pair: the value at position
      `Hits(ts[..k], p)` is the lookup in the `k`-th table, for every covering table, so
      the values are the covering tables' lookups in table order. */
  lemma {:induction false} CollectPairValues(ts: seq<Table>, p: Pair, k: nat)
    requires CollectPair(ts, p).Ok? && k < |ts| && Covers(ts[k], p)
    ensures Hits(ts[..k], p) < |CollectPair(ts, p).value|
    ensures GetValue(ts[k], p.0, p.1) == Ok(CollectPair(ts, p).value[Hits(ts[..k], p)])
  {
    var n := |ts| - 1;
    assert ts[..n][..|ts[..n]|] == ts[..n];
    if k == n {
      assert ts[..k] == ts[..n];
    } else {
      assert ts[..n][k] == ts[k];
      assert ts[..n][..k] == ts[..k];
      CollectPairValues(ts[..n], p, k);
      HitsMono(ts, p, k);
    }
  }

  /** Fewer tables cover a pair no more often. */
  lemma {:induction false} HitsMono(ts: seq<Table>, p: Pair, k: nat)
    requires k < |ts|
    ensures Hits(ts[..k], p) <= Hits(ts[..|ts| - 1], p)
    decreases |ts|
  {
    var n := |ts| - 1;
    if k < n {
      assert ts[..n][..k] == ts[..k];
      assert ts[..n][..n - 1] == ts[..n - 1];
      HitsMono(ts[..n], p, k);
    }
  }

  /** The values both loops of `_compute_value` append, pair after pair. */
  function Collect(ts: seq<Table>, ps: seq<Pair>): (r: Result<seq<int>>)
    ensures r.Ok? ==> |r.value| == TotalHits(ts, ps)
  {
    if ps == [] then Ok([])
    else
      match Collect(ts, ps[..|ps| - 1])
      case Err(e) => Err(e)
      case Ok(vs) =>
        match CollectPair(ts, ps[|ps| - 1])
        case Err(e) => Err(e)
        case Ok(ws) => Ok(vs + ws)
  }

  /** The scan over all pairs succeeds exactly when every lookup it makes does. */
  lemma {:induction false} CollectOk(ts: seq<Table>, ps: seq<Pair>)
    ensures Collect(ts, ps).Ok? <==> LookupsSucceed(ts, ps)
  {
    if ps != [] {
      var n := |ps| - 1;
      CollectOk(ts, ps[..n]);
      CollectPairOk(ts, ps[n]);
      LookupsSucceedLast(ts, ps);
    }
  }

  /** The lookups over `ps` succeed iff they succeed over all but the last pair and for it. */
  lemma LookupsSucceedLast(ts: seq<Table>, ps: seq<Pair>)
    requires ps != []
    ensures LookupsSucceed(ts, ps) <==>
              LookupsSucceed(ts, ps[..|ps| - 1]) && PairLookupsSucceed(ts, ps[|ps| - 1])
  {
    var n := |ps| - 1;
    assert forall i :: 0 <= i < n ==> ps[..n][i] == ps[i];
  }

  /** The mean of three values, as an exact real. */
  function Mean(vs: seq<int>): real
    requires |vs| == 3
  {
    (vs[0] + vs[1] + vs[2]) as real / 3.0
  }

  /** `_compute_value(a, b, e)`: exactly three pairwise values must be found; the result
      is their mean. */
  function Derive(c: Cube, a: string, b: string, e: string): (r: Result<real>)
    ensures r.Err? ==> r.error == IncompleteCoverage || LookupError(r.error)
  {
    CollectErrors(c.tables, Pairs(a, b, e));
    match Collect(c.tables, Pairs(a, b, e))
    case Err(err) => Err(err)
    case Ok(vs) => if |vs| != 3 then Err(IncompleteCoverage) else Ok(Mean(vs))
  }

  /** `cell(x, y, z)`: every index must lie on its axis; the cell is derived from the
      three labels there. */
  function CellAt(c: Cube, x: int, y: int, z: int): (r: Result<real>)
    ensures r == Err(CoordinateOutOfRange) <==> !(0 <= x < |c.x| && 0 <= y < |c.y| && 0 <= z < |c.z|)
    ensures 0 <= x < |c.x| && 0 <= y < |c.y| && 0 <= z < |c.z| ==> r == Derive(c, c.x[x], c.y[y], c.z[z])
  {
    if -1 < x < |c.x| && -1 < y < |c.y| && -1 < z < |c.z| then
      Derive(c, c.x[x], c.y[y], c.z[z])
    else Err(CoordinateOutOfRange)
  }

  /** The failures a lookup can produce. */
  predicate LookupError(e: Error)
  {
    e in {SelfCombination, NotInTable, NoMatchingRow, NoMatchingColumn, IndexOutOfRange}
  }

  lemma GetValueErrors(t: Table, a: string, b: string)
    ensures GetValue(t, a, b).Err? ==> LookupError(GetValue(t, a, b).error)
  {
  }

  lemma {:induction false} CollectPairErrors(ts: seq<Table>, p: Pair)
    ensures CollectPair(ts, p).Err? ==> LookupError(CollectPair(ts, p).error)
  {
    if ts != [] {
      CollectPairErrors(ts[..|ts| - 1], p);
      GetValueErrors(ts[|ts| - 1], p.0, p.1);
    }
  }

  lemma {:induction false} CollectErrors(ts: seq<Table>, ps: seq<Pair>)
    ensures Collect(ts, ps).Err? ==> LookupError(Collect(ts, ps).error)
  {
    if ps != [] {
      CollectErrors(ts, ps[..|ps| - 1]);
      CollectPairErrors(ts, ps[|ps| - 1]);
    }
  }

  // ---------------------------------------------------------------------------
  // The front face (the values `show_front` gathers before printing)

  /** Python's index into a sequence of length `n`: a negative index counts from the end. */
  function PyIndex(i: int, n: nat): (k: nat)
    requires -(n as int) <= i < n
    ensures k < n
    ensures k == i || k == i + n
  {
    if i < 0 then i + n else i
  }

  /** One row of the front face: the cells for every x label at one y and z label. */
  function FrontRow(c: Cube, xs: seq<string>, y: string, z: string): (r: Result<seq<real>>)
    ensures r.Ok? ==> |r.value| == |xs|
    ensures r.Ok? ==> forall j :: 0 <= j < |xs| ==> Derive(c, xs[j], y, z) == Ok(r.value[j])
  {
    if xs == [] then Ok([])
    else
      match FrontRow(c, xs[..|xs| - 1], y, z)
      case Err(e) => Err(e)
      case Ok(vs) =>
        match Derive(c, xs[|xs| - 1], y, z)
        case Err(e) => Err(e)
        case Ok(v) => Ok(vs + [v])
  }

  /** The front face row after row, one row per y label of `ys`: `|x|` cells per row. */
  function FrontRows(c: Cube, ys: seq<string>, z: string): (r: Result<seq<real>>)
    ensures r.Ok? ==> |r.value| == |ys| * |c.x|
  {
    if ys == [] then Ok([])
    else
      MulStep(|ys| - 1, |c.x|);
      match FrontRows(c, ys[..|ys| - 1], z)
      case Err(e) => Err(e)
      case Ok(vs) =>
        match FrontRow(c, c.x, ys[|ys| - 1], z)
        case Err(e) => Err(e)
        case Ok(ws) => Ok(vs + ws)
  }

  lemma MulStep(n: nat, w: nat)
    ensures (n + 1) * w == n * w + w
  {
  }

  /** `show_front(z_level)` without its printing: the cells of the face at that z level,
      y-major. The z index is evaluated Python's way, so a negative level counts from the
      end. */
  function Front(c: Cube, zLevel: int): (r: Result<seq<real>>)
    ensures !(-|c.z| <= zLevel < |c.z|) ==> r == Err(IndexOutOfRange)
    ensures r.Ok? ==> |r.value| == |c.y| * |c.x|
    ensures r.Ok? ==> -|c.z| <= zLevel < |c.z| && IsFace(c, c.y, c.z[PyIndex(zLevel, |c.z|)], r.value)
    ensures r.Ok? <==>
              && -|c.z| <= zLevel < |c.z|
              && forall i, j :: 0 <= i < |c.y| && 0 <= j < |c.x| ==>
                   Derive(c, c.x[j], c.y[i], c.z[PyIndex(zLevel, |c.z|)]).Ok?
  {
    if -|c.z| <= zLevel < |c.z| then
      var z := c.z[PyIndex(zLevel, |c.z|)];
      FrontFace(c, c.y, z);
      FrontRowsSucceed(c, c.y, z);
      FrontRows(c, c.y, z)
    else Err(IndexOutOfRange)
  }

  /** A row is gathered exactly when every one of its cells derives. */
  lemma {:induction false} FrontRowSucceeds(c: Cube, xs: seq<string>, y: string, z: string)
    ensures FrontRow(c, xs, y, z).Ok? <==> forall j :: 0 <= j < |xs| ==> Derive(c, xs[j], y, z).Ok?
  {
    if xs != [] {
      var n := |xs| - 1;
      FrontRowSucceeds(c, xs[..n], y, z);
      assert forall j :: 0 <= j < n ==> xs[..n][j] == xs[j];
    }
  }

  /** The face is gathered exactly when every one of its cells derives. */
  lemma {:induction false} FrontRowsSucceed(c: Cube, ys: seq<string>, z: string)
    ensures FrontRows(c, ys, z).Ok? <==>
              forall i, j :: 0 <= i < |ys| && 0 <= j < |c.x| ==> Derive(c, c.x[j], ys[i], z).Ok?
  {
    if ys != [] {
      var n := |ys| - 1;
      FrontRowsSucceed(c, ys[..n], z);
      FrontRowSucceeds(c, c.x, ys[n], z);
      CellsDeriveLast(c, ys, ys[..n], z);
    }
  }

  /** Every cell at the y labels `ys` derives iff every cell at the labels `init` before the
      last one does and every cell at the last one does. */
  lemma CellsDeriveLast(c: Cube, ys: seq<string>, init: seq<string>, z: string)
    requires ys != [] && init == ys[..|ys| - 1]
    ensures (forall i, j :: 0 <= i < |ys| && 0 <= j < |c.x| ==> Derive(c, c.x[j], ys[i], z).Ok?) <==>
              && (forall i, j :: 0 <= i < |init| && 0 <= j < |c.x| ==> Derive(c, c.x[j], init[i], z).Ok?)
              && (forall j :: 0 <= j < |c.x| ==> Derive(c, c.x[j], ys[|ys| - 1], z).Ok?)
  {
    assert forall i :: 0 <= i < |init| ==> init[i] == ys[i];
  }

  /** `vs` holds the face of `c` at the y labels `ys` and z label `z` y-major: position
      `i * |x| + j` holds the derived cell of the `j`-th x label and the `i`-th y label. */
  predicate IsFace(c: Cube, ys: seq<string>, z: string, vs: seq<real>)
  {
    forall i, j :: 0 <= i < |ys| && 0 <= j < |c.x| ==> FaceHolds(c, ys, z, vs, i, j)
  }

  /** Position `i * |x| + j` of `vs` holds the derived cell of the `j`-th x label and the
      `i`-th y label. */
  predicate FaceHolds(c: Cube, ys: seq<string>, z: string, vs: seq<real>, i: nat, j: nat)
    requires i < |ys| && j < |c.x|
  {
    i * |c.x| + j < |vs| && Derive(c, c.x[j], ys[i], z) == Ok(vs[i * |c.x| + j])
  }

  /** The gathered rows form the face. */
  lemma {:induction false} FrontFace(c: Cube, ys: seq<string>, z: string)
    ensures FrontRows(c, ys, z).Ok? ==> IsFace(c, ys, z, FrontRows(c, ys, z).value)
  {
    if ys != [] && FrontRows(c, ys, z).Ok? {
      var n := |ys| - 1;
      FrontFace(c, ys[..n], z);
      FaceAppend(c, ys, z, FrontRows(c, ys[..n], z).value, FrontRow(c, c.x, ys[n], z).value);
    }
  }

  /** Appending the row of the last y label to the face of the others gives the face. */
  lemma FaceAppend(c: Cube, ys: seq<string>, z: string, vs: seq<real>, ws: seq<real>)
    requires ys != [] && |vs| == (|ys| - 1) * |c.x| && IsFace(c, ys[..|ys| - 1], z, vs)
    requires |ws| == |c.x| && forall j :: 0 <= j < |c.x| ==> Derive(c, c.x[j], ys[|ys| - 1], z) == Ok(ws[j])
    ensures IsFace(c, ys, z, vs + ws)
  {
    forall i, j | 0 <= i < |ys| && 0 <= j < |c.x|
      ensures FaceHolds(c, ys, z, vs + ws, i, j)
    {
      FaceAppendCell(c, ys, z, vs, ws, i, j);
    }
  }

  /** One cell of the extended face: earlier rows come from the old face, the last row
      from the appended one. */
  lemma FaceAppendCell(c: Cube, ys: seq<string>, z: string, vs: seq<real>, ws: seq<real>, i: nat, j: nat)
    requires ys != [] && |vs| == (|ys| - 1) * |c.x| && IsFace(c, ys[..|ys| - 1], z, vs)
    requires |ws| == |c.x| && forall j :: 0 <= j < |c.x| ==> Derive(c, c.x[j], ys[|ys| - 1], z) == Ok(ws[j])
    requires i < |ys| && j < |c.x|
    ensures FaceHolds(c, ys, z, vs + ws, i, j)
  {
    var n := |ys| - 1;
    RowOffset(i, j, n, |c.x|);
    if i < n {
      assert ys[..n][i] == ys[i];
      assert FaceHolds(c, ys[..n], z, vs, i, j);
    } else {
      assert Derive(c, c.x[j], ys[n], z) == Ok(ws[j]);
      assert i * |c.x| + j - |vs| == j;
    }
  }

  /** Position `i * w + j` of a face whose rows have width `w` lies in row `i`. */
  lemma RowOffset(i: nat, j: nat, n: nat, w: nat)
    requires i <= n && j < w
    ensures i * w + j < (n + 1) * w
    ensures i < n ==> i * w + j < n * w
  {
    if i < n {
      assert (i + 1) * w <= n * w;
    }
  }

  // ---------------------------------------------------------------------------
  // Dice and slice

  /** The labels of `items` that are not allowed, that is, the lines a filter drops. */
  function DroppedNames(allowed: seq<string>, items: seq<string>): set<string>
  {
    set n | n in items && n !in allowed
  }

  /** `_filter_data_table`: drops, one after another, the items that are not allowed. */
  function Filter(t: Table, allowed: seq<string>, items: seq<string>): (r: Result<Table>)
    requires WellFormed(t)
    ensures r.Ok? ==> WellFormed(r.value)
    ensures Populated(t) ==> r.Ok? && Populated(r.value)
    decreases |items|
  {
    if items == [] then Ok(t)
    else if items[0] in allowed then Filter(t, allowed, items[1..])
    else
      match Dropped(t, items[0])
      case Err(e) => Err(e)
      case Ok(u) => Filter(u, allowed, items[1..])
  }

  /** The copy of one table that `dice` adds: filtered by the x, then the y, then the z
      labels that are not retained. */
  function DiceTable(c: Cube, t: Table, xs: seq<string>, ys: seq<string>, zs: seq<string>): (r: Result<Table>)
    requires WellFormed(t)
    ensures r.Ok? ==> WellFormed(r.value)
    ensures Populated(t) ==> r.Ok? && Populated(r.value)
  {
    match Filter(t, xs, c.x)
    case Err(e) => Err(e)
    case Ok(t1) =>
      match Filter(t1, ys, c.y)
      case Err(e) => Err(e)
      case Ok(t2) => Filter(t2, zs, c.z)
  }

  /** The tables of the diced cube made from the first `n` tables of `c`: each copy is
      filtered and must pass `add_data` on the new axes. */
  function DicedTables(c: Cube, xs: seq<string>, ys: seq<string>, zs: seq<string>, n: nat): (r: Result<seq<Table>>)
    requires Consistent(c) && n <= |c.tables|
    ensures r.Ok? ==> |r.value| == n
    ensures r.Ok? ==> forall k :: 0 <= k < n ==>
                        DiceTable(c, c.tables[k], xs, ys, zs) == Ok(r.value[k]) && AxisCheck(xs, ys, zs, r.value[k]).Pass?
  {
    if n == 0 then Ok([])
    else
      match DicedTables(c, xs, ys, zs, n - 1)
      case Err(e) => Err(e)
      case Ok(ts) =>
        match DiceTable(c, c.tables[n - 1], xs, ys, zs)
        case Err(e) => Err(e)
        case Ok(t) =>
          match AxisCheck(xs, ys, zs, t)
          case Fail(e) => Err(e)
          case Pass => Ok(ts + [t])
  }

  /** `dice(xs, ys, zs)`: each requested list must be a subset of its axis; the new cube
      has exactly the requested axes and one filtered copy of every table. */
  function Diced(c: Cube, xs: seq<string>, ys: seq<string>, zs: seq<string>): (r: Result<Cube>)
    requires Consistent(c)
    ensures !(Elements(xs) <= Elements(c.x) && Elements(ys) <= Elements(c.y) && Elements(zs) <= Elements(c.z))
            ==> r == Err(NotASubset)
    ensures r.Ok? ==> r.value.x == xs && r.value.y == ys && r.value.z == zs
    ensures r.Ok? ==> Consistent(r.value) && |r.value.tables| == |c.tables|
  {
    if !(Elements(xs) <= Elements(c.x)) || !(Elements(ys) <= Elements(c.y)) || !(Elements(zs) <= Elements(c.z)) then
      Err(NotASubset)
    else
      match DicedTables(c, xs, ys, zs, |c.tables|)
      case Err(e) => Err(e)
      case Ok(ts) => Ok(Cube(xs, ys, zs, ts))
  }

  /** `_check_line_selection`: a label is resolved to its first position; the position
      must lie on the axis. */
  function LineIndex(labels: seq<string>, line: Line): (r: Result<nat>)
    ensures r.Ok? ==> r.value < |labels|
    ensures line.Label? ==> (r.Ok? <==> line.name in labels)
    ensures line.Label? && r.Ok? ==> labels[r.value] == line.name && line.name !in labels[..r.value]
    ensures line.Label? && r.Err? ==> r.error == UnknownLabel
    ensures line.Index? ==> (r.Ok? <==> 0 <= line.i < |labels|)
    ensures line.Index? && r.Ok? ==> r.value == line.i
    ensures line.Index? && r.Err? ==> r.error == LineOutOfRange
  {
    match line
    case Label(name) => if name in labels then Ok(IndexOf(labels, name)) else Err(UnknownLabel)
    case Index(i) => if i < 0 || i >= |labels| then Err(LineOutOfRange) else Ok(i)
  }

  /** `slice(axis, line)`: the dice that keeps only the chosen label on that axis and the
      other two axes whole. */
  function Sliced(c: Cube, axis: Axis, line: Line): (r: Result<Cube>)
    requires Consistent(c)
    ensures line.Index? && !(0 <= line.i < |AxisLabels(c, axis)|) ==> r == Err(LineOutOfRange)
    ensures r.Ok? ==>
              && LineIndex(AxisLabels(c, axis), line).Ok?
              && var i := LineIndex(AxisLabels(c, axis), line).value;
              && AxisLabels(r.value, axis) == [AxisLabels(c, axis)[i]]
              && (forall other: Axis :: other != axis ==> AxisLabels(r.value, other) == AxisLabels(c, other))
              && |r.value.tables| == |c.tables|
  {
    match LineIndex(AxisLabels(c, axis), line)
    case Err(e) => Err(e)
    case Ok(i) =>
      match axis
      case X => Diced(c, [c.x[i]], c.y, c.z)
      case Y => Diced(c, c.x, [c.y[i]], c.z)
      case Z => Diced(c, c.x, c.y, [c.z[i]])
  }

  // ---------------------------------------------------------------------------
  // Facts the loops of the class rely on: a failure in a prefix is the final failure.

  lemma {:induction false} CollectPairPrefixErr(ts: seq<Table>, p: Pair, k: nat)
    requires k <= |ts| && CollectPair(ts[..k], p).Err?
    ensures CollectPair(ts, p) == CollectPair(ts[..k], p)
    decreases |ts| - k
  {
    if k < |ts| {
      assert ts[..k + 1][..k] == ts[..k];
      CollectPairPrefixErr(ts, p, k + 1);
    } else {
      assert ts[..k] == ts;
    }
  }

  lemma {:induction false} CollectPrefixErr(ts: seq<Table>, ps: seq<Pair>, k: nat)
    requires k <= |ps| && Collect(ts, ps[..k]).Err?
    ensures Collect(ts, ps) == Collect(ts, ps[..k])
    decreases |ps| - k
  {
    if k < |ps| {
      var q := ps[..k + 1];
      assert q[..|q| - 1] == ps[..k];
      assert Collect(ts, q) == Collect(ts, ps[..k]);
      CollectPrefixErr(ts, ps, k + 1);
    } else {
      assert ps[..k] == ps;
    }
  }

  lemma {:induction false} DicedTablesPrefixErr(c: Cube, xs: seq<string>, ys: seq<string>, zs: seq<string>, k: nat, n: nat)
    requires Consistent(c) && k <= n <= |c.tables| && DicedTables(c, xs, ys, zs, k).Err?
    ensures DicedTables(c, xs, ys, zs, n) == DicedTables(c, xs, ys, zs, k)
    decreases n - k
  {
    if k < n {
      DicedTablesPrefixErr(c, xs, ys, zs, k, n - 1);
    }
  }

  lemma {:induction false} FrontRowPrefixErr(c: Cube, xs: seq<string>, y: string, z: string, k: nat)
    requires k <= |xs| && FrontRow(c, xs[..k], y, z).Err?
    ensures FrontRow(c, xs, y, z) == FrontRow(c, xs[..k], y, z)
    decreases |xs| - k
  {
    if k < |xs| {
      assert xs[..k + 1][..k] == xs[..k];
      FrontRowPrefixErr(c, xs, y, z, k + 1);
    } else {
      assert xs[..k] == xs;
    }
  }

  lemma {:induction false} FrontRowsPrefixErr(c: Cube, ys: seq<string>, z: string, k: nat)
    requires k <= |ys| && FrontRows(c, ys[..k], z).Err?
    ensures FrontRows(c, ys, z) == FrontRows(c, ys[..k], z)
    decreases |ys| - k
  {
    if k < |ys| {
      assert ys[..k + 1][..k] == ys[..k];
      FrontRowsPrefixErr(c, ys, z, k + 1);
    } else {
      assert ys[..k] == ys;
    }
  }

  /** A failing row `i` of the face is the failure of the whole face. */
  lemma FrontErr(c: Cube, z: string, i: nat)
    requires i < |c.y| && FrontRows(c, c.y[..i], z).Ok? && FrontRow(c, c.x, c.y[i], z).Err?
    ensures FrontRows(c, c.y, z) == Err(FrontRow(c, c.x, c.y[i], z).error)
  {
    assert c.y[..i + 1][..i] == c.y[..i];
    FrontRowsPrefixErr(c, c.y, z, i + 1);
  }

  // ---------------------------------------------------------------------------
  // The mutable cube

  /** `_filter_data_table` on the table object: drops each item that is not allowed, in
      place, stopping at the first failing drop. On a failure the table keeps the drops
      made so far and is otherwise unspecified; its only caller, `dice`, then discards it. */
  method FilterLines(table: DataTable, allowed: seq<string>, items: seq<string>) returns (o: Outcome)
    requires table.Valid()
    modifies table
    ensures table.Valid()
    ensures o.Pass? <==> Filter(old(table.Model()), allowed, items).Ok?
    ensures o.Pass? ==> table.Model() == Filter(old(table.Model()), allowed, items).value
    ensures o.Fail? ==> o.error == Filter(old(table.Model()), allowed, items).error
  {
    for i := 0 to |items|
      invariant table.Valid()
      invariant Filter(old(table.Model()), allowed, items) == Filter(table.Model(), allowed, items[i..])
    {
      assert items[i..][1..] == items[i + 1..];
      if items[i] !in allowed {
        o := table.DropLine(items[i]);
        if o.Fail? {
          return;
        }
      }
    }
    assert items[|items|..] == [];
    return Pass;
  }

  class DataCube {
    const x: seq<string>
    const y: seq<string>
    const z: seq<string>
    var tables: seq<Table>

    function Model(): Cube
      reads this
    {
      Cube(x, y, z, tables)
    }

    predicate Valid()
      reads this
    {
      Consistent(Model())
    }

    /** A cube with its three axes and no tables. */
    constructor (x: seq<string>, y: seq<string>, z: seq<string>)
      ensures Model() == Cube(x, y, z, []) && Valid()
    {
      this.x, this.y, this.z := x, y, z;
      tables := [];
    }

    /** `add_data(table)`: appends the table's current state when its row names and its
        column names each form the label set of an axis; otherwise nothing changes. */
    method AddData(table: DataTable) returns (o: Outcome)
      requires Valid() && table.Valid()
      modifies this
      ensures Valid()
      ensures o == AxisCheck(x, y, z, table.Model())
      ensures tables == if o.Pass? then old(tables) + [table.Model()] else old(tables)
    {
      if !NamesAnAxis(x, y, z, table.rowNames) {
        return Fail(RowsMatchNoAxis);
      }
      if !NamesAnAxis(x, y, z, table.colNames) {
        return Fail(ColumnsMatchNoAxis);
      }
      tables := tables + [table.Model()];
      return Pass;
    }

    /** `_compute_value(a, b, e)`: for each pair, a lookup in every table that covers it. */
    method ComputeValue(a: string, b: string, e: string) returns (r: Result<real>)
      ensures r == Derive(Model(), a, b, e)
    {
      var pairs := Pairs(a, b, e);
      var results: seq<int> := [];
      for i := 0 to |pairs|
        invariant Collect(tables, pairs[..i]) == Ok(results)
      {
        var found := PairValues(pairs[i]);
        assert pairs[..i + 1][..i] == pairs[..i];
        if found.Err? {
          CollectPrefixErr(tables, pairs, i + 1);
          assert pairs[..3] == pairs;
          return Err(found.error);
        }
        results := results + found.value;
      }
      assert pairs[..3] == pairs;
      if |results| != 3 {
        return Err(IncompleteCoverage);
      }
      return Ok(Mean(results));
    }

    /** The inner loop of `_compute_value`: one lookup per table that covers `p`. */
    method PairValues(p: Pair) returns (r: Result<seq<int>>)
      ensures r == CollectPair(tables, p)
    {
      var found := [];
      assert tables[..0] == [];
      for k := 0 to |tables|
        invariant CollectPair(tables[..k], p) == Ok(found)
      {
        assert tables[..k + 1][..k] == tables[..k];
        if Covers(tables[k], p) {
          var v := GetValue(tables[k], p.0, p.1);
          if v.Err? {
            CollectPairPrefixErr(tables, p, k + 1);
            return Err(v.error);
          }
          found := found + [v.value];
        }
      }
      assert tables[..|tables|] == tables;
      return Ok(found);
    }

    /** `cell(i, j, k)`. */
    method Cell(i: int, j: int, k: int) returns (r: Result<real>)
      ensures r == CellAt(Model(), i, j, k)
    {
      if !(-1 < i < |x| && -1 < j < |y| && -1 < k < |z|) {
        return Err(CoordinateOutOfRange);
      }
      r := ComputeValue(x[i], y[j], z[k]);
    }

    /** The value-gathering loops of `show_front(z_level)`. */
    method FrontValues(zLevel: int) returns (r: Result<seq<real>>)
      ensures r == Front(Model(), zLevel)
    {
      if !(-|z| <= zLevel < |z|) {
        return Err(IndexOutOfRange);
      }
      var zl := z[PyIndex(zLevel, |z|)];
      var results: seq<real> := [];
      for i := 0 to |y|
        invariant FrontRows(Model(), y[..i], zl) == Ok(results)
      {
        var row := RowValues(y[i], zl);
        if row.Err? {
          FrontErr(Model(), zl, i);
          return Err(row.error);
        }
        assert y[..i + 1][..i] == y[..i];
        results := results + row.value;
      }
      assert y[..|y|] == y;
      return Ok(results);
    }

    /** The inner loop of `show_front`: the cells for every x label at one y and z label. */
    method RowValues(yl: string, zl: string) returns (r: Result<seq<real>>)
      ensures r == FrontRow(Model(), x, yl, zl)
    {
      var row: seq<real> := [];
      assert x[..0] == [];
      for j := 0 to |x|
        invariant FrontRow(Model(), x[..j], yl, zl) == Ok(row)
      {
        assert x[..j + 1][..j] == x[..j];
        var v := ComputeValue(x[j], yl, zl);
        if v.Err? {
          FrontRowPrefixErr(Model(), x, yl, zl, j + 1);
          return Err(v.error);
        }
        row := row + [v.value];
      }
      assert x[..|x|] == x;
      return Ok(row);
    }

    /** `dice(xs, ys, zs)`: a new cube; this cube and its tables are left untouched. */
    method Dice(xs: seq<string>, ys: seq<string>, zs: seq<string>) returns (r: Result<DataCube>)
      requires Valid()
      ensures r.Ok? <==> Diced(Model(), xs, ys, zs).Ok?
      ensures r.Ok? ==> fresh(r.value) && r.value.Valid() && r.value.Model() == Diced(Model(), xs, ys, zs).value
      ensures r.Err? ==> r.error == Diced(Model(), xs, ys, zs).error
    {
      if !(Elements(xs) <= Elements(x)) || !(Elements(ys) <= Elements(y)) || !(Elements(zs) <= Elements(z)) {
        return Err(NotASubset);
      }
      var dice := new DataCube(xs, ys, zs);
      for i := 0 to |tables|
        invariant fresh(dice) && dice.Valid()
        invariant dice.x == xs && dice.y == ys && dice.z == zs
        invariant DicedTables(Model(), xs, ys, zs, i) == Ok(dice.tables)
      {
        var o := AddDicedCopy(dice, i, xs, ys, zs);
        if o.Fail? {
          DicedTablesPrefixErr(Model(), xs, ys, zs, i + 1, |tables|);
          return Err(o.error);
        }
      }
      assert Diced(Model(), xs, ys, zs) == Ok(dice.Model());
      return Ok(dice);
    }

    /** One turn of the loop of `dice`: the filtered copy of table `i` is added to the new
        cube, which then holds the diced tables up to `i`. */
    method AddDicedCopy(dice: DataCube, i: nat, xs: seq<string>, ys: seq<string>, zs: seq<string>) returns (o: Outcome)
      requires Valid() && dice.Valid() && dice != this && i < |tables|
      requires dice.x == xs && dice.y == ys && dice.z == zs
      requires DicedTables(Model(), xs, ys, zs, i) == Ok(dice.tables)
      modifies dice
      ensures dice.Valid()
      ensures o.Pass? ==> DicedTables(Model(), xs, ys, zs, i + 1) == Ok(dice.tables)
      ensures o.Fail? ==> DicedTables(Model(), xs, ys, zs, i + 1) == Err(o.error)
      ensures o.Fail? ==> dice.tables == old(dice.tables)
    {
      var clone := FilteredCopy(tables[i], xs, ys, zs);
      if clone.Err? {
        return Fail(clone.error);
      }
      ghost var before := dice.tables;
      o := dice.AddData(clone.value);
      if o.Pass? {
        assert dice.tables == before + [clone.value.Model()];
      }
    }

    /** The body of the loop of `dice`: a deep copy of one table, filtered by the x, the y
        and the z labels that are not retained. */
    method FilteredCopy(t: Table, xs: seq<string>, ys: seq<string>, zs: seq<string>) returns (r: Result<DataTable>)
      requires WellFormed(t)
      ensures r.Ok? <==> DiceTable(Model(), t, xs, ys, zs).Ok?
      ensures r.Ok? ==> fresh(r.value) && r.value.Valid() && r.value.Model() == DiceTable(Model(), t, xs, ys, zs).value
      ensures r.Err? ==> r.error == DiceTable(Model(), t, xs, ys, zs).error
    {
      var clone := new DataTable.Copy(t);
      var o := FilterLines(clone, xs, x);
      if o.Pass? {
        o := FilterLines(clone, ys, y);
      }
      if o.Pass? {
        o := FilterLines(clone, zs, z);
      }
      if o.Fail? {
        return Err(o.error);
      }
      return Ok(clone);
    }

    /** `slice(axis, line)`. */
    method Slice(axis: Axis, line: Line) returns (r: Result<DataCube>)
      requires Valid()
      ensures r.Ok? <==> Sliced(Model(), axis, line).Ok?
      ensures r.Ok? ==> fresh(r.value) && r.value.Valid() && r.value.Model() == Sliced(Model(), axis, line).value
      ensures r.Err? ==> r.error == Sliced(Model(), axis, line).error
    {
      var index := LineIndex(AxisLabels(Model(), axis), line);
      if index.Err? {
        return Err(index.error);
      }
      var i := index.value;
      match axis {
        case X => r := Dice([x[i]], y, z);
        case Y => r := Dice(x, [y[i]], z);
        case Z => r := Dice(x, y, [z[i]]);
      }
    }

    /** `cube[key]`: the labels of axis x, y or z. */
    function Item(key: string): (r: Result<seq<string>>)
      ensures r.Ok? <==> key == "x" || key == "y" || key == "z"
      ensures key == "x" ==> r == Ok(x)
      ensures key == "y" ==> r == Ok(y)
      ensures key == "z" ==> r == Ok(z)
    {
      match key
      case "x" => Ok(x)
      case "y" => Ok(y)
      case "z" => Ok(z)
      case _ => Err(UnsupportedKey)
    }
  }
}
