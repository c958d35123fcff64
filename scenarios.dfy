/** A concrete 2x2x2 cube with its three pairwise tables, and what the model derives on it. */
module Scenarios {
  import opened Errors
  import opened Labels
  import opened Tables
  import opened Cubes
  import opened CubeLemmas

  /** Relation between the X and Y labels. */
  function TableXY(): Table { Table(["A", "B"], ["P", "Q"], [[1, 2], [3, 4]]) }

  /** Relation between the Y and Z labels. */
  function TableYZ(): Table { Table(["P", "Q"], ["1", "2"], [[5, 6], [7, 8]]) }

  /** Relation between the X and Z labels. */
  function TableXZ(): Table { Table(["A", "B"], ["1", "2"], [[9, 10], [11, 12]]) }

  function Example(): Cube
  {
    Cube(["A", "B"], ["P", "Q"], ["1", "2"], [TableXY(), TableYZ(), TableXZ()])
  }

  /** Each example table passes the checks of `add_data`. */
  lemma ExampleConsistent()
    ensures Consistent(Example())
  {
    assert Elements(["A", "B"]) == {"A", "B"} && Elements(["P", "Q"]) == {"P", "Q"} && Elements(["1", "2"]) == {"1", "2"};
  }

  /** The example tables have distinct labels and the example axes share none. */
  lemma ExampleClean()
    ensures forall k :: 0 <= k < |Example().tables| ==> Clean(Example().tables[k])
    ensures AxesDisjoint(Example())
  {
    assert Elements(["A", "B"]) == {"A", "B"} && Elements(["P", "Q"]) == {"P", "Q"} && Elements(["1", "2"]) == {"1", "2"};
  }

  /** The pair (A, P) of the first cell is covered only by the X-Y table, which gives 1. */
  lemma ExampleCoverAP()
    ensures SoleCover(Example().tables, ("A", "P"), 0, 1)
  {
    assert !Covers(TableYZ(), ("A", "P")) && !Covers(TableXZ(), ("A", "P"));
  }

  /** The pair (A, 1) of the first cell is covered only by the X-Z table, which gives 9. */
  lemma ExampleCoverA1()
    ensures SoleCover(Example().tables, ("A", "1"), 2, 9)
  {
    assert !Covers(TableXY(), ("A", "1")) && !Covers(TableYZ(), ("A", "1"));
  }

  /** The pair (P, 1) of the first cell is covered only by the Y-Z table, which gives 5. */
  lemma ExampleCoverP1()
    ensures SoleCover(Example().tables, ("P", "1"), 1, 5)
  {
    assert !Covers(TableXY(), ("P", "1")) && !Covers(TableXZ(), ("P", "1"));
  }

  /** The first cell: the lookups (A,P) = 1, (A,1) = 9 and (P,1) = 5 average to 5. */
  lemma ExampleCell()
    ensures CellAt(Example(), 0, 0, 0) == Ok(5.0)
  {
    ExampleCoverAP();
    ExampleCoverA1();
    ExampleCoverP1();
    DeriveSingleCovers(Example(), "A", "P", "1", 0, 2, 1, 1, 9, 5);
  }

  /** Dicing the example cube to `A` on X succeeds and keeps the first cell. */
  lemma ExampleDice()
    ensures Diced(Example(), ["A"], ["P", "Q"], ["1", "2"]).Ok?
    ensures CellAt(Diced(Example(), ["A"], ["P", "Q"], ["1", "2"]).value, 0, 0, 0) == Ok(5.0)
  {
    var c := Example();
    ExampleConsistent();
    ExampleClean();
    ExampleCell();
    assert Elements(["A"]) <= Elements(c.x) by { assert "A" in c.x; }
    assert Elements(["P", "Q"]) == Elements(c.y) && Elements(["1", "2"]) == Elements(c.z);
    DiceSucceeds(c, ["A"], ["P", "Q"], ["1", "2"]);
    DicePreservesCell(c, ["A"], ["P", "Q"], ["1", "2"], 0, 0, 0);
  }

  /** A table whose rows name three X labels matches no axis of the example cube. */
  lemma ExampleAxisMismatch()
    ensures AxisCheck(["A", "B"], ["P", "Q"], ["1", "2"],
                      Table(["A", "B", "C"], ["P", "Q"], [[1, 2], [3, 4], [5, 6]])) == Fail(RowsMatchNoAxis)
  {
    assert "C" in Elements(["A", "B", "C"]);
    assert "C" !in Elements(["A", "B"]) && "C" !in Elements(["P", "Q"]) && "C" !in Elements(["1", "2"]);
  }

  /** The example cube without its X-Z table. */
  function TwoTables(): seq<Table> { [TableXY(), TableYZ()] }

  /** With only two tables, (A, P) and (P, 1) are each covered once and (A, 1) not at all. */
  lemma TwoTablesCovers()
    ensures SoleCover(TwoTables(), ("A", "P"), 0, 1)
    ensures SoleCover(TwoTables(), ("P", "1"), 1, 5)
    ensures !Covers(TableXY(), ("A", "1")) && !Covers(TableYZ(), ("A", "1"))
  {
    assert !Covers(TableYZ(), ("A", "P")) && !Covers(TableXY(), ("P", "1"));
  }

  /** Without the X-Z table only two lookups are found for the first cell. */
  lemma ExampleIncomplete()
    ensures CellAt(Cube(["A", "B"], ["P", "Q"], ["1", "2"], TwoTables()), 0, 0, 0) == Err(IncompleteCoverage)
  {
    var ts := TwoTables();
    TwoTablesCovers();
    CollectPairSingleCover(ts, ("A", "P"), 0, 1);
    CollectPairNoCover(ts, ("A", "1"));
    CollectPairSingleCover(ts, ("P", "1"), 1, 5);
    CollectThree(ts, Pairs("A", "P", "1"), [1], [], [5]);
  }

  /** A second X-Y table that disagrees with the first at (A, P). */
  function TableXY2(): Table { Table(["A", "B"], ["P", "Q"], [[100, 2], [3, 4]]) }

  /** Both X-Y tables cover (A, P), and the scan for it yields both of their values. */
  lemma DoubleCoverAP()
    ensures CollectPair([TableXY(), TableXY2(), TableYZ()], ("A", "P")) == Ok([1, 100])
  {
    var ts := [TableXY(), TableXY2(), TableYZ()];
    var two := [TableXY(), TableXY2()];
    assert !Covers(TableYZ(), ("A", "P"));
    assert Covers(TableXY(), ("A", "P")) && Covers(TableXY2(), ("A", "P"));
    assert FirstOf(["A", "B"], "A", "P") == 0 && FirstOf(["P", "Q"], "A", "P") == 0;
    assert GetValue(TableXY(), "A", "P") == Ok(1);
    assert GetValue(TableXY2(), "A", "P") == Ok(100);
    assert [TableXY()][..0] == [];
    assert CollectPair([TableXY()], ("A", "P")) == Ok([] + [1]);
    assert [] + [1] == [1];
    assert two[..|two| - 1] == [TableXY()] && two[|two| - 1] == TableXY2();
    assert CollectPair(two, ("A", "P")) == Ok([1] + [100]);
    assert [1] + [100] == [1, 100];
    assert ts[..|ts| - 1] == two && ts[|ts| - 1] == TableYZ();
  }

  /** No table covers (A, 1), and only the Y-Z table covers (P, 1). */
  lemma DoubleCoverOthers()
    ensures forall k :: 0 <= k < 3 ==> !Covers([TableXY(), TableXY2(), TableYZ()][k], ("A", "1"))
    ensures SoleCover([TableXY(), TableXY2(), TableYZ()], ("P", "1"), 2, 5)
  {
    assert !Covers(TableXY(), ("A", "1")) && !Covers(TableXY2(), ("A", "1")) && !Covers(TableYZ(), ("A", "1"));
    assert !Covers(TableXY(), ("P", "1")) && !Covers(TableXY2(), ("P", "1"));
  }

  /** The derivation counts values, not tables: with two X-Y tables and no X-Z table,
      (A, P) is found twice and (A, 1) not at all, and the first cell still derives, as
      the mean of 1, 100 and 5. */
  lemma DoubleCoverDerives()
    ensures CellAt(Cube(["A", "B"], ["P", "Q"], ["1", "2"], [TableXY(), TableXY2(), TableYZ()]), 0, 0, 0)
            == Ok((1 + 100 + 5) as real / 3.0)
  {
    var c := Cube(["A", "B"], ["P", "Q"], ["1", "2"], [TableXY(), TableXY2(), TableYZ()]);
    DoubleCoverAP();
    DoubleCoverOthers();
    CollectPairNoCover(c.tables, ("A", "1"));
    CollectPairSingleCover(c.tables, ("P", "1"), 2, 5);
    CollectThree(c.tables, Pairs("A", "P", "1"), [1, 100], [], [5]);
    assert [1, 100] + [] + [5] == [1, 100, 5];
    DeriveOfThree(c, "A", "P", "1", 1, 100, 5);
  }
}
