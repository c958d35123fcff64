/** A labelled two-dimensional integer grid (`DataTable`): its value, the operations on
    it as functions, the properties they keep, and the mutable class with the in-place
    operations. */
module Tables {
  import opened Errors
  import opened Labels

  /** The state of a table: row names, column names and the grid, row-major. */
  datatype Table = Table(rows: seq<string>, cols: seq<string>, grid: seq<seq<int>>)

  /** The grid has one row per row name and every row one entry per column name. */
  predicate Populated(t: Table)
  {
    |t.grid| == |t.rows| && forall i :: 0 <= i < |t.grid| ==> |t.grid[i]| == |t.cols|
  }

  /** What every table satisfies: either its values were never set (the grid is still the
      empty list the constructor puts there) or the grid is in step with the labels. */
  predicate WellFormed(t: Table)
  {
    t.grid == [] || Populated(t)
  }

  /** The checks of the `values` setter, in the order it makes them. */
  function CheckDimensions(rows: seq<string>, cols: seq<string>, vals: seq<seq<int>>): (o: Outcome)
    ensures o.Pass? <==> |rows| > 0 && Populated(Table(rows, cols, vals))
    ensures o.Fail? && |vals| == |rows| && |rows| > 0 && |vals[0]| == |cols| ==> o.error == RaggedRows
  {
    if |vals| != |rows| then Fail(RowCountMismatch)
    else if |vals| == 0 then Fail(EmptyGrid)
    else if |vals[0]| != |cols| then Fail(ColumnCountMismatch)
    else if exists k :: 0 <= k < |vals| && |vals[k]| != |vals[0]| then Fail(RaggedRows)
    else Pass
  }

  /** `name in table`: the name is a row name or a column name. */
  function ContainsOne(t: Table, name: string): (r: bool)
    ensures r <==> name in t.rows || name in t.cols
  {
    name in t.rows + t.cols
  }

  /** `names in table` for a collection: every name is contained; the scan stops at the
      first name that is not. */
  function ContainsAll(t: Table, names: seq<string>): (r: bool)
    ensures r <==> forall i :: 0 <= i < |names| ==> ContainsOne(t, names[i])
  {
    if names == [] then true
    else if !ContainsOne(t, names[0]) then false
    else ContainsAll(t, names[1..])
  }

  /** `get_value(a, b)`: the entry whose row is the first row named `a` or `b` and whose
      column is the first column named `a` or `b`. */
  function GetValue(t: Table, a: string, b: string): (r: Result<int>)
    ensures a == b ==> r == Err(SelfCombination)
    ensures a != b && !(ContainsOne(t, a) && ContainsOne(t, b)) ==> r == Err(NotInTable)
    ensures Populated(t) ==>
              (r.Ok? <==> a != b && ContainsOne(t, a) && ContainsOne(t, b)
                          && (a in t.rows || b in t.rows) && (a in t.cols || b in t.cols))
    ensures r.Ok? ==>
              var row, col := FirstOf(t.rows, a, b), FirstOf(t.cols, a, b);
              row < |t.grid| && col < |t.grid[row]| && r.value == t.grid[row][col]
  {
    if a == b then Err(SelfCombination)
    else if !(ContainsOne(t, a) && ContainsOne(t, b)) then Err(NotInTable)
    else
      var row := FirstOf(t.rows, a, b);
      var col := FirstOf(t.cols, a, b);
      if row == |t.rows| then Err(NoMatchingRow)
      else if col == |t.cols| then Err(NoMatchingColumn)
      else Entry(t.grid, row, col)
  }

  /** `values[row][col]`, which fails when the grid has no such entry. */
  function Entry(grid: seq<seq<int>>, row: nat, col: nat): (r: Result<int>)
    ensures r.Ok? <==> row < |grid| && col < |grid[row]|
    ensures r.Ok? ==> r.value == grid[row][col]
  {
    if row < |grid| && col < |grid[row]| then Ok(grid[row][col]) else Err(IndexOutOfRange)
  }

  /** `drop_line(name)`: the first row called `name` goes, with its grid row; otherwise the
      first column called `name` goes, from the names and from every grid row; otherwise
      nothing changes. A table whose values were never set has no grid row to delete. */
  function Dropped(t: Table, name: string): (r: Result<Table>)
    requires WellFormed(t)
    ensures r.Err? <==> name in t.rows && t.grid == []
    ensures r.Err? ==> r.error == IndexOutOfRange
    ensures r.Ok? ==> WellFormed(r.value)
    ensures Populated(t) ==> r.Ok? && Populated(r.value)
    ensures r.Ok? && name in t.rows ==>
              |r.value.rows| == |t.rows| - 1 && r.value.cols == t.cols && |r.value.grid| == |t.grid| - 1
    ensures r.Ok? && name !in t.rows && name in t.cols ==>
              r.value.rows == t.rows && |r.value.cols| == |t.cols| - 1 && |r.value.grid| == |t.grid|
    ensures name !in t.rows && name !in t.cols ==> r == Ok(t)
  {
    if name in t.rows then
      var row := IndexOf(t.rows, name);
      if row < |t.grid| then Ok(Table(RemoveAt(t.rows, row), t.cols, RemoveAt(t.grid, row)))
      else Err(IndexOutOfRange)
    else if name in t.cols then
      var col := IndexOf(t.cols, name);
      Ok(Table(t.rows, RemoveAt(t.cols, col), WithoutColumn(t.grid, col)))
    else Ok(t)
  }

  /** Every grid row with its entry at `col` deleted. */
  function WithoutColumn(grid: seq<seq<int>>, col: nat): (g: seq<seq<int>>)
    requires forall i :: 0 <= i < |grid| ==> col < |grid[i]|
    ensures |g| == |grid|
    ensures forall i :: 0 <= i < |g| ==> g[i] == RemoveAt(grid[i], col)
  {
    seq(|grid|, i requires 0 <= i < |grid| => RemoveAt(grid[i], col))
  }

  /** A lookup does not depend on the order of its two labels. */
  lemma GetValueSymmetric(t: Table, a: string, b: string)
    ensures GetValue(t, a, b) == GetValue(t, b, a)
  {
    FirstOfSymmetric(t.rows, a, b);
    FirstOfSymmetric(t.cols, a, b);
  }

  /** When one label names only a row and the other only a column, the lookup, in either
      order, is the grid entry at that row and that column. */
  lemma GetValueAt(t: Table, a: string, b: string)
    requires Populated(t)
    requires a in t.rows && a !in t.cols
    requires b in t.cols && b !in t.rows
    ensures GetValue(t, a, b) == Ok(t.grid[IndexOf(t.rows, a)][IndexOf(t.cols, b)])
    ensures GetValue(t, b, a) == GetValue(t, a, b)
  {
    FirstOfAbsent(t.rows, a, b);
    FirstOfSymmetric(t.cols, a, b);
    FirstOfAbsent(t.cols, b, a);
    GetValueSymmetric(t, a, b);
  }

  /** Dropping a line keeps the membership of every other name. */
  lemma DroppedKeepsMembership(t: Table, name: string, a: string)
    requires WellFormed(t) && Dropped(t, name).Ok? && a != name
    ensures ContainsOne(Dropped(t, name).value, a) == ContainsOne(t, a)
  {
    if name in t.rows {
      InRemoveAt(t.rows, IndexOf(t.rows, name), a);
    } else if name in t.cols {
      InRemoveAt(t.cols, IndexOf(t.cols, name), a);
    }
  }

  /** Dropping a line keeps every lookup that does not mention it: the surviving rows and
      columns keep their entries, only their positions shift. */
  lemma DroppedKeepsLookup(t: Table, name: string, a: string, b: string)
    requires WellFormed(t) && Dropped(t, name).Ok? && a != name && b != name
    ensures GetValue(Dropped(t, name).value, a, b) == GetValue(t, a, b)
  {
    DroppedKeepsMembership(t, name, a);
    DroppedKeepsMembership(t, name, b);
    if a != b && ContainsOne(t, a) && ContainsOne(t, b) {
      if name in t.rows {
        DropRowKeepsLookup(t, IndexOf(t.rows, name), a, b);
      } else if name in t.cols {
        DropColumnKeepsLookup(t, IndexOf(t.cols, name), a, b);
      }
    }
  }

  /** Deleting row `i`, named neither `a` nor `b`, keeps the entry that `a` and `b` select. */
  lemma DropRowKeepsLookup(t: Table, i: nat, a: string, b: string)
    requires Populated(t) && i < |t.rows| && t.rows[i] != a && t.rows[i] != b
    requires a != b && ContainsOne(t, a) && ContainsOne(t, b)
    requires ContainsOne(Table(RemoveAt(t.rows, i), t.cols, RemoveAt(t.grid, i)), a)
    requires ContainsOne(Table(RemoveAt(t.rows, i), t.cols, RemoveAt(t.grid, i)), b)
    ensures GetValue(Table(RemoveAt(t.rows, i), t.cols, RemoveAt(t.grid, i)), a, b) == GetValue(t, a, b)
  {
    var u := Table(RemoveAt(t.rows, i), t.cols, RemoveAt(t.grid, i));
    var row, col := FirstOf(t.rows, a, b), FirstOf(t.cols, a, b);
    FirstOfRemoveAt(t.rows, i, a, b);
    var row' := FirstOf(u.rows, a, b);
    assert row' == |u.rows| <==> row == |t.rows|;
    if row < |t.rows| {
      assert u.grid[row'] == t.grid[row];
      assert Entry(u.grid, row', col) == Entry(t.grid, row, col);
    }
    LookupIs(t, a, b);
    LookupIs(u, a, b);
  }

  /** With two distinct labels of the table, the lookup is decided by the first row and
      the first column naming either label. */
  lemma LookupIs(t: Table, a: string, b: string)
    requires a != b && ContainsOne(t, a) && ContainsOne(t, b)
    ensures GetValue(t, a, b) ==
              var row, col := FirstOf(t.rows, a, b), FirstOf(t.cols, a, b);
              if row == |t.rows| then Err(NoMatchingRow)
              else if col == |t.cols| then Err(NoMatchingColumn)
              else Entry(t.grid, row, col)
  {
  }

  /** Deleting column `j`, named neither `a` nor `b`, keeps the entry that `a` and `b` select. */
  lemma DropColumnKeepsLookup(t: Table, j: nat, a: string, b: string)
    requires WellFormed(t) && j < |t.cols| && t.cols[j] != a && t.cols[j] != b
    requires a != b && ContainsOne(t, a) && ContainsOne(t, b)
    requires ContainsOne(Table(t.rows, RemoveAt(t.cols, j), WithoutColumn(t.grid, j)), a)
    requires ContainsOne(Table(t.rows, RemoveAt(t.cols, j), WithoutColumn(t.grid, j)), b)
    ensures GetValue(Table(t.rows, RemoveAt(t.cols, j), WithoutColumn(t.grid, j)), a, b) == GetValue(t, a, b)
  {
    var u := Table(t.rows, RemoveAt(t.cols, j), WithoutColumn(t.grid, j));
    var row, col := FirstOf(t.rows, a, b), FirstOf(t.cols, a, b);
    FirstOfRemoveAt(t.cols, j, a, b);
    var col' := FirstOf(u.cols, a, b);
    assert col' == |u.cols| <==> col == |t.cols|;
    if row < |t.rows| && col < |t.cols| {
      EntryWithoutColumn(t.grid, j, row, col, col');
    }
  }

  /** Deleting column `j` moves every other entry of a row to its shifted position. */
  lemma EntryWithoutColumn(grid: seq<seq<int>>, j: nat, row: nat, col: nat, col': nat)
    requires forall i :: 0 <= i < |grid| ==> j < |grid[i]|
    requires col != j && col' == if col < j then col else col - 1
    ensures Entry(WithoutColumn(grid, j), row, col') == Entry(grid, row, col)
  {
    if row < |grid| {
      assert WithoutColumn(grid, j)[row] == RemoveAt(grid[row], j);
    }
  }

  /** Once a name is gone it stays gone: a second drop of the same name changes nothing,
      provided no label repeats and the name is not both a row and a column. */
  lemma DropLineTwice(t: Table, name: string)
    requires Populated(t) && Unique(t.rows) && Unique(t.cols)
    requires !(name in t.rows && name in t.cols)
    ensures Dropped(Dropped(t, name).value, name) == Dropped(t, name)
  {
    var u := Dropped(t, name).value;
    if name in t.rows {
      ElementsRemoveAt(t.rows, name);
      assert name !in Elements(u.rows);
    } else if name in t.cols {
      ElementsRemoveAt(t.cols, name);
      assert name !in Elements(u.cols);
    }
  }

  /** A table whose labels do not repeat and whose row and column names are disjoint. */
  predicate Clean(t: Table)
  {
    Populated(t) && Unique(t.rows) && Unique(t.cols) && Elements(t.rows) !! Elements(t.cols)
  }

  /** On a clean table a drop removes exactly `name` from the label sets and leaves the
      table clean. */
  lemma DroppedElements(t: Table, name: string)
    requires Clean(t)
    ensures Dropped(t, name).Ok? && Clean(Dropped(t, name).value)
    ensures Elements(Dropped(t, name).value.rows) == Elements(t.rows) - {name}
    ensures Elements(Dropped(t, name).value.cols) == Elements(t.cols) - {name}
  {
    if name in t.rows {
      ElementsRemoveAt(t.rows, name);
      assert name !in Elements(t.cols);
    } else if name in t.cols {
      ElementsRemoveAt(t.cols, name);
      assert name !in Elements(t.rows);
    } else {
      assert name !in Elements(t.rows) && name !in Elements(t.cols);
    }
  }

  /** The mutable `DataTable`: the same three fields, updated in place. */
  class DataTable {
    var rowNames: seq<string>
    var colNames: seq<string>
    var values: seq<seq<int>>

    function Model(): Table
      reads this
    {
      Table(rowNames, colNames, values)
    }

    predicate Valid()
      reads this
    {
      WellFormed(Model())
    }

    /** A table with its labels and no values yet. */
    constructor (rows: seq<string>, cols: seq<string>)
      ensures Model() == Table(rows, cols, []) && Valid()
    {
      rowNames, colNames, values := rows, cols, [];
    }

    /** An independent copy of a table value (the `copy.deepcopy` of `dice`). */
    constructor Copy(t: Table)
      requires WellFormed(t)
      ensures Model() == t && Valid()
    {
      rowNames, colNames, values := t.rows, t.cols, t.grid;
    }

    /** The `values` setter: replaces the grid when its dimensions match the labels,
        and otherwise leaves the table as it was. */
    method SetValues(vals: seq<seq<int>>) returns (o: Outcome)
      requires Valid()
      modifies this
      ensures Valid()
      ensures o == CheckDimensions(old(rowNames), old(colNames), vals)
      ensures Model() == if o.Pass? then old(Model()).(grid := vals) else old(Model())
    {
      if |vals| != |rowNames| {
        return Fail(RowCountMismatch);
      }
      if |vals| == 0 {
        return Fail(EmptyGrid);
      }
      var width := |vals[0]|;
      if width != |colNames| {
        return Fail(ColumnCountMismatch);
      }
      for i := 0 to |vals|
        invariant forall k :: 0 <= k < i ==> |vals[k]| == width
      {
        if |vals[i]| != width {
          return Fail(RaggedRows);
        }
      }
      values := vals;
      return Pass;
    }

    /** `drop_line(name)`. When the row name is found but the grid has no row to delete,
        the name has already been deleted as the failure is raised. */
    method DropLine(name: string) returns (o: Outcome)
      requires Valid()
      modifies this
      ensures Valid()
      ensures o.Pass? <==> Dropped(old(Model()), name).Ok?
      ensures o.Pass? ==> Model() == Dropped(old(Model()), name).value
      ensures o.Fail? ==> o.error == IndexOutOfRange && name in old(rowNames)
                          && Model() == old(Model()).(rows := RemoveAt(old(rowNames), IndexOf(old(rowNames), name)))
    {
      if name in rowNames {
        var row := IndexOf(rowNames, name);
        rowNames := RemoveAt(rowNames, row);
        if row >= |values| {
          return Fail(IndexOutOfRange);
        }
        values := RemoveAt(values, row);
        assert Model() == Dropped(old(Model()), name).value;
      } else if name in colNames {
        var col := IndexOf(colNames, name);
        colNames := RemoveAt(colNames, col);
        var i := 0;
        while i < |values|
          invariant rowNames == old(rowNames) && colNames == RemoveAt(old(colNames), col)
          invariant 0 <= i <= |values| == |old(values)|
          invariant forall k :: 0 <= k < i ==> values[k] == RemoveAt(old(values)[k], col)
          invariant forall k :: i <= k < |values| ==> values[k] == old(values)[k]
        {
          values := values[i := RemoveAt(values[i], col)];
          i := i + 1;
        }
        assert values == WithoutColumn(old(values), col);
      }
      return Pass;
    }
  }
}
