# A verified model of `datacube.py`

`datacube.py` is a small in-memory OLAP-style engine. A `DataTable` is a labelled
two-dimensional integer grid: row names, column names and a rectangular list of rows.
A `DataCube` has three axes `x`, `y` and `z`, each a list of labels, and a list of tables.
Each table relates the labels of two of the axes. The value of a cell `(X, Y, Z)` is
derived from the three pairwise relations (X,Y), (X,Z) and (Y,Z). Each relation is looked
up in every table that holds both of its labels. Exactly three values must be found, and
the cell is their mean. Only the total is checked: a relation found in two tables and a
relation found in none still give three values, and the cell derives
(`Scenarios.DoubleCoverDerives`). `dice` projects the cube onto label subsets: it copies every table
and drops the lines of the labels that are not retained. `slice` is the `dice` that pins
one axis to a single label.

The model follows the program's structure:

- `errors.dfy` (`Errors`): the failures the program raises, and the `Result` and
  `Outcome` types that carry them.
- `labels.dfy` (`Labels`): the list operations the program relies on. These are
  `index`, the `next(...)` scan for the first of two names, `del s[i]` and `set(s)`.
- `tables.dfy` (`Tables`): the table as a value `Table` and its operations as
  functions, with the lemmas about them. The class `DataTable` holds the same three
  fields and updates them in place. The setter and `drop_line` are methods proved
  against the functions.
- `cubes.dfy` (`Cubes`): the cube as a value `Cube`, with cell derivation, the values
  `show_front` gathers, `dice` and `slice` as functions. The class `DataCube` has
  `add_data`, `_compute_value`, `cell`, the gathering loops of `show_front`, `dice` and
  `slice` as methods. Where the program loops, the method keeps its loops. Each method's
  result or new state is the function applied to its old state. The x/y/z accessor
  `__getitem__` has no loop and no effect, so it is the function `Item` of the class.
- `cube_lemmas.dfy` (`CubeLemmas`): what derivation, `dice` and `slice` promise. This
  covers complete coverage, a dice keeping every retained cell, when a dice succeeds,
  and slicing by label versus by index.
- `scenarios.dfy` (`Scenarios`): a concrete 2x2x2 cube with its three tables and what
  the model derives on it.

A Python exception is modelled as an `Err` or `Fail` value that names the failure.
This also covers the crashes of plain Python operations that the program does not
guard against:

- `vals[0]` on an empty grid gives `EmptyGrid`.
- A `next(...)` scan that finds nothing gives `NoMatchingRow` or `NoMatchingColumn`.
- Indexing the grid of a table whose values were never set gives `IndexOutOfRange`.

These quirks are modelled as the program has them, not corrected.

The cube keeps table values. `add_data` appends the table's state at the time of the
call, and `dice` works on value copies, which is what its `copy.deepcopy` produces when
no two lists of a table are one list (see "## Left out").

## Model

| member | source | states |
|---|---|---|
| Labels.FirstOf | datacube.py:54-55 | the result is the first position holding either name, or the length when neither occurs |
| Labels.IndexOf | datacube.py:63 | `list.index`: the position holds the name and no earlier position does |
| Labels.RemoveAt | datacube.py:64-65 | `del s[i]`: one element shorter; elements before `i` stay in place and later ones move down by one |
| Labels.FirstOfSymmetric | datacube.py:54-55 | the scan for "a or b" stops where the scan for "b or a" does |
| Labels.ElementsRemoveAt | datacube.py:63-64 | in a list without repeats, deleting the first occurrence of a name removes exactly that name from the set of labels, and no repeats appear |
| Tables.CheckDimensions | datacube.py:34-42 | the setter accepts a grid exactly when it has one row per row name (at least one), its first row has one entry per column name, and every row is that long; a failure with the right row count and first-row width is the ragged-rows failure |
| Tables.ContainsOne | datacube.py:73-74 | a single name is contained iff it is a row name or a column name |
| Tables.ContainsAll | datacube.py:76-80 | a collection is contained iff every one of its names is |
| Tables.GetValue | datacube.py:46-57 | equal labels fail as a self-combination; a label not in the table fails as not contained; on a populated grid the lookup succeeds iff the labels differ, both are contained, one names a row and one names a column; a success is the grid entry at the first row naming either label and the first column naming either label |
| Tables.GetValueSymmetric | datacube.py:54-57 | `get_value(a, b) == get_value(b, a)` for every table and labels |
| Tables.GetValueAt | datacube.py:54-57 | when `a` names only a row and `b` only a column, the lookup in either order is the grid entry at `a`'s row and `b`'s column |
| Tables.Dropped | datacube.py:60-71 | a row name removes one row name and one grid row and keeps the columns; otherwise a column name removes one column name and keeps the row count; an absent name changes nothing; a populated grid stays populated; the only failure is a row name on a table whose values were never set |
| Tables.Entry | datacube.py:57 | indexing the grid succeeds iff the row exists and has the column, and then gives the entry there |
| Tables.WithoutColumn | datacube.py:70-71 | every grid row loses exactly its entry at the column position |
| Tables.EntryWithoutColumn | datacube.py:70-71 | after a column is deleted, every other entry of a row is found one position to the left when it lay right of the column, and in place otherwise |
| Tables.DroppedKeepsMembership | datacube.py:60-71 | dropping a line keeps the membership of every other name |
| Tables.DroppedKeepsLookup | datacube.py:60-71 | dropping a line keeps every lookup that does not mention the dropped name |
| Tables.DropRowKeepsLookup | datacube.py:62-65 | deleting a row not named by the lookup keeps the entry the lookup selects |
| Tables.DropColumnKeepsLookup | datacube.py:67-71 | deleting a column not named by the lookup keeps the entry the lookup selects |
| Tables.DropLineTwice | datacube.py:60-71 | on a populated table whose row names and column names have no repeats, dropping a name that is not both a row and a column name a second time changes nothing |
| Tables.DroppedElements | datacube.py:60-71 | on a clean table (no repeats, rows and columns disjoint) a drop succeeds, keeps the table clean and removes exactly the name from the row and column label sets |
| Tables.DataTable.constructor | datacube.py:22-25 | a new table has the given labels and no values |
| Tables.DataTable.Copy | datacube.py:204 | the copy holds exactly the copied table's state |
| Tables.DataTable.SetValues | datacube.py:31-44 | the outcome is the dimension check; on success the grid is replaced and on failure nothing changes |
| Tables.DataTable.DropLine | datacube.py:60-71 | succeeds exactly when the drop function does, and the new state is its result; on failure the row name is already deleted and the grid is untouched |
| Cubes.NamesAnAxis | datacube.py:117-122 | the definition of `set(names) in all_naming_sets`: the label set equals that of one of the three axes |
| Cubes.AxisCheck | datacube.py:117-123 | passes iff the row-name set and the column-name set each equal the label set of one of the three axes; a row set matching no axis is reported first |
| Cubes.Pairs | datacube.py:216 | the definition of `itertools.combinations([a, b, e], 2)`: the pairs (a, b), (a, e), (b, e), in that order |
| Cubes.Covers | datacube.py:221 | `pair in table` holds iff the table contains both labels of the pair |
| Cubes.CollectPair | datacube.py:220-222 | a successful scan over the tables for one pair yields one value per covering table |
| Cubes.CollectPairValues | datacube.py:220-222 | in a successful scan for one pair, the value at position `Hits(ts[..k], p)` is the lookup in table `k`, for every covering table `k`: the values are the covering tables' lookups in table order |
| Cubes.HitsMono | datacube.py:220-222 | a prefix of the tables covers a pair no more often than the tables before the last one |
| Cubes.CollectPairOk | datacube.py:220-222 | the scan over the tables for one pair succeeds iff every lookup in a covering table succeeds |
| Cubes.Collect | datacube.py:219-222 | a successful scan over the pairs yields one value per (pair, covering table) |
| Cubes.CollectOk | datacube.py:219-222 | the scan over the pairs succeeds iff every lookup it makes succeeds |
| Cubes.LookupsSucceedLast | datacube.py:219-222 | the lookups over a list of pairs succeed iff they succeed over all but the last pair and for the last one |
| Cubes.Mean | datacube.py:227 | the definition of `sum(results) / 3` for three values, as an exact real |
| Cubes.Derive | datacube.py:214-227 | `_compute_value` fails only with a lookup failure or with incomplete coverage; with `CubeLemmas.DeriveCoverage`, it succeeds iff every lookup succeeds and exactly three values are found |
| Cubes.CellAt | datacube.py:99-104 | out-of-range indices, negative ones included, fail as out of range and nothing else does; in-range indices give the derivation at the three labels |
| Cubes.CollectErrors | datacube.py:219-222 | a failing scan fails with a lookup failure |
| Cubes.PyIndex | datacube.py:132 | Python's indexing yields a position on the axis: the index itself when it is not negative, otherwise the index counted from the end |
| Cubes.FrontRow | datacube.py:131-132 | one row of the face has one cell per x label, and its `j`-th entry is the derived cell of the `j`-th x label |
| Cubes.FrontRowSucceeds | datacube.py:131-132 | one row of the face is gathered iff every one of its cells derives |
| Cubes.FrontRows | datacube.py:130-132 | the gathered rows hold `|x|` cells per y label |
| Cubes.FrontRowsSucceed | datacube.py:130-132 | the rows are gathered iff every cell at those y labels derives |
| Cubes.CellsDeriveLast | datacube.py:130-132 | every cell at a list of y labels derives iff every cell at all but the last label does and every cell at the last label does |
| Cubes.FrontFace | datacube.py:130-132 | the gathered rows are the face, y-major: entry `i * |x| + j` is the derived cell at the `j`-th x label and the `i`-th y label |
| Cubes.FaceAppend | datacube.py:130-132 | appending the row of the next y label to the face of the earlier ones gives the face of both |
| Cubes.Front | datacube.py:129-134 | a z level outside the axis, counted Python's way, fails as an index error; it succeeds iff the level lies on the axis and every cell of the face at that level derives; a success has `|y| * |x|` cells and holds at entry `i * |x| + j` the derived cell of the `j`-th x label, the `i`-th y label and the z label at that level |
| Cubes.Filter | datacube.py:193-196 | filtering keeps a table well formed, and a populated table always survives it populated |
| Cubes.DiceTable | datacube.py:204-208 | the dice copy of a well-formed table is well formed, and a populated one survives |
| Cubes.DicedTables | datacube.py:203-210 | on success there is one table per original table; each is that table's dice copy and passes the axis check on the new axes |
| Cubes.Diced | datacube.py:186-212 | a list that is not a subset of its axis fails; a success has exactly the requested axes, the same number of tables and satisfies the cube invariant |
| Cubes.Sliced | datacube.py:159-184 | an index outside `[0, len)`, negative ones included, fails as out of range; a slice keeps only the chosen label on its axis and the other axes whole, with the same number of tables |
| Cubes.LineIndex | datacube.py:161-172 | a label resolves to its first position and an absent label fails as unknown; an index resolves to itself iff it lies in `[0, len)`, otherwise it fails as out of range |
| Cubes.FilterLines | datacube.py:193-196 | dropping the non-allowed items in place gives the filter of the old state, and fails exactly when the filter does |
| Cubes.DataCube.constructor | datacube.py:88-92 | a new cube has the three axes and no tables |
| Cubes.DataCube.AddData | datacube.py:112-125 | the outcome is the axis check; the table's state is appended exactly on success and the tables are unchanged on failure |
| Cubes.DataCube.ComputeValue | datacube.py:214-227 | the loops return exactly the derivation of the three labels |
| Cubes.DataCube.PairValues | datacube.py:220-222 | the inner loop returns exactly the scan of the tables for one pair |
| Cubes.DataCube.Cell | datacube.py:94-110 | returns exactly the cell at the three indices |
| Cubes.DataCube.FrontValues | datacube.py:127-132 | the gathering loops return exactly the face at the z level |
| Cubes.DataCube.RowValues | datacube.py:131-132 | the inner gathering loop returns exactly one row of the face |
| Cubes.DataCube.Dice | datacube.py:186-212 | succeeds exactly when the dice function does; a success is a new cube whose state is the diced cube; the source cube is not modified |
| Cubes.DataCube.AddDicedCopy | datacube.py:203-210 | one turn of the loop of `dice`: adding the filtered copy of table `i` extends the diced tables by one, or fails with the failure of the diced tables up to `i` and leaves the new cube's tables as they were |
| Cubes.DataCube.FilteredCopy | datacube.py:204-208 | the deep copy filtered by the three axes is a new table whose state is the dice copy, and it fails exactly when the dice copy does |
| Cubes.DataCube.Slice | datacube.py:159-184 | succeeds exactly when the slice function does; a success is a new cube whose state is the slice |
| Cubes.DataCube.Item | datacube.py:230-239 | the keys `x`, `y` and `z` give their axis labels, and every other key fails |
| CubeLemmas.DeriveCoverage | datacube.py:219-227 | a derivation succeeds iff every lookup succeeds and exactly three values are found; with all lookups succeeding, any other count fails as incomplete coverage |
| CubeLemmas.CollectPairNoCover | datacube.py:220-222 | a pair that no table covers contributes no value |
| CubeLemmas.CollectPairSingleCover | datacube.py:220-222 | a pair covered by exactly one table contributes exactly that table's lookup |
| CubeLemmas.CollectThree | datacube.py:216-222 | the scan over three pairs gives what each pair contributes, in pair order |
| CubeLemmas.DeriveOfThree | datacube.py:224-227 | three collected values make the cell their mean |
| CubeLemmas.DeriveSingleCovers | datacube.py:214-227 | with complete, non-overlapping coverage the cell is the mean of the three pairwise lookups |
| CubeLemmas.FilterKeepsLookup | datacube.py:193-196 | filtering keeps membership and lookups of every label it does not drop |
| CubeLemmas.DiceTableKeepsLookup | datacube.py:204-208 | a dice copy answers every lookup of retained labels as the original table does |
| CubeLemmas.CollectPairAgree | datacube.py:220-222 | tables that agree on coverage and lookups of a pair collect the same values for it |
| CubeLemmas.CollectAgree | datacube.py:219-222 | agreement on every pair gives agreement on the whole scan |
| CubeLemmas.DiceKeepsDerive | datacube.py:186-227 | dicing keeps the derived value of every triple of retained labels |
| CubeLemmas.DicePreservesCell | datacube.py:94-110 | with axes that share no label, every cell of the diced cube equals the original cell at the same three labels |
| CubeLemmas.FilterElements | datacube.py:193-196 | on a clean table a filter succeeds, keeps it clean and removes exactly the names that are not allowed |
| CubeLemmas.DiceTableElements | datacube.py:204-208 | on a clean table the dice copy keeps exactly the labels that are not dropped |
| CubeLemmas.AxisAfterDice | datacube.py:117-123 | after the drops, a label set that was an old axis is the matching requested axis |
| CubeLemmas.DicedTablesOk | datacube.py:203-210 | clean tables on disjoint axes all survive the dice and pass `add_data` on the new axes |
| CubeLemmas.DiceSucceeds | datacube.py:186-212 | with disjoint axes and clean tables, dice succeeds iff every requested list is a subset of its axis |
| CubeLemmas.SliceByLabel | datacube.py:161-167 | slicing by a label equals slicing by that label's first position, and an absent label fails as unknown |
| CubeLemmas.SliceSucceeds | datacube.py:159-184 | with disjoint axes and clean tables, a slice succeeds iff its line resolves on the axis |
| Scenarios.ExampleConsistent | datacube.py:112-125 | the example tables pass the axis checks |
| Scenarios.ExampleClean | datacube.py:60-71 | the example tables have no repeated labels and the example axes share none |
| Scenarios.ExampleCoverAP | datacube.py:221-222 | the pair (A, P) is covered only by the X-Y table, where it looks up 1 |
| Scenarios.ExampleCoverA1 | datacube.py:221-222 | the pair (A, 1) is covered only by the X-Z table, where it looks up 9 |
| Scenarios.ExampleCoverP1 | datacube.py:221-222 | the pair (P, 1) is covered only by the Y-Z table, where it looks up 5 |
| Scenarios.TwoTablesCovers | datacube.py:221-222 | without the X-Z table, (A, P) and (P, 1) are each covered once and (A, 1) by no table |
| Scenarios.ExampleCell | datacube.py:94-110 | the first example cell is the mean of 1, 9 and 5, which is 5 |
| Scenarios.ExampleDice | datacube.py:186-212 | the dice to `A` on X succeeds and keeps the first cell at 5 |
| Scenarios.ExampleAxisMismatch | datacube.py:119-120 | a table with three X row labels matches no axis |
| Scenarios.ExampleIncomplete | datacube.py:224-225 | without the X-Z table only two values are found and the first cell fails as incomplete coverage |
| Scenarios.DoubleCoverAP | datacube.py:220-222 | two tables covering (A, P) both contribute their value, in table order |
| Scenarios.DoubleCoverOthers | datacube.py:221 | with two X-Y tables and a Y-Z table, no table covers (A, 1) and only the Y-Z table covers (P, 1) |
| Scenarios.DoubleCoverDerives | datacube.py:218-227 | with (A, P) found twice and (A, 1) not at all, three values are found and the first cell derives as the mean of 1, 100 and 5: the count check does not enforce one table per pair |

## Left out

- Cubes.DataCube.ComputeValue: returns the exact real quotient of the sum by three. The program returns `round(sum(results) / 3, 1)` (datacube.py:227), which is floating-point rounding to one decimal place.
- Cubes.Derive: the mean of three values is the exact real quotient, for the same reason.
- Cubes.Front: holds unrounded means, as the cells of the face.
- CubeLemmas.DeriveSingleCovers: states the cell as the exact mean, without the rounding to one decimal place, for the same reason.
- Cubes.DataCube.Cell: inherits the unrounded mean from the derivation.
- Cubes.DataCube.FrontValues: gathers unrounded means, as the cells of the face.
- Scenarios.DoubleCoverDerives: states the exact mean 106/3; the program rounds it to one decimal place.
- The `verbose` variant of `cell` (datacube.py:106-108) only echoes the resolved labels and is not modelled.
- The printing in `show_front` (datacube.py:134-155) and `__str__` (datacube.py:242-248) is console layout, and `Y_LABEL_LENGTH` is used only there. `Cubes.Front` and `Cubes.DataCube.FrontValues` model the gathered values. A z level outside the axis fails either in the loop or at the header line 134. Both give the same index error, which the model reports.
- The `isinstance` checks (datacube.py:96, 114, 163) and the `_is_collection` dispatch (datacube.py:16-17) are static types here. A table is looked up with a single name by `ContainsOne` and with a collection by `ContainsAll`. A line of `slice` is either an `Index` or a `Label`.
- Aliasing is not modelled. In the program, a table keeps the label lists it was built with and the grid list it was given. `add_data` stores the table object itself, so later changes to that object show in the cube. The model stores each table's state at the time of `add_data`. `dice` uses value copies, which is the effect of its `copy.deepcopy` (datacube.py:204) only on an unaliased table: `deepcopy` keeps the sharing inside the table it copies. Two cases are not captured. When two grid rows are one list (`t.values = [r, r]`), a column drop runs `del row[col]` on that list once per row (datacube.py:70-71), in the program and in the dice copy alike, while the model deletes one entry from each row. When the row names and the column names are one list, deleting a row name also deletes a column name.
- `Cubes.AxisCheck` lets the rows and the columns of one table match the same axis, as the program does (datacube.py:119-123). A second axis with an identical label set is not reported as ambiguous.
- Messages of the exceptions are not modelled; each failure is a distinct `Error` value.
