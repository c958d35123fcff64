/** The failures the data cube raises, one constructor per distinct raise site,
    and the two failure-carrying wrappers used by every operation. */
module Errors {

  datatype Error =
    | RowCountMismatch      // values setter: number of rows differs from the row names
    | EmptyGrid             // values setter: the grid has no first row to measure
    | ColumnCountMismatch   // values setter: first row differs from the column names
    | RaggedRows            // values setter: some row differs in length from the first
    | SelfCombination       // get_value: both labels are the same
    | NotInTable            // get_value: a label is neither a row nor a column name
    | NoMatchingRow         // get_value: neither label names a row (the row scan runs dry)
    | NoMatchingColumn      // get_value: neither label names a column (the column scan runs dry)
    | IndexOutOfRange       // a list index past the end (a table whose values were never set)
    | RowsMatchNoAxis       // add_data: row names are not the label set of any axis
    | ColumnsMatchNoAxis    // add_data: column names are not the label set of any axis
    | CoordinateOutOfRange  // cell: an index outside 0 .. len - 1 of its axis
    | IncompleteCoverage    // _compute_value: not exactly three pairwise values were found
    | NotASubset            // dice: requested labels are not all on the axis
    | UnknownLabel          // slice: the label is not on the axis
    | LineOutOfRange        // slice: the index is outside 0 .. len - 1 of the axis
    | UnsupportedKey        // bracket access with a key other than x, y or z

  datatype Result<T> = Ok(value: T) | Err(error: Error)

  datatype Outcome = Pass | Fail(error: Error)
}
