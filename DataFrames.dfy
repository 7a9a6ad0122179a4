/** Abstract stand-ins for the pandas values the pipeline passes around. */
module DataFrames {

  datatype Option<T> = None | Some(value: T)

  /** A DataFrame, abstracted to its shape. */
  datatype Table = Table(rows: nat, cols: nat) {

    /** pandas' `df.empty`: true when either axis has length zero. */
    predicate Empty() {
      rows == 0 || cols == 0
    }

    /** `df.shape[0] * df.shape[1]`, the cell count. */
    function Area(): nat {
      rows * cols
    }
  }

  /** `pd.DataFrame()`: no rows and no columns. */
  const EmptyTable: Table := Table(0, 0)

  /** A named worksheet of a workbook and the table `pd.read_excel` reads from it. */
  datatype Sheet = Sheet(name: string, table: Table)

  /** What pandas can make of a file's bytes. */
  datatype Contents =
    | Workbook(sheets: seq<Sheet>)   // readable by `pd.ExcelFile`, sheets in workbook order
    | Document(tables: seq<Table>)   // readable by `pd.read_html`, tables in document order
    | Unreadable                     // neither

  /** The exceptions that escape a loader; none of them is caught by the pipeline. */
  datatype Fault =
    | ParseFault       // pandas cannot read the file in the format its extension names
    | NoTables         // `pd.read_html` finds no table in the document
    | MaxIndexUnbound  // `max_index` is read before it was ever assigned (UnboundLocalError)
    | NoSubLoader      // `df` is read unassigned: a listed extension with no sub-loader

  datatype Result<T> = Ok(value: T) | Err(fault: Fault)
}
