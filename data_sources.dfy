/**
 * The data a plot can be given: cell values, table rows and the data-source
 * objects (`DataSet`, `DataTable`) that the data adapters resolve to rows.
 */
module DataSources {
  import opened Numbers
  import opened Exceptions

  /** One boxed value: a number, a `DateTime` (by its tick count) or a string. */
  datatype Value = Number(n: Num) | Date(ticks: real) | Text(s: string)

  /** A table row, looked up by column name. */
  type Row = map<string, Value>

  datatype Table = Table(name: string, rows: seq<Row>)

  /** The `DataSource` object of a plot. */
  datatype Source =
    | NoSource
    | DataSet(tables: seq<Table>)
    | DataTable(rows: seq<Row>)
    | OtherSource                     // any other object

  /** `DataSet.Tables[name]`: the first table with that name. */
  function FindTable(tables: seq<Table>, name: string): (r: Option<seq<Row>>)
    ensures r.Some? <==> exists k :: 0 <= k < |tables| && tables[k].name == name
    ensures r.Some? ==> exists k :: 0 <= k < |tables| && tables[k].name == name && r.value == tables[k].rows &&
                                    forall j :: 0 <= j < k ==> tables[j].name != name
  {
    if |tables| == 0 then None
    else if tables[0].name == name then Some(tables[0].rows)
    else FindTable(tables[1..], name)
  }

  /** The rows a data adapter reads from `source`: none without a source,
      the named (or else the first) table of a `DataSet`, the rows of a
      `DataTable`, and an exception for any other object. */
  function ResolveRows(source: Source, member: Option<string>): (r: Result<Option<seq<Row>>>)
    ensures (r.Success? && r.value.None?) <==> source.NoSource?
    ensures source.DataTable? ==> r == Success(Some(source.rows))
    ensures source.OtherSource? ==> r == Failure(NPlotException("not implemented yet"))
    ensures source.DataSet? && member.None? ==>
              (r.Success? <==> |source.tables| > 0) &&
              (r.Success? ==> r.value == Some(source.tables[0].rows))
    ensures source.DataSet? && member.None? && r.Failure? ==> r.error == IndexOutOfRange
    ensures source.DataSet? && member.Some? ==>
              (r.Success? <==> exists k :: 0 <= k < |source.tables| && source.tables[k].name == member.value)
    ensures source.DataSet? && member.Some? && r.Success? ==>
              exists k :: 0 <= k < |source.tables| && source.tables[k].name == member.value &&
                          r.value == Some(source.tables[k].rows) &&
                          forall j :: 0 <= j < k ==> source.tables[j].name != member.value
    ensures source.DataSet? && member.Some? && r.Failure? ==> r.error == NullReference
  {
    match source
    case NoSource => Success(None)
    case DataSet(tables) =>
      if member.Some? then
        // a missing table is null, and reading its Rows throws
        match FindTable(tables, member.value)
        case Some(rows) => Success(Some(rows))
        case None => Failure(NullReference)
      else if |tables| == 0 then Failure(IndexOutOfRange)
      else Success(Some(tables[0].rows))
    case DataTable(rows) => Success(Some(rows))
    case OtherSource => Failure(NPlotException("not implemented yet"))
  }

  /** `row[column]` */
  function Cell(row: Row, column: string): (r: Result<Value>)
    ensures r.Success? <==> column in row
    ensures r.Success? ==> r.value == row[column]
  {
    if column in row then Success(row[column]) else Failure(ArgumentError)
  }

  /** The conversion of a boxed value to a double: a number is itself and a
      `DateTime` its tick count; converting text is not modelled and fails. */
  function ToDouble(v: Value): (r: Result<Num>)
    ensures r.Success? <==> !v.Text?
  {
    match v
    case Number(n) => Success(n)
    case Date(t) => Success(Val(t))
    case Text(_) => Failure(InvalidCast)
  }
}
