/** The boundary to the embedded SQL engine (`SqlStorage`). Its semantics are
    not modelled: an engine is an arbitrary function from its state and one
    `exec` call to a cursor or a thrown error, together with the state it
    leaves behind. */
module Engine {
  import opened Options

  /** `SqlStorageValue`: an ArrayBuffer, a string, a number or null. */
  datatype SqlValue =
    | SqlNull
    | SqlNumber(n: real)
    | SqlText(s: string)
    | SqlBlob(bytes: seq<bv8>)

  type Row = seq<SqlValue>

  /** One row as `cursor.toArray()` presents it: column name to cell. */
  type Record = map<string, SqlValue>

  /** What a cursor exposes to the adapter: the column names, the rows that
      `raw()` iterates (positional), the rows that `toArray()` returns
      (keyed), and the read/write counters of the statement. */
  datatype Cursor = Cursor(
    columnNames: seq<string>,
    raw: seq<Row>,
    records: seq<Record>,
    rowsRead: nat,
    rowsWritten: nat)

  datatype EngineError = EngineError(message: string)

  /** The two shapes of call the adapter makes: `exec(sql)` and
      `exec(sql, ...bindings)`. An absent `sql` field is passed on as is. */
  datatype Call =
    | Exec(sql: Option<string>)
    | ExecWith(sql: Option<string>, bindings: seq<SqlValue>)

  /** The positional arguments the engine receives after the SQL text. */
  function Arguments(c: Call): seq<SqlValue> {
    match c
    case Exec(_) => []
    case ExecWith(_, bindings) => bindings
  }

  /** The settled result of one `exec` call. A failed call also names a state:
      nothing here assumes that a rejected statement left the engine untouched. */
  datatype Step<S> =
    | Produced(cursor: Cursor, state: S)
    | Raised(error: EngineError, state: S)

  type ExecFn<!S> = (S, Call) -> Step<S>
}
