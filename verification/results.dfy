/** The value `executeQuery` hands back for one statement, and the
    JavaScript value it is on the wire. */
module Results {
  import opened Options
  import opened Js
  import opened Engine

  datatype Meta = Meta(rowsRead: nat, rowsWritten: nat)

  /** Raw mode gives `{columns, rows, meta}`; object mode gives the array of
      keyed rows. */
  datatype QueryResult =
    | Raw(columns: seq<string>, rows: seq<Row>, meta: Meta)
    | Records(records: seq<Record>)

  /** The `[]` returned when there is no cursor: as a JavaScript value it is
      the same empty array an empty `toArray()` would give. */
  const NoResult: QueryResult := Records([])

  /** Shapes a cursor: raw mode copies the column names, every raw row in
      cursor order and both counters; object mode takes `toArray()`. */
  function Shape(c: Cursor, isRaw: bool): (r: QueryResult)
    ensures isRaw ==> r.Raw? && r.columns == c.columnNames && r.rows == c.raw
                      && r.meta.rowsRead == c.rowsRead && r.meta.rowsWritten == c.rowsWritten
    ensures !isRaw ==> r.Records? && r.records == c.records
  {
    if isRaw then Raw(c.columnNames, c.raw, Meta(c.rowsRead, c.rowsWritten))
    else Records(c.records)
  }

  // ---------------------------------------------------------------------
  // The JavaScript value of a result, and a decoder reading it back
  // ---------------------------------------------------------------------

  function EncodeAll<T>(xs: seq<T>, enc: T -> JsValue): (r: seq<JsValue>)
    ensures |r| == |xs|
    ensures forall i :: 0 <= i < |xs| ==> r[i] == enc(xs[i])
  {
    if xs == [] then [] else [enc(xs[0])] + EncodeAll(xs[1..], enc)
  }

  /** Decodes every element, failing as soon as one element fails. */
  function DecodeAll<T>(js: seq<JsValue>, dec: JsValue -> Option<T>): (r: Option<seq<T>>)
    ensures r.Some? ==> |r.value| == |js|
  {
    if js == [] then Some([])
    else
      match dec(js[0])
      case Nothing => Nothing
      case Some(x) =>
        match DecodeAll(js[1..], dec)
        case Nothing => Nothing
        case Some(xs) => Some([x] + xs)
  }

  lemma {:induction false} DecodeAllEncodeAll<T>(xs: seq<T>, enc: T -> JsValue, dec: JsValue -> Option<T>)
    requires forall x :: dec(enc(x)) == Some(x)
    ensures DecodeAll(EncodeAll(xs, enc), dec) == Some(xs)
  {
    if xs != [] {
      var js := EncodeAll(xs, enc);
      assert js[0] == enc(xs[0]);
      assert js[1..] == EncodeAll(xs[1..], enc);
      DecodeAllEncodeAll(xs[1..], enc, dec);
      assert [xs[0]] + xs[1..] == xs;
    }
  }

  function EncodeCell(v: SqlValue): JsValue {
    match v
    case SqlNull => Null
    case SqlNumber(n) => Number(n)
    case SqlText(s) => Str(s)
    case SqlBlob(b) => Bytes(b)
  }

  function DecodeCell(j: JsValue): (r: Option<SqlValue>)
    ensures forall v :: j == EncodeCell(v) ==> r == Some(v)
  {
    match j
    case Null => Some(SqlNull)
    case Number(n) => Some(SqlNumber(n))
    case Str(s) => Some(SqlText(s))
    case Bytes(b) => Some(SqlBlob(b))
    case _ => Nothing
  }

  function EncodeName(name: string): JsValue {
    Str(name)
  }

  function DecodeName(j: JsValue): Option<string> {
    if j.Str? then Some(j.s) else Nothing
  }

  function EncodeRow(row: Row): JsValue {
    Array(EncodeAll(row, EncodeCell))
  }

  function DecodeRow(j: JsValue): Option<Row> {
    if j.Array? then DecodeAll(j.elems, DecodeCell) else Nothing
  }

  function EncodeRecord(m: Record): JsValue {
    Object(map k | k in m :: EncodeCell(m[k]))
  }

  function DecodeRecord(j: JsValue): Option<Record> {
    if j.Object? && forall k | k in j.fields :: DecodeCell(j.fields[k]).Some? then
      Some(map k | k in j.fields :: DecodeCell(j.fields[k]).value)
    else Nothing
  }

  /** A counter as a JavaScript number. */
  function EncodeCount(n: nat): JsValue {
    Number(n as real)
  }

  function DecodeCount(j: JsValue): Option<nat> {
    if j.Number? && 0.0 <= j.n && j.n.Floor as real == j.n then Some(j.n.Floor) else Nothing
  }

  /** `{rows_read, rows_written}` */
  function EncodeMeta(meta: Meta): JsValue {
    Object(map["rows_read" := EncodeCount(meta.rowsRead), "rows_written" := EncodeCount(meta.rowsWritten)])
  }

  function DecodeMeta(j: JsValue): Option<Meta> {
    if j.Object? && "rows_read" in j.fields && "rows_written" in j.fields then
      var read := DecodeCount(j.fields["rows_read"]);
      var written := DecodeCount(j.fields["rows_written"]);
      if read.Some? && written.Some? then Some(Meta(read.value, written.value)) else Nothing
    else Nothing
  }

  /** The object literal `{columns, rows, meta: {rows_read, rows_written}}` of
      raw mode, or the array of row objects of object mode. Either is a
      container, so never falsy. */
  function Encode(q: QueryResult): (j: JsValue)
    ensures Truthy(j)
    ensures q.Raw? ==> j.Object? && j.fields.Keys == {"columns", "rows", "meta"}
    ensures q.Records? ==> j.Array? && |j.elems| == |q.records|
  {
    match q
    case Raw(columns, rows, meta) =>
      Object(map[
        "columns" := Array(EncodeAll(columns, EncodeName)),
        "rows" := Array(EncodeAll(rows, EncodeRow)),
        "meta" := EncodeMeta(meta)])
    case Records(records) =>
      Array(EncodeAll(records, EncodeRecord))
  }

  /** How the JavaScript value of a result is read back. */
  function Decode(j: JsValue): Option<QueryResult> {
    match j
    case Object(f) =>
      if "columns" in f && "rows" in f && "meta" in f && f["columns"].Array? && f["rows"].Array? then
        var columns := DecodeAll(f["columns"].elems, DecodeName);
        var rows := DecodeAll(f["rows"].elems, DecodeRow);
        var meta := DecodeMeta(f["meta"]);
        if columns.Some? && rows.Some? && meta.Some? then Some(Raw(columns.value, rows.value, meta.value))
        else Nothing
      else Nothing
    case Array(elems) =>
      (match DecodeAll(elems, DecodeRecord)
       case Some(records) => Some(Records(records))
       case Nothing => Nothing)
    case _ => Nothing
  }

  lemma DecodeRowEncodeRow(row: Row)
    ensures DecodeRow(EncodeRow(row)) == Some(row)
  {
    forall v: SqlValue ensures DecodeCell(EncodeCell(v)) == Some(v) {}
    DecodeAllEncodeAll(row, EncodeCell, DecodeCell);
  }

  lemma DecodeRecordEncodeRecord(m: Record)
    ensures DecodeRecord(EncodeRecord(m)) == Some(m)
  {
    var j := EncodeRecord(m);
    assert j.fields.Keys == m.Keys;
    forall k | k in j.fields ensures DecodeCell(j.fields[k]) == Some(m[k]) {
      assert j.fields[k] == EncodeCell(m[k]);
    }
    var d := map k | k in j.fields :: DecodeCell(j.fields[k]).value;
    assert d == m;
  }

  lemma DecodeMetaEncodeMeta(meta: Meta)
    ensures DecodeMeta(EncodeMeta(meta)) == Some(meta)
  {}

  lemma DecodeNamesEncodeNames(columns: seq<string>)
    ensures DecodeAll(EncodeAll(columns, EncodeName), DecodeName) == Some(columns)
  {
    DecodeAllEncodeAll(columns, EncodeName, DecodeName);
  }

  lemma DecodeRowsEncodeRows(rows: seq<Row>)
    ensures DecodeAll(EncodeAll(rows, EncodeRow), DecodeRow) == Some(rows)
  {
    forall row: Row ensures DecodeRow(EncodeRow(row)) == Some(row) {
      DecodeRowEncodeRow(row);
    }
    DecodeAllEncodeAll(rows, EncodeRow, DecodeRow);
  }

  lemma DecodeEncodeRaw(columns: seq<string>, rows: seq<Row>, meta: Meta)
    ensures Decode(Encode(Raw(columns, rows, meta))) == Some(Raw(columns, rows, meta))
  {
    var cols, rws := EncodeAll(columns, EncodeName), EncodeAll(rows, EncodeRow);
    DecodeNamesEncodeNames(columns);
    DecodeRowsEncodeRows(rows);
    DecodeMetaEncodeMeta(meta);
    var f := map["columns" := Array(cols), "rows" := Array(rws), "meta" := EncodeMeta(meta)];
    assert Encode(Raw(columns, rows, meta)) == Object(f);
    assert f["columns"] == Array(cols) && f["rows"] == Array(rws) && f["meta"] == EncodeMeta(meta);
  }

  lemma DecodeEncodeRecords(records: seq<Record>)
    ensures Decode(Encode(Records(records))) == Some(Records(records))
  {
    forall m: Record ensures DecodeRecord(EncodeRecord(m)) == Some(m) {
      DecodeRecordEncodeRecord(m);
    }
    DecodeAllEncodeAll(records, EncodeRecord, DecodeRecord);
  }

  /** Nothing is lost in the JavaScript value: column names, every row and
      cell in order, both counters, and every keyed row read back exactly. */
  lemma DecodeEncode(q: QueryResult)
    ensures Decode(Encode(q)) == Some(q)
  {
    match q
    case Raw(columns, rows, meta) => DecodeEncodeRaw(columns, rows, meta);
    case Records(records) => DecodeEncodeRecords(records);
  }
}
