/** The byte stream a CSV printer produces for a sequence of records.
    The printer itself (Apache Commons CSV with its default, RFC 4180 style
    format, writing UTF-8) is a foreign library: it is taken here as an
    abstract row encoder whose only known property is that every printed
    row is non-empty, since each one ends with the record separator. */
module CsvFormat {

  newtype byte = x: int | 0 <= x < 256

  type Bytes = seq<byte>

  /** A row printer: the bytes `printRecord` emits for one row of fields. */
  type Encoder = f: seq<string> -> Bytes | forall fields :: |f(fields)| > 0
    witness (fields: seq<string>) => [13 as byte, 10 as byte]

  /** A record handed to the sink: its column names and its field values. */
  datatype CsvRecord = CsvRecord(columnNames: seq<string>, values: seq<string>)

  /** The header row printed for a record: its column names as a row. */
  function Header(encode: Encoder, r: CsvRecord): (h: Bytes)
    ensures |h| > 0
  {
    encode(r.columnNames)
  }

  /** The value rows of `rs`, one after the other. */
  function Rows(encode: Encoder, rs: seq<CsvRecord>): (b: Bytes)
    ensures |b| >= |rs|
    ensures b == [] <==> rs == []
  {
    if rs == [] then [] else encode(rs[0].values) + Rows(encode, rs[1..])
  }

  /** What a buffer holds after the records `rs` were written since its last
      reset: the header of the first record when the buffer prints one, then
      every record's values row. */
  function Render(encode: Encoder, printHeader: bool, rs: seq<CsvRecord>): Bytes
  {
    if printHeader && rs != [] then Header(encode, rs[0]) + Rows(encode, rs)
    else Rows(encode, rs)
  }

  /** Rows grow by appending: a further record only adds its own row. */
  lemma {:induction false} RowsAppend(encode: Encoder, rs: seq<CsvRecord>, r: CsvRecord)
    ensures Rows(encode, rs + [r]) == Rows(encode, rs) + encode(r.values)
  {
    if rs == [] {
      assert [] + [r] == [r];
    } else {
      assert (rs + [r])[1..] == rs[1..] + [r];
      RowsAppend(encode, rs[1..], r);
    }
  }

  /** Writing one more record appends the header (only before the first
      record, and only when the buffer prints one) and then the record's row;
      the bytes already there are unchanged. */
  lemma RenderAppend(encode: Encoder, printHeader: bool, rs: seq<CsvRecord>, r: CsvRecord)
    ensures Render(encode, printHeader, rs + [r])
         == Render(encode, printHeader, rs)
            + (if printHeader && rs == [] then Header(encode, r) else [])
            + encode(r.values)
  {
    RowsAppend(encode, rs, r);
    if rs != [] {
      assert (rs + [r])[0] == rs[0];
    }
  }

  /** A rendered batch with a header starts with the header of its first
      record and holds nothing else before that record's row. */
  lemma RenderStartsWithHeader(encode: Encoder, rs: seq<CsvRecord>)
    requires rs != []
    ensures var h := Header(encode, rs[0]);
      |Render(encode, true, rs)| >= |h| + |encode(rs[0].values)|
      && Render(encode, true, rs)[..|h|] == h
      && Render(encode, true, rs)[|h|..|h| + |encode(rs[0].values)|] == encode(rs[0].values)
  {
    var h := Header(encode, rs[0]);
    var v := encode(rs[0].values);
    assert Render(encode, true, rs) == h + (v + Rows(encode, rs[1..]));
  }

  /** A single record rendered without a header is exactly its own row, which
      is what the size probe of the sink measures. */
  lemma HeaderlessSingle(encode: Encoder, r: CsvRecord)
    ensures Render(encode, false, [r]) == encode(r.values)
  {
    assert [r][1..] == [];
  }
}
