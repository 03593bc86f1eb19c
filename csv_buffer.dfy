/** The sink's resettable, append-only CSV buffer: a byte stream that a CSV
    printer appends rows to, a record counter, and a one-shot flag telling
    whether the header row is still to be printed. */
module CsvBuffers {
  import opened CsvFormat

  class CsvBuffer {
    /** Whether a header row is printed before the first record. */
    const printHeader: bool
    /** The row printer (a fresh printer over the same stream after every reset
        prints rows the same way). */
    const encode: Encoder

    /** The bytes in the underlying byte-array stream. */
    var stream: Bytes
    /** True once no header is pending any more. */
    var headerPrinted: bool
    var recordsCount: nat

    /** The records written since the last reset, in order. */
    ghost var records: seq<CsvRecord>

    ghost predicate Valid()
      reads this
    {
      && recordsCount == |records|
      && headerPrinted == (!printHeader || records != [])
      && stream == Render(encode, printHeader, records)
    }

    constructor (printHeader: bool, encode: Encoder)
      ensures Valid()
      ensures this.printHeader == printHeader && this.encode == encode
      ensures records == [] && stream == [] && recordsCount == 0
      ensures headerPrinted == !printHeader
    {
      this.printHeader := printHeader;
      this.encode := encode;
      new;
      Reset();
    }

    /** Prints the header first if it is pending, then the record's row. */
    method Write(r: CsvRecord)
      requires Valid()
      modifies this
      ensures Valid()
      ensures stream == old(stream)
                        + (if old(headerPrinted) then [] else Header(encode, r))
                        + encode(r.values)
      ensures |stream| > old(|stream|)
      ensures recordsCount == old(recordsCount) + 1
      ensures headerPrinted
      ensures records == old(records) + [r]
    {
      RenderAppend(encode, printHeader, records, r);
      if !headerPrinted {
        stream := stream + Header(encode, r);
        headerPrinted := true;
      }
      stream := stream + encode(r.values);
      recordsCount := recordsCount + 1;
      records := records + [r];
    }

    /** Empties the stream and the counter; the header is pending again
        exactly when this buffer prints one. */
    method Reset()
      modifies this
      ensures Valid()
      ensures stream == [] && recordsCount == 0 && records == []
      ensures headerPrinted == !printHeader
    {
      headerPrinted := !printHeader;
      recordsCount := 0;
      stream := [];
      records := [];
    }

    method Size() returns (n: nat)
      requires Valid()
      ensures n == |stream| == |Render(encode, printHeader, records)|
    {
      n := |stream|;
    }

    method GetRecordsCount() returns (n: nat)
      requires Valid()
      ensures n == |records|
    {
      n := recordsCount;
    }

    /** A copy of the current contents; the buffer is left as it is. */
    method GetByteArray() returns (b: Bytes)
      requires Valid()
      ensures b == Render(encode, printHeader, records)
      ensures |b| == |stream|
    {
      b := stream;
    }
  }
}
