/** The sink's record writer: records are gathered into a CSV buffer with a
    header and uploaded to the destination stage in batches, a new batch
    being started when the next row would push the current one past the
    configured maximum file size. A second, header-less buffer measures how
    many bytes one record adds. */
module SinkWriter {
  import opened CsvFormat
  import opened CsvBuffers

  /** All batches, concatenated in order. */
  function Flatten(bs: seq<seq<CsvRecord>>): (rs: seq<CsvRecord>)
  {
    if bs == [] then [] else bs[0] + Flatten(bs[1..])
  }

  lemma {:induction false} FlattenAppend(bs: seq<seq<CsvRecord>>, b: seq<CsvRecord>)
    ensures Flatten(bs + [b]) == Flatten(bs) + b
  {
    if bs == [] {
      assert [] + [b] == [b];
      assert [b][1..] == [];
    } else {
      assert (bs + [b])[1..] == bs[1..] + [b];
      FlattenAppend(bs[1..], b);
    }
  }

  /** One upload per batch, and no batch is empty. */
  ghost predicate Aligned(uploads: seq<Bytes>, batches: seq<seq<CsvRecord>>)
  {
    |uploads| == |batches| && forall i :: 0 <= i < |batches| ==> batches[i] != []
  }

  /** Each upload is the header and rows of a non-empty batch, and only a
      single-record batch may exceed a positive bound. */
  ghost predicate Uploaded(encode: Encoder, maxFileSize: int, uploads: seq<Bytes>, batches: seq<seq<CsvRecord>>)
  {
    && Aligned(uploads, batches)
    && (forall i :: 0 <= i < |batches| ==> uploads[i] == Render(encode, true, batches[i]))
    && (forall i :: 0 <= i < |batches| && maxFileSize > 0 && |batches[i]| >= 2 ==>
          |uploads[i]| <= maxFileSize)
  }

  lemma UploadedAppend(encode: Encoder, maxFileSize: int, uploads: seq<Bytes>, batches: seq<seq<CsvRecord>>,
                       u: Bytes, b: seq<CsvRecord>)
    requires Uploaded(encode, maxFileSize, uploads, batches)
    requires b != [] && u == Render(encode, true, b)
    requires maxFileSize > 0 && |b| >= 2 ==> |u| <= maxFileSize
    ensures Uploaded(encode, maxFileSize, uploads + [u], batches + [b])
  {
  }

  class RecordWriter {
    /** The configured maximum file size; zero or less means unbounded. */
    const maxFileSize: int
    const encode: Encoder
    /** The main buffer, created with a header. */
    const buffer: CsvBuffer
    /** The size-check buffer, created without a header. */
    const sizeCheck: CsvBuffer

    /** The bytes of every upload to the destination stage, in order. */
    var uploads: seq<Bytes>
    /** The records of every uploaded batch, in order. */
    ghost var batches: seq<seq<CsvRecord>>
    /** Every record passed to Write, in order. */
    ghost var written: seq<CsvRecord>

    ghost predicate Valid()
      reads this, buffer, sizeCheck
    {
      && buffer != sizeCheck
      && buffer.Valid()
      && buffer.printHeader && !sizeCheck.printHeader
      && buffer.encode == encode && sizeCheck.encode == encode
      // nothing is lost, duplicated or reordered
      && Flatten(batches) + buffer.records == written
      && Uploaded(encode, maxFileSize, uploads, batches)
      // only a single-record batch may exceed the bound
      && (maxFileSize > 0 && |buffer.records| >= 2 ==> |buffer.stream| <= maxFileSize)
    }

    /** Whether writing `r` next uploads the current batch first: the bound is
        set and the current bytes plus the row of `r` (the pending header is
        not counted) exceed it, and the batch holds a record. */
    ghost predicate FlushesBefore(r: CsvRecord)
      reads this, buffer
    {
      maxFileSize > 0 && |buffer.stream| + |encode(r.values)| > maxFileSize && buffer.records != []
    }

    constructor (maxFileSize: int, encode: Encoder)
      ensures Valid() && fresh(buffer) && fresh(sizeCheck)
      ensures this.maxFileSize == maxFileSize && this.encode == encode
      ensures uploads == [] && batches == [] && written == []
      ensures buffer.records == [] && buffer.stream == [] && !buffer.headerPrinted
    {
      this.maxFileSize := maxFileSize;
      this.encode := encode;
      buffer := new CsvBuffer(true, encode);
      sizeCheck := new CsvBuffer(false, encode);
      uploads := [];
      batches := [];
      written := [];
    }

    method Write(r: CsvRecord)
      requires Valid()
      modifies this, buffer, sizeCheck
      ensures Valid()
      ensures written == old(written) + [r]
      ensures uploads == old(uploads) + (if old(FlushesBefore(r)) then [old(buffer.stream)] else [])
      ensures batches == old(batches) + (if old(FlushesBefore(r)) then [old(buffer.records)] else [])
      ensures buffer.records == (if old(FlushesBefore(r)) then [] else old(buffer.records)) + [r]
      ensures maxFileSize <= 0 ==> uploads == old(uploads)
      ensures sizeCheck.Valid()
      ensures sizeCheck.records == [r] && sizeCheck.stream == encode(r.values)
    {
      var probe := MeasureRow(r);
      var current := buffer.Size();
      if maxFileSize > 0 && current + probe > maxFileSize {
        SubmitCurrentBatch();
      }
      Append(r);
    }

    /** Resets the size-check buffer and writes `r` to it alone; its size is
        then the length of the row of `r`. */
    method MeasureRow(r: CsvRecord) returns (n: nat)
      requires Valid()
      modifies sizeCheck
      ensures Valid()
      ensures n == |encode(r.values)|
      ensures sizeCheck.Valid()
      ensures sizeCheck.records == [r] && sizeCheck.stream == encode(r.values)
    {
      sizeCheck.Reset();
      sizeCheck.Write(r);
      n := sizeCheck.Size();
    }

    /** Writes `r` to the main buffer, which keeps the bound unless `r` is the
        only record in it. */
    method Append(r: CsvRecord)
      requires Valid()
      requires maxFileSize > 0 && buffer.records != [] ==> |buffer.stream| + |encode(r.values)| <= maxFileSize
      modifies this, buffer
      ensures Valid()
      ensures written == old(written) + [r] && buffer.records == old(buffer.records) + [r]
      ensures uploads == old(uploads) && batches == old(batches)
    {
      assert Flatten(batches) + (buffer.records + [r]) == (Flatten(batches) + buffer.records) + [r];
      buffer.Write(r);
      written := written + [r];
    }

    /** Uploads the main buffer and resets it, unless it holds no record. */
    method SubmitCurrentBatch()
      requires Valid()
      modifies this, buffer
      ensures Valid()
      ensures written == old(written)
      ensures old(buffer.records) != [] ==>
        && uploads == old(uploads) + [old(buffer.stream)]
        && batches == old(batches) + [old(buffer.records)]
        && buffer.records == [] && buffer.stream == [] && buffer.recordsCount == 0
        && !buffer.headerPrinted
      ensures old(buffer.records) == [] ==>
        uploads == old(uploads) && batches == old(batches) && unchanged(buffer)
    {
      var count := buffer.GetRecordsCount();
      if count != 0 {
        var bytes := buffer.GetByteArray();
        FlattenAppend(batches, buffer.records);
        UploadedAppend(encode, maxFileSize, uploads, batches, bytes, buffer.records);
        uploads := uploads + [bytes];
        batches := batches + [buffer.records];
        buffer.Reset();
      }
    }

    /** Uploads whatever remains. */
    method Close()
      requires Valid()
      modifies this, buffer
      ensures Valid()
      ensures written == old(written)
      ensures uploads == old(uploads) + (if old(buffer.records) != [] then [old(buffer.stream)] else [])
      ensures batches == old(batches) + (if old(buffer.records) != [] then [old(buffer.records)] else [])
      ensures buffer.records == [] && Flatten(batches) == written
    {
      SubmitCurrentBatch();
    }
  }

  /** Every uploaded batch but the last was full: the first record of the
      next batch would have pushed it past the bound. */
  ghost predicate Greedy(encode: Encoder, maxFileSize: int, uploads: seq<Bytes>, batches: seq<seq<CsvRecord>>)
    requires Aligned(uploads, batches)
  {
    forall i, j :: 0 <= i && j == i + 1 && j < |batches| ==>
      maxFileSize > 0 && |uploads[i]| + |encode(batches[j][0].values)| > maxFileSize
  }

  lemma GreedyAppend(encode: Encoder, maxFileSize: int, uploads: seq<Bytes>, batches: seq<seq<CsvRecord>>,
                     u: Bytes, b: seq<CsvRecord>)
    requires Aligned(uploads, batches) && Greedy(encode, maxFileSize, uploads, batches)
    requires b != []
    requires batches != [] ==>
      maxFileSize > 0 && |uploads[|uploads| - 1]| + |encode(b[0].values)| > maxFileSize
    ensures Aligned(uploads + [u], batches + [b])
    ensures Greedy(encode, maxFileSize, uploads + [u], batches + [b])
  {
    var us: seq<Bytes>, bs: seq<seq<CsvRecord>> := uploads + [u], batches + [b];
    assert forall i :: 0 <= i < |bs| ==> bs[i] == if i < |batches| then batches[i] else b;
    forall i, j | 0 <= i && j == i + 1 && j < |bs|
      ensures maxFileSize > 0 && |us[i]| + |encode(bs[j][0].values)| > maxFileSize
    {
      if j < |batches| {
        assert us[i] == uploads[i] && bs[j] == batches[j];
      }
    }
  }

  /** What holds between two writes of one task attempt, given the uploads,
      the batches and the pending records: every batch uploaded so far was
      full, up to the first pending record, and nothing is uploaded before
      the buffer first fills up. */
  ghost predicate Settled(encode: Encoder, maxFileSize: int, uploads: seq<Bytes>, batches: seq<seq<CsvRecord>>,
                          pending: seq<CsvRecord>)
    requires Uploaded(encode, maxFileSize, uploads, batches)
  {
    && Greedy(encode, maxFileSize, uploads, batches)
    && (batches != [] && pending != [] ==>
          maxFileSize > 0 && |uploads[|uploads| - 1]| + |encode(pending[0].values)| > maxFileSize)
    && (pending == [] ==> batches == [])
    && (maxFileSize <= 0 ==> batches == [])
  }

  /** A write keeps the upload log settled: the batch it may upload was full,
      and the record it appends is pending afterwards. */
  lemma SettledAfterWrite(encode: Encoder, maxFileSize: int, uploads: seq<Bytes>, batches: seq<seq<CsvRecord>>,
                          pending: seq<CsvRecord>, r: CsvRecord, flush: bool,
                          uploads': seq<Bytes>, batches': seq<seq<CsvRecord>>, pending': seq<CsvRecord>)
    requires Uploaded(encode, maxFileSize, uploads, batches)
    requires Settled(encode, maxFileSize, uploads, batches, pending)
    requires flush == (maxFileSize > 0 && |Render(encode, true, pending)| + |encode(r.values)| > maxFileSize
                       && pending != [])
    requires uploads' == uploads + (if flush then [Render(encode, true, pending)] else [])
    requires batches' == batches + (if flush then [pending] else [])
    requires pending' == (if flush then [] else pending) + [r]
    requires Uploaded(encode, maxFileSize, uploads', batches')
    ensures Settled(encode, maxFileSize, uploads', batches', pending')
  {
    if flush {
      GreedyAppend(encode, maxFileSize, uploads, batches, Render(encode, true, pending), pending);
      assert pending'[0] == r;
    } else {
      assert pending != [] ==> pending'[0] == pending[0];
    }
  }

  /** Closing a settled writer leaves a complete upload log: the batches hold
      every record in order, and all but the last batch were full. */
  lemma SettledAfterClose(encode: Encoder, maxFileSize: int, records: seq<CsvRecord>,
                          uploads: seq<Bytes>, batches: seq<seq<CsvRecord>>, pending: seq<CsvRecord>,
                          uploads': seq<Bytes>, batches': seq<seq<CsvRecord>>)
    requires Uploaded(encode, maxFileSize, uploads, batches)
    requires Settled(encode, maxFileSize, uploads, batches, pending)
    requires Flatten(batches) + pending == records
    requires uploads' == uploads + (if pending != [] then [Render(encode, true, pending)] else [])
    requires batches' == batches + (if pending != [] then [pending] else [])
    requires Uploaded(encode, maxFileSize, uploads', batches')
    ensures Flatten(batches') == records
    ensures Greedy(encode, maxFileSize, uploads', batches')
    ensures maxFileSize <= 0 ==> batches' == (if records == [] then [] else [records])
    ensures uploads' == [] <==> records == []
  {
    FlattenAppend(batches, pending);
    if pending != [] {
      GreedyAppend(encode, maxFileSize, uploads, batches, Render(encode, true, pending), pending);
    } else {
      assert batches == [] && Flatten(batches) == [];
    }
    if maxFileSize <= 0 {
      assert batches == [] && Flatten(batches) == [];
      assert pending == records;
      assert [] + [pending] == [pending];
    }
  }

  /** One write of the host's loop keeps the writer settled. */
  method WriteStep(w: RecordWriter, r: CsvRecord)
    requires w.Valid() && Settled(w.encode, w.maxFileSize, w.uploads, w.batches, w.buffer.records)
    modifies w, w.buffer, w.sizeCheck
    ensures w.Valid() && Settled(w.encode, w.maxFileSize, w.uploads, w.batches, w.buffer.records)
    ensures w.written == old(w.written) + [r]
  {
    ghost var uploads, batches, pending := w.uploads, w.batches, w.buffer.records;
    ghost var flush := w.FlushesBefore(r);
    assert w.buffer.stream == Render(w.encode, true, pending);
    w.Write(r);
    SettledAfterWrite(w.encode, w.maxFileSize, uploads, batches, pending, r, flush,
                      w.uploads, w.batches, w.buffer.records);
  }

  /** Splitting off the first record of `rest`; kept out of `WriteRecords`,
      whose heap context makes this sequence step costly there. */
  lemma AppendFirst(done: seq<CsvRecord>, rest: seq<CsvRecord>)
    requires rest != []
    ensures done + [rest[0]] + rest[1..] == done + rest
  {
    assert [rest[0]] + rest[1..] == rest;
  }

  /** The host's loop over the records of one task attempt: each of `rest`
      is written in order. */
  method WriteRecords(w: RecordWriter, rest: seq<CsvRecord>)
    requires w.Valid() && Settled(w.encode, w.maxFileSize, w.uploads, w.batches, w.buffer.records)
    modifies w, w.buffer, w.sizeCheck
    ensures w.Valid() && Settled(w.encode, w.maxFileSize, w.uploads, w.batches, w.buffer.records)
    ensures w.written == old(w.written) + rest
    decreases |rest|
  {
    if rest == [] {
      assert old(w.written) + [] == old(w.written);
    } else {
      WriteStep(w, rest[0]);
      WriteRecords(w, rest[1..]);
      AppendFirst(old(w.written), rest);
    }
  }

  /** One task attempt of the sink: a fresh writer, every record written in
      order, then the writer closed. Returns what was uploaded. */
  method WriteAll(maxFileSize: int, encode: Encoder, records: seq<CsvRecord>)
    returns (uploads: seq<Bytes>, ghost batches: seq<seq<CsvRecord>>)
    ensures Flatten(batches) == records
    ensures Uploaded(encode, maxFileSize, uploads, batches)
    ensures Greedy(encode, maxFileSize, uploads, batches)
    ensures maxFileSize <= 0 ==> batches == (if records == [] then [] else [records])
    ensures uploads == [] <==> records == []
  {
    var w := new RecordWriter(maxFileSize, encode);
    WriteRecords(w, records);
    ghost var logged, uploaded, pending := w.uploads, w.batches, w.buffer.records;
    w.Close();
    SettledAfterClose(encode, maxFileSize, records, logged, uploaded, pending, w.uploads, w.batches);
    uploads := w.uploads;
    batches := w.batches;
  }
}
