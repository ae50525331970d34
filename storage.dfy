/**
 * The Cloud Storage side of a request, as seen by the proxy: what each backend
 * call answers for a key, and the reader and writer objects it hands out.
 */
module Storage {
  import opened Text
  import opened ResponseWriter

  /** `object.Attrs(ctx)`: an error, a nil result without an error, or attributes. */
  datatype AttrsResult = AttrsErr(msg: Bytes) | AttrsNil | AttrsOk(contentType: Bytes)

  /** `object.NewReader(ctx)`: an error, or an open reader. */
  datatype OpenResult = OpenErr(msg: Bytes) | Opened

  /**
   * `bufio.NewReader(reader).WriteTo(w)`: the chunks of the object it writes on
   * the response writer, in order, after its first write of the still-empty
   * buffer, and whether it stops with an error after them.
   */
  datatype Transfer = Transfer(chunks: seq<Bytes>, failed: bool)

  /** `bufio.NewWriter(writer).ReadFrom(...)` from the request body: success or an error. */
  datatype CopyResult = CopyOk | CopyErr(msg: Bytes)

  /** Everything the backend and the connection answer during one request on one key. */
  datatype Outcomes = Outcomes(
    nilHandle: bool,      // bucket.Object(key) == nil
    attrs: AttrsResult,
    open: OpenResult,
    download: Transfer,
    upload: CopyResult)

  /** The bucket: its answers depend on the key the proxy asks for. */
  type Bucket = Bytes -> Outcomes

  /** A `*storage.Reader`; counts how often it is closed. */
  class Reader {
    var closes: nat

    constructor ()
      ensures closes == 0
    {
      closes := 0;
    }

    /** `reader.Close()`. */
    method Close()
      modifies this
      ensures closes == old(closes) + 1
    {
      closes := closes + 1;
    }
  }

  /** A `*storage.Writer`; counts how often it is closed (closing commits the upload). */
  class ObjectWriter {
    var closes: nat

    constructor ()
      ensures closes == 0
    {
      closes := 0;
    }

    /** `writer.Close()`. */
    method Close()
      modifies this
      ensures closes == old(closes) + 1
    {
      closes := closes + 1;
    }
  }

  /** One more chunk written is one more `Write` call replayed. */
  lemma WriteCallsStep(r: Response, chunks: seq<Bytes>, i: nat)
    requires i < |chunks|
    ensures Replay(r, WriteCalls(chunks[..i + 1])) == Apply(Replay(r, WriteCalls(chunks[..i])), Write(chunks[i]))
  {
    assert chunks[..i + 1][..i] == chunks[..i];
    ReplaySnoc(r, WriteCalls(chunks[..i]), Write(chunks[i]));
  }

  /**
   * The writes `bufferedReader.WriteTo(w)` makes on the response writer. Its
   * `writeBuf` first writes the buffer, which is still empty, and the chunks
   * read from the object follow.
   */
  function Writes(t: Transfer): seq<Bytes> {
    [[]] + t.chunks
  }

  /**
   * A transfer always writes at least once. After it the status is fixed (to 200
   * unless it was fixed before), the header is unchanged, and the body has grown
   * by the object's bytes.
   */
  lemma CopyFixesStatus(r: Response, t: Transfer)
    ensures Replay(r, WriteCalls(Writes(t))) ==
      Response(r.header, if r.status.Unset? then Fixed(StatusOK) else r.status, r.body + Flatten(t.chunks))
  {
    var writes := Writes(t);
    ReplayWrites(r, writes);
    FlattenAppend([[]], t.chunks);
    assert writes[..1] == [[]];
    assert Flatten(writes) == Flatten(t.chunks);
  }

  /**
   * `bufferedReader.WriteTo(w)`: makes the transfer's writes on the response
   * writer and reports whether the transfer failed.
   */
  method WriteTo(w: Recorder, t: Transfer) returns (failed: bool)
    modifies w
    ensures w.State() == Replay(old(w.State()), WriteCalls(Writes(t)))
    ensures failed == t.failed
  {
    var writes := Writes(t);  // writeBuf's write of the still-empty buffer, then the chunks
    for i := 0 to |writes|
      invariant w.State() == Replay(old(w.State()), WriteCalls(writes[..i]))
    {
      WriteCallsStep(old(w.State()), writes, i);
      w.Write(writes[i]);
    }
    assert writes[..|writes|] == writes;
    failed := t.failed;
  }
}
