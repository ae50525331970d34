/**
 * proxy/proxy.go: the per-request logic of the storage proxy.
 *
 * The first half specifies each request as a trace: the events the handler
 * causes, in order (calls on the response writer and calls on the backend),
 * and whether it ends in a Go panic (a nil dereference or an index out of
 * range). The second half is the handler itself, written against a
 * response-writer object and the backend's reader and writer objects, and
 * proved to have exactly the effect of its trace.
 */
module Proxy {
  import opened Text
  import opened ObjectKey
  import opened ResponseWriter
  import opened Storage

  /** The methods the handler dispatches on (`r.Method`). */
  const MethodGet: Bytes := Ascii("GET")
  const MethodHead: Bytes := Ascii("HEAD")
  const MethodPost: Bytes := Ascii("POST")
  const MethodPut: Bytes := Ascii("PUT")

  /** The four methods are four different strings. */
  lemma MethodsDistinct()
    ensures MethodGet != MethodHead && MethodGet != MethodPost && MethodGet != MethodPut
    ensures MethodHead != MethodPost && MethodHead != MethodPut
    ensures MethodPost != MethodPut
  {
    assert MethodGet[0] != MethodHead[0] && MethodGet[0] != MethodPost[0] && MethodGet[0] != MethodPut[0];
    assert MethodHead[0] != MethodPost[0] && MethodHead[0] != MethodPut[0];
    assert MethodPost[1] != MethodPut[1];
  }

  /** The status codes the handler writes. */
  const StatusCreated: int := 201
  const StatusBadRequest: int := 400
  const StatusNotFound: int := 404
  const StatusMethodNotAllowed: int := 405

  /** The header field a download sets. */
  const ContentTypeField: Bytes := Ascii("Content-Type")

  /** What an upload error body starts with; the error text follows. */
  const UploadErrorPrefix: Bytes := Ascii("Failed read cache body! ")

  /** An incoming request: its method (`r.Method`) and its URL path. Its body is read by the upload copy. */
  datatype Request = Request(verb: Bytes, path: Bytes)

  /** A call on the backend. */
  datatype Op =
    | Object(key: Bytes)    // bucket.Object(key)
    | FetchAttrs            // object.Attrs
    | OpenReader(ok: bool)  // object.NewReader, and whether it succeeded
    | CloseReader           // reader.Close
    | OpenWriter            // object.NewWriter
    | CopyBody              // copy of the request body into the writer
    | CloseWriter           // writer.Close

  /**
   * One thing a request handler does: a call on the response writer, the copy
   * of an object onto the response writer (one `Write` per chunk), or a call on
   * the backend.
   */
  datatype Event = Respond(call: Call) | Copy(chunks: seq<Bytes>) | Backend(op: Op)

  /** What a handler does: its events in order, and whether it stops in a panic after them. */
  datatype Trace = Trace(events: seq<Event>, panicked: bool)

  /** The response-writer calls an event makes. */
  function CallsOf(e: Event): seq<Call> {
    if e.Respond? then [e.call] else if e.Copy? then WriteCalls(e.chunks) else []
  }

  /** The response-writer calls among the events, in order. */
  function Calls(t: seq<Event>): seq<Call> {
    if t == [] then [] else Calls(t[..|t| - 1]) + CallsOf(t[|t| - 1])
  }

  /** The backend calls among the events, in order. */
  function Ops(t: seq<Event>): seq<Op> {
    if t == [] then []
    else
      var e := t[|t| - 1];
      Ops(t[..|t| - 1]) + (if e.Backend? then [e.op] else [])
  }

  /** Replaying a list of events that grows by one. */
  lemma ReplayStep(r: Response, t: seq<Event>, e: Event)
    ensures Replay(r, Calls(t + [e])) ==
      if e.Respond? then Apply(Replay(r, Calls(t)), e.call)
      else if e.Copy? then Replay(Replay(r, Calls(t)), WriteCalls(e.chunks))
      else Replay(r, Calls(t))
  {
    assert (t + [e])[..|t|] == t;
    ReplayAppend(r, Calls(t), CallsOf(e));
    if e.Respond? {
      assert [e.call][..0] == [];
    }
  }

  /** Backend calls of a list of events that grows by one. */
  lemma OpsOne(e: Event)
    ensures Ops([e]) == if e.Backend? then [e.op] else []
  {
    assert [e][..0] == [];
  }

  /** Backend calls of a list of events that grows by one more. */
  lemma OpsStep(t: seq<Event>, e: Event)
    ensures Ops(t + [e]) == if e.Backend? then Ops(t) + [e.op] else Ops(t)
  {
    assert (t + [e])[..|t|] == t;
    assert Ops(t) + [] == Ops(t);
  }

  /**
   * `downloadBlob` (proxy/proxy.go:57-87): the trace of a GET for the object name.
   * The deferred `reader.Close()` runs last, after the copy and its error status.
   * The lookup comes first; the handler panics only on nil attributes; an opened
   * reader is closed as the last thing the download does.
   */
  function DownloadTrace(key: Bytes, o: Outcomes): (t: Trace)
    ensures |t.events| > 0 && t.events[0] == Backend(Object(key))
    ensures t.panicked <==> !o.nilHandle && o.attrs.AttrsNil?
    ensures !o.nilHandle && o.attrs.AttrsOk? && o.open.Opened? ==> t.events[|t.events| - 1] == Backend(CloseReader)
  {
    var looked := [Backend(Object(key))];
    if o.nilHandle then Trace(looked + [Respond(WriteHeader(StatusNotFound))], false)
    else
      var fetched := looked + [Backend(FetchAttrs)];
      if o.attrs.AttrsErr? then Trace(fetched + [Respond(WriteHeader(StatusNotFound))], false)
      else if o.attrs.AttrsNil? then Trace(fetched, true)  // attrs.ContentType on a nil *ObjectAttrs
      else
        var opening := fetched + [Respond(AddHeader(ContentTypeField, o.attrs.contentType))]
          + [Backend(OpenReader(o.open.Opened?))];
        if o.open.OpenErr? then Trace(opening + [Respond(WriteHeader(StatusNotFound))], false)
        else
          var copied := opening + [Copy(Writes(o.download))];
          var answered := if o.download.failed then copied + [Respond(WriteHeader(StatusNotFound))] else copied;
          Trace(answered + [Backend(CloseReader)], false)
  }

  /** What a download does to a response writer, branch by branch. */
  lemma DownloadEffect(s: Response, key: Bytes, o: Outcomes)
    ensures
      Replay(s, Calls(DownloadTrace(key, o).events)) ==
        if o.nilHandle then Apply(s, WriteHeader(StatusNotFound))
        else if o.attrs.AttrsErr? then Apply(s, WriteHeader(StatusNotFound))
        else if o.attrs.AttrsNil? then s
        else
          var headed := Apply(s, AddHeader(ContentTypeField, o.attrs.contentType));
          if o.open.OpenErr? then Apply(headed, WriteHeader(StatusNotFound))
          else
            var copied := Replay(headed, WriteCalls(Writes(o.download)));
            if o.download.failed then Apply(copied, WriteHeader(StatusNotFound)) else copied
  {
    var looked := [Backend(Object(key))];
    ReplayStep(s, [], Backend(Object(key)));
    if o.nilHandle {
      ReplayStep(s, looked, Respond(WriteHeader(StatusNotFound)));
      return;
    }
    var fetched := looked + [Backend(FetchAttrs)];
    ReplayStep(s, looked, Backend(FetchAttrs));
    if o.attrs.AttrsErr? {
      ReplayStep(s, fetched, Respond(WriteHeader(StatusNotFound)));
      return;
    }
    if o.attrs.AttrsNil? {
      return;
    }
    var headed := fetched + [Respond(AddHeader(ContentTypeField, o.attrs.contentType))];
    ReplayStep(s, fetched, Respond(AddHeader(ContentTypeField, o.attrs.contentType)));
    var opening := headed + [Backend(OpenReader(o.open.Opened?))];
    ReplayStep(s, headed, Backend(OpenReader(o.open.Opened?)));
    if o.open.OpenErr? {
      ReplayStep(s, opening, Respond(WriteHeader(StatusNotFound)));
      return;
    }
    var copied := opening + [Copy(Writes(o.download))];
    ReplayStep(s, opening, Copy(Writes(o.download)));
    var answered := if o.download.failed then copied + [Respond(WriteHeader(StatusNotFound))] else copied;
    if o.download.failed {
      ReplayStep(s, copied, Respond(WriteHeader(StatusNotFound)));
    }
    ReplayStep(s, answered, Backend(CloseReader));
  }

  /**
   * The `WriteHeader(404)` after a failed copy (proxy/proxy.go:83-85) has no
   * effect: once the reader is open, a download leaves any response writer the
   * same whether or not the copy fails.
   */
  lemma LateNotFoundIgnored(s: Response, key: Bytes, o: Outcomes)
    requires !o.nilHandle && o.attrs.AttrsOk? && o.open.Opened?
    ensures Replay(s, Calls(DownloadTrace(key, o).events)) ==
      Replay(s, Calls(DownloadTrace(key, o.(download := o.download.(failed := false))).events))
  {
    DownloadEffect(s, key, o);
    DownloadEffect(s, key, o.(download := o.download.(failed := false)));
    CopyFixesStatus(Apply(s, AddHeader(ContentTypeField, o.attrs.contentType)), o.download);
  }

  /**
   * `checkBlobExists` (proxy/proxy.go:89-102): the trace of a HEAD for the object
   * name. The lookup comes first, and the check never panics.
   */
  function CheckTrace(key: Bytes, o: Outcomes): (t: Trace)
    ensures |t.events| > 0 && t.events[0] == Backend(Object(key))
    ensures !t.panicked
  {
    var looked := [Backend(Object(key))];
    if o.nilHandle then Trace(looked + [Respond(WriteHeader(StatusNotFound))], false)
    else
      var fetched := looked + [Backend(FetchAttrs)];
      if o.attrs.AttrsOk? then Trace(fetched, false)
      else Trace(fetched + [Respond(WriteHeader(StatusNotFound))], false)
  }

  /** What an existence check does to a response writer. */
  lemma CheckEffect(s: Response, key: Bytes, o: Outcomes)
    ensures
      Replay(s, Calls(CheckTrace(key, o).events)) ==
        if o.nilHandle || !o.attrs.AttrsOk? then Apply(s, WriteHeader(StatusNotFound)) else s
  {
    var looked := [Backend(Object(key))];
    ReplayStep(s, [], Backend(Object(key)));
    if o.nilHandle {
      ReplayStep(s, looked, Respond(WriteHeader(StatusNotFound)));
      return;
    }
    var fetched := looked + [Backend(FetchAttrs)];
    ReplayStep(s, looked, Backend(FetchAttrs));
    ReplayStep(s, fetched, Respond(WriteHeader(StatusNotFound)));
  }

  /**
   * `uploadBlob` (proxy/proxy.go:104-118): the trace of a POST or PUT for the
   * object name. The deferred `writer.Close()` runs last. The code does not test
   * the handle for nil, and `NewWriter` on a nil handle panics.
   */
  function UploadTrace(key: Bytes, o: Outcomes): (t: Trace)
    ensures |t.events| > 0 && t.events[0] == Backend(Object(key))
    ensures t.panicked <==> o.nilHandle
    ensures !o.nilHandle ==> t.events[|t.events| - 1] == Backend(CloseWriter)
  {
    var looked := [Backend(Object(key))];
    if o.nilHandle then Trace(looked, true)
    else
      var copied := looked + [Backend(OpenWriter)] + [Backend(CopyBody)];
      var answered :=
        if o.upload.CopyErr? then
          copied + [Respond(WriteHeader(StatusBadRequest))] + [Respond(Write(UploadErrorPrefix + o.upload.msg))]
        else copied + [Respond(WriteHeader(StatusCreated))];
      Trace(answered + [Backend(CloseWriter)], false)
  }

  /** What an upload does to a response writer. */
  lemma UploadEffect(s: Response, key: Bytes, o: Outcomes)
    ensures
      Replay(s, Calls(UploadTrace(key, o).events)) ==
        if o.nilHandle then s
        else if o.upload.CopyErr? then
          Apply(Apply(s, WriteHeader(StatusBadRequest)), Write(UploadErrorPrefix + o.upload.msg))
        else Apply(s, WriteHeader(StatusCreated))
  {
    var looked := [Backend(Object(key))];
    ReplayStep(s, [], Backend(Object(key)));
    if o.nilHandle {
      return;
    }
    var writing := looked + [Backend(OpenWriter)];
    ReplayStep(s, looked, Backend(OpenWriter));
    var copied := writing + [Backend(CopyBody)];
    ReplayStep(s, writing, Backend(CopyBody));
    var answered: seq<Event>;
    if o.upload.CopyErr? {
      var refused := copied + [Respond(WriteHeader(StatusBadRequest))];
      ReplayStep(s, copied, Respond(WriteHeader(StatusBadRequest)));
      answered := refused + [Respond(Write(UploadErrorPrefix + o.upload.msg))];
      ReplayStep(s, refused, Respond(Write(UploadErrorPrefix + o.upload.msg)));
    } else {
      answered := copied + [Respond(WriteHeader(StatusCreated))];
      ReplayStep(s, copied, Respond(WriteHeader(StatusCreated)));
    }
    ReplayStep(s, answered, Backend(CloseWriter));
  }

  /**
   * `handler` (proxy/proxy.go:37-55): strip the path, then dispatch on the method.
   * An empty path panics: `path[0]` is read without a length check. Any of the
   * four methods starts by looking up the key the path resolves to.
   */
  function HandlerTrace(prefix: Bytes, bucket: Bucket, r: Request): (t: Trace)
    ensures |r.path| == 0 ==> t.panicked && t.events == []
    ensures |r.path| > 0 && (r.verb == MethodGet || r.verb == MethodHead || r.verb == MethodPost || r.verb == MethodPut) ==>
      |t.events| > 0 && t.events[0] == Backend(Object(Resolve(prefix, r.path)))
  {
    if |r.path| == 0 then Trace([], true)
    else
      var key := Resolve(prefix, r.path);
      var o := bucket(key);
      if r.verb == MethodGet then DownloadTrace(key, o)
      else if r.verb == MethodHead then CheckTrace(key, o)
      else if r.verb == MethodPost then UploadTrace(key, o)
      else if r.verb == MethodPut then UploadTrace(key, o)
      else Trace([Respond(WriteHeader(StatusMethodNotAllowed))], false)
  }

  /** What the client receives: a complete response, or a connection dropped by a panic. */
  datatype Reply = Reply(code: int, header: Header, body: Bytes) | Aborted

  /**
   * The reply to a request, once the handler has returned: none exactly when the
   * handler panicked, and otherwise a body made of exactly the bytes it wrote.
   */
  function Served(prefix: Bytes, bucket: Bucket, r: Request): (reply: Reply)
    ensures reply.Aborted? <==> HandlerTrace(prefix, bucket, r).panicked
    ensures reply.Reply? ==> reply.body == Written(Calls(HandlerTrace(prefix, bucket, r).events))
  {
    var t := HandlerTrace(prefix, bucket, r);
    if t.panicked then Aborted
    else
      var response := Replay(Fresh, Calls(t.events));
      Reply(SentCode(response), response.header, response.body)
  }

  /** `StorageProxy`: a bucket and a key prefix, both fixed for the life of the proxy. */
  class StorageProxy {
    const bucket: Bucket
    const prefix: Bytes

    constructor (bucket: Bucket, prefix: Bytes)
      ensures this.bucket == bucket && this.prefix == prefix
    {
      this.bucket := bucket;
      this.prefix := prefix;
    }

    /** `downloadBlob`: the reader it opens, if any, and whether it panicked. */
    method DownloadBlob(w: Recorder, name: Bytes) returns (reader: Reader?, panicked: bool)
      modifies w
      ensures var key := ObjectName(prefix, name);
        w.State() == Replay(old(w.State()), Calls(DownloadTrace(key, bucket(key)).events))
      ensures var key := ObjectName(prefix, name); panicked == DownloadTrace(key, bucket(key)).panicked
      ensures reader != null <==>
        var o := bucket(ObjectName(prefix, name)); !o.nilHandle && o.attrs.AttrsOk? && o.open.Opened?
      ensures reader != null ==> fresh(reader) && reader.closes == 1
    {
      reader, panicked := null, false;
      var key := ObjectName(prefix, name);
      var handle := bucket(key);
      DownloadEffect(w.State(), key, handle);
      if handle.nilHandle {
        w.WriteHeader(StatusNotFound);
        return;
      }
      if handle.attrs.AttrsErr? {
        w.WriteHeader(StatusNotFound);
        return;
      }
      if handle.attrs.AttrsNil? {
        panicked := true;  // attrs.ContentType on a nil *ObjectAttrs
        return;
      }
      w.AddHeader(ContentTypeField, handle.attrs.contentType);
      if handle.open.OpenErr? {
        w.WriteHeader(StatusNotFound);
        return;
      }
      reader := new Reader();
      var failed := WriteTo(w, handle.download);
      if failed {
        w.WriteHeader(StatusNotFound);
      }
      reader.Close();  // deferred
    }

    /** `checkBlobExists`: whether it panicked (it never does). */
    method CheckBlobExists(w: Recorder, name: Bytes) returns (panicked: bool)
      modifies w
      ensures var key := ObjectName(prefix, name);
        w.State() == Replay(old(w.State()), Calls(CheckTrace(key, bucket(key)).events))
      ensures var key := ObjectName(prefix, name); panicked == CheckTrace(key, bucket(key)).panicked
    {
      panicked := false;
      var key := ObjectName(prefix, name);
      var handle := bucket(key);
      CheckEffect(w.State(), key, handle);
      if handle.nilHandle {
        w.WriteHeader(StatusNotFound);
        return;
      }
      if !handle.attrs.AttrsOk? {
        w.WriteHeader(StatusNotFound);
        return;
      }
    }

    /** `uploadBlob`: the writer it opens, if any, and whether it panicked. */
    method UploadBlob(w: Recorder, name: Bytes) returns (writer: ObjectWriter?, panicked: bool)
      modifies w
      ensures var key := ObjectName(prefix, name);
        w.State() == Replay(old(w.State()), Calls(UploadTrace(key, bucket(key)).events))
      ensures var key := ObjectName(prefix, name); panicked == UploadTrace(key, bucket(key)).panicked
      ensures writer != null <==> !bucket(ObjectName(prefix, name)).nilHandle
      ensures writer != null ==> fresh(writer) && writer.closes == 1
    {
      writer, panicked := null, false;
      var key := ObjectName(prefix, name);
      var handle := bucket(key);
      UploadEffect(w.State(), key, handle);
      if handle.nilHandle {
        panicked := true;  // NewWriter on a nil *ObjectHandle
        return;
      }
      writer := new ObjectWriter();
      if handle.upload.CopyErr? {
        w.WriteHeader(StatusBadRequest);
        var errorMsg := UploadErrorPrefix + handle.upload.msg;
        w.Write(errorMsg);
      } else {
        w.WriteHeader(StatusCreated);
      }
      writer.Close();  // deferred
    }

    /** `handler`: the reader and the writer it opens, if any, and whether it panicked. */
    method Handler(w: Recorder, r: Request) returns (reader: Reader?, writer: ObjectWriter?, panicked: bool)
      modifies w
      ensures w.State() == Replay(old(w.State()), Calls(HandlerTrace(prefix, bucket, r).events))
      ensures panicked == HandlerTrace(prefix, bucket, r).panicked
      ensures reader != null <==>
        |r.path| > 0 && r.verb == MethodGet &&
        var o := bucket(Resolve(prefix, r.path)); !o.nilHandle && o.attrs.AttrsOk? && o.open.Opened?
      ensures writer != null <==>
        |r.path| > 0 && (r.verb == MethodPost || r.verb == MethodPut) && !bucket(Resolve(prefix, r.path)).nilHandle
      ensures reader != null ==> fresh(reader) && reader.closes == 1
      ensures writer != null ==> fresh(writer) && writer.closes == 1
    {
      reader, writer, panicked := null, null, false;
      if |r.path| == 0 {
        panicked := true;  // path[0] out of range
        return;
      }
      var path := StripLeadingSlash(r.path);
      var key := Resolve(prefix, r.path);
      MethodsDistinct();
      if r.verb == MethodGet {
        assert HandlerTrace(prefix, bucket, r) == DownloadTrace(key, bucket(key));
        reader, panicked := DownloadBlob(w, path);
      } else if r.verb == MethodHead {
        assert HandlerTrace(prefix, bucket, r) == CheckTrace(key, bucket(key));
        panicked := CheckBlobExists(w, path);
      } else if r.verb == MethodPost {
        assert HandlerTrace(prefix, bucket, r) == UploadTrace(key, bucket(key));
        writer, panicked := UploadBlob(w, path);
      } else if r.verb == MethodPut {
        assert HandlerTrace(prefix, bucket, r) == UploadTrace(key, bucket(key));
        writer, panicked := UploadBlob(w, path);
      } else {
        assert HandlerTrace(prefix, bucket, r) == Trace([Respond(WriteHeader(StatusMethodNotAllowed))], false);
        w.WriteHeader(StatusMethodNotAllowed);
        ReplayStep(old(w.State()), [], Respond(WriteHeader(StatusMethodNotAllowed)));
      }
    }
  }
}
