/**
 * What a client of the proxy observes, request by request, and what the proxy
 * asks of the backend.
 */
module ProxyProperties {
  import opened Text
  import opened ObjectKey
  import opened ResponseWriter
  import opened Storage
  import opened Proxy

  /** The header of a download once the content type is known: that one field, with that one value. */
  function ContentTypeHeader(contentType: Bytes): Header {
    map[ContentTypeField := [contentType]]
  }

  /** Adding the content type to a fresh response writer. */
  lemma FirstHeader(contentType: Bytes)
    ensures Apply(Fresh, AddHeader(ContentTypeField, contentType)) ==
      Response(ContentTypeHeader(contentType), Unset, [])
  {
    var h := Added(map[], ContentTypeField, contentType);
    assert h.Keys == ContentTypeHeader(contentType).Keys;
    assert h[ContentTypeField] == [] + [contentType] == [contentType];
    assert h == ContentTypeHeader(contentType);
  }

  /** The handler hands a request with a path to the operation its method names. */
  lemma Dispatch(prefix: Bytes, bucket: Bucket, verb: Bytes, path: Bytes)
    requires |path| > 0
    ensures var key := Resolve(prefix, path); verb == MethodGet ==>
      HandlerTrace(prefix, bucket, Request(verb, path)) == DownloadTrace(key, bucket(key))
    ensures var key := Resolve(prefix, path); verb == MethodHead ==>
      HandlerTrace(prefix, bucket, Request(verb, path)) == CheckTrace(key, bucket(key))
    ensures var key := Resolve(prefix, path); verb == MethodPost || verb == MethodPut ==>
      HandlerTrace(prefix, bucket, Request(verb, path)) == UploadTrace(key, bucket(key))
    ensures verb != MethodGet && verb != MethodHead && verb != MethodPost && verb != MethodPut ==>
      HandlerTrace(prefix, bucket, Request(verb, path)) == Trace([Respond(WriteHeader(StatusMethodNotAllowed))], false)
  {
    MethodsDistinct();
  }

  /**
   * GET. A missing handle or an attribute error is a bare 404; attributes that
   * are nil without an error crash the handler; otherwise the header carries the
   * object's content type, a failed open is a 404, and the body is the object's
   * bytes. The copy writes before it can fail, so the status is already 200 by
   * then: the 404 written after a failed copy never reaches the client.
   */
  lemma {:induction false} DownloadReply(prefix: Bytes, bucket: Bucket, path: Bytes)
    requires |path| > 0
    ensures
      var o := bucket(Resolve(prefix, path));
      Served(prefix, bucket, Request(MethodGet, path)) ==
        if o.nilHandle || o.attrs.AttrsErr? then Reply(StatusNotFound, map[], [])
        else if o.attrs.AttrsNil? then Aborted
        else if o.open.OpenErr? then Reply(StatusNotFound, ContentTypeHeader(o.attrs.contentType), [])
        else Reply(StatusOK, ContentTypeHeader(o.attrs.contentType), Flatten(o.download.chunks))
  {
    var key := Resolve(prefix, path);
    var o := bucket(key);
    Dispatch(prefix, bucket, MethodGet, path);
    var t := DownloadTrace(key, o);
    DownloadEffect(Fresh, key, o);
    var response := Replay(Fresh, Calls(t.events));
    assert Served(prefix, bucket, Request(MethodGet, path)) ==
      if t.panicked then Aborted else Reply(SentCode(response), response.header, response.body);
    if o.nilHandle || o.attrs.AttrsErr? {
      assert response == Response(map[], Fixed(StatusNotFound), []);
      return;
    }
    if o.attrs.AttrsNil? {
      return;
    }
    var header := ContentTypeHeader(o.attrs.contentType);
    FirstHeader(o.attrs.contentType);
    if o.open.OpenErr? {
      assert response == Response(header, Fixed(StatusNotFound), []);
      return;
    }
    CopyFixesStatus(Response(header, Unset, []), o.download);
    assert response == Response(header, Fixed(StatusOK), Flatten(o.download.chunks));
  }

  /**
   * HEAD. 404 when the handle is missing or the attributes are an error or nil;
   * otherwise an empty 200 (nothing is written, so the server answers 200).
   */
  lemma CheckReply(prefix: Bytes, bucket: Bucket, path: Bytes)
    requires |path| > 0
    ensures
      var o := bucket(Resolve(prefix, path));
      Served(prefix, bucket, Request(MethodHead, path)) ==
        if o.nilHandle || !o.attrs.AttrsOk? then Reply(StatusNotFound, map[], [])
        else Reply(StatusOK, map[], [])
  {
    Dispatch(prefix, bucket, MethodHead, path);
    var key := Resolve(prefix, path);
    CheckEffect(Fresh, key, bucket(key));
  }

  /**
   * POST and PUT. A missing handle crashes the handler (the writer is opened on
   * it unchecked); a failed body copy is a 400 whose body is the fixed message
   * followed by the error text; otherwise an empty 201.
   */
  lemma UploadReply(prefix: Bytes, bucket: Bucket, verb: Bytes, path: Bytes)
    requires |path| > 0
    requires verb == MethodPost || verb == MethodPut
    ensures
      var o := bucket(Resolve(prefix, path));
      Served(prefix, bucket, Request(verb, path)) ==
        if o.nilHandle then Aborted
        else if o.upload.CopyErr? then Reply(StatusBadRequest, map[], UploadErrorPrefix + o.upload.msg)
        else Reply(StatusCreated, map[], [])
  {
    Dispatch(prefix, bucket, verb, path);
    var key := Resolve(prefix, path);
    UploadEffect(Fresh, key, bucket(key));
  }

  /** Any other method is an empty 405, and the backend is not asked anything. */
  lemma NotAllowed(prefix: Bytes, bucket: Bucket, r: Request)
    requires |r.path| > 0
    requires r.verb != MethodGet && r.verb != MethodHead && r.verb != MethodPost && r.verb != MethodPut
    ensures Served(prefix, bucket, r) == Reply(StatusMethodNotAllowed, map[], [])
    ensures Ops(HandlerTrace(prefix, bucket, r).events) == []
  {
    var e := Respond(WriteHeader(StatusMethodNotAllowed));
    Dispatch(prefix, bucket, r.verb, r.path);
    assert r == Request(r.verb, r.path);
    assert [e] == [] + [e];
    ReplayStep(Fresh, [], e);
    OpsOne(e);
  }

  /** POST and PUT are the same operation. */
  lemma PostIsPut(prefix: Bytes, bucket: Bucket, path: Bytes)
    ensures HandlerTrace(prefix, bucket, Request(MethodPost, path)) == HandlerTrace(prefix, bucket, Request(MethodPut, path))
  {
    MethodsDistinct();
  }

  /**
   * The client is left without a reply exactly when the path is empty, when a
   * GET meets nil attributes without an error, or when an upload meets a missing
   * handle.
   */
  lemma Aborts(prefix: Bytes, bucket: Bucket, r: Request)
    ensures Served(prefix, bucket, r).Aborted? <==>
      |r.path| == 0 ||
      var o := bucket(Resolve(prefix, r.path));
      (r.verb == MethodGet && !o.nilHandle && o.attrs.AttrsNil?) ||
      ((r.verb == MethodPost || r.verb == MethodPut) && o.nilHandle)
  {
    MethodsDistinct();
  }

  /** The status line of a reply is the first status-fixing call of the handler, or 200 when there is none. */
  lemma ServedStatus(prefix: Bytes, bucket: Bucket, r: Request)
    ensures
      var t := HandlerTrace(prefix, bucket, r);
      var first := FirstStatus(Calls(t.events));
      !t.panicked ==> Served(prefix, bucket, r).code == if first.Fixed? then first.code else StatusOK
  {
    StatusIsFirst(Fresh, Calls(HandlerTrace(prefix, bucket, r).events));
  }

  /**
   * The backend calls of a download: the handle for the key, then its
   * attributes unless the handle is missing, then a reader when the attributes
   * are there, and a close of that reader, after everything else, when it opened.
   */
  lemma DownloadOps(key: Bytes, o: Outcomes)
    ensures
      Ops(DownloadTrace(key, o).events) ==
        if o.nilHandle then [Object(key)]
        else if !o.attrs.AttrsOk? then [Object(key)] + [FetchAttrs]
        else if o.open.OpenErr? then [Object(key)] + [FetchAttrs] + [OpenReader(false)]
        else [Object(key)] + [FetchAttrs] + [OpenReader(true)] + [CloseReader]
  {
    var missing := Respond(WriteHeader(StatusNotFound));
    var looked := [Backend(Object(key))];
    OpsOne(Backend(Object(key)));
    if o.nilHandle {
      OpsStep(looked, missing);
      return;
    }
    var fetched := looked + [Backend(FetchAttrs)];
    OpsStep(looked, Backend(FetchAttrs));
    if !o.attrs.AttrsOk? {
      OpsStep(fetched, missing);
      return;
    }
    ReaderOps(key, o);
  }

  /** The backend calls of a download once the attributes are there: the reader, and its close when it opened. */
  lemma ReaderOps(key: Bytes, o: Outcomes)
    requires !o.nilHandle && o.attrs.AttrsOk?
    ensures
      Ops(DownloadTrace(key, o).events) ==
        if o.open.OpenErr? then [Object(key)] + [FetchAttrs] + [OpenReader(false)]
        else [Object(key)] + [FetchAttrs] + [OpenReader(true)] + [CloseReader]
  {
    var missing := Respond(WriteHeader(StatusNotFound));
    var looked := [Backend(Object(key))];
    var fetched := looked + [Backend(FetchAttrs)];
    var headed := fetched + [Respond(AddHeader(ContentTypeField, o.attrs.contentType))];
    var opening := headed + [Backend(OpenReader(o.open.Opened?))];
    OpsOne(Backend(Object(key)));
    OpsStep(looked, Backend(FetchAttrs));
    OpsStep(fetched, Respond(AddHeader(ContentTypeField, o.attrs.contentType)));
    OpsStep(headed, Backend(OpenReader(o.open.Opened?)));
    if o.open.OpenErr? {
      assert DownloadTrace(key, o).events == opening + [missing];
      OpsStep(opening, missing);
      return;
    }
    var copied := opening + [Copy(Writes(o.download))];
    OpsStep(opening, Copy(Writes(o.download)));
    var answered := if o.download.failed then copied + [missing] else copied;
    if o.download.failed {
      OpsStep(copied, missing);
    }
    assert DownloadTrace(key, o).events == answered + [Backend(CloseReader)];
    OpsStep(answered, Backend(CloseReader));
  }

  /** The backend calls of an existence check: the handle, then its attributes unless it is missing. */
  lemma CheckOps(key: Bytes, o: Outcomes)
    ensures
      Ops(CheckTrace(key, o).events) ==
        if o.nilHandle then [Object(key)] else [Object(key)] + [FetchAttrs]
  {
    var missing := Respond(WriteHeader(StatusNotFound));
    var looked := [Backend(Object(key))];
    OpsOne(Backend(Object(key)));
    if o.nilHandle {
      OpsStep(looked, missing);
      return;
    }
    var fetched := looked + [Backend(FetchAttrs)];
    OpsStep(looked, Backend(FetchAttrs));
    OpsStep(fetched, missing);
  }

  /**
   * The backend calls of an upload: the handle, then (unless it is missing) a
   * writer, the copy of the body into it, and a close of the writer, which
   * commits the upload whether or not the copy succeeded.
   */
  lemma UploadOps(key: Bytes, o: Outcomes)
    ensures
      Ops(UploadTrace(key, o).events) ==
        if o.nilHandle then [Object(key)] else [Object(key)] + [OpenWriter] + [CopyBody] + [CloseWriter]
  {
    var looked := [Backend(Object(key))];
    OpsOne(Backend(Object(key)));
    if o.nilHandle {
      return;
    }
    var writing := looked + [Backend(OpenWriter)];
    OpsStep(looked, Backend(OpenWriter));
    var copied := writing + [Backend(CopyBody)];
    OpsStep(writing, Backend(CopyBody));
    var answered: seq<Event>;
    if o.upload.CopyErr? {
      var refused := copied + [Respond(WriteHeader(StatusBadRequest))];
      OpsStep(copied, Respond(WriteHeader(StatusBadRequest)));
      answered := refused + [Respond(Write(UploadErrorPrefix + o.upload.msg))];
      OpsStep(refused, Respond(Write(UploadErrorPrefix + o.upload.msg)));
    } else {
      answered := copied + [Respond(WriteHeader(StatusCreated))];
      OpsStep(copied, Respond(WriteHeader(StatusCreated)));
    }
    OpsStep(answered, Backend(CloseWriter));
  }

  /** The backend calls start with the lookup of the key, and look up nothing else. */
  predicate LooksUpOnce(ops: seq<Op>, key: Bytes) {
    |ops| > 0 && ops[0] == Object(key) && forall i :: 0 < i < |ops| ==> !ops[i].Object?
  }

  /** A download looks up its key once, first. */
  lemma DownloadLooksUpOnce(key: Bytes, o: Outcomes)
    ensures LooksUpOnce(Ops(DownloadTrace(key, o).events), key)
  {
    DownloadOps(key, o);
    var ops := Ops(DownloadTrace(key, o).events);
    assert ops[0] == Object(key);
    assert forall i :: 0 < i < |ops| ==> ops[i] in [FetchAttrs, OpenReader(false), OpenReader(true), CloseReader];
  }

  /** An existence check looks up its key once, first. */
  lemma CheckLooksUpOnce(key: Bytes, o: Outcomes)
    ensures LooksUpOnce(Ops(CheckTrace(key, o).events), key)
  {
    CheckOps(key, o);
  }

  /** An upload looks up its key once, first. */
  lemma UploadLooksUpOnce(key: Bytes, o: Outcomes)
    ensures LooksUpOnce(Ops(UploadTrace(key, o).events), key)
  {
    UploadOps(key, o);
    var ops := Ops(UploadTrace(key, o).events);
    assert ops[0] == Object(key);
    assert forall i :: 0 < i < |ops| ==> ops[i] in [OpenWriter, CopyBody, CloseWriter];
  }

  /**
   * A request with a path and a supported method asks the backend for exactly
   * one object, the one its path resolves to, and asks for it first.
   */
  lemma OneObject(prefix: Bytes, bucket: Bucket, r: Request)
    requires |r.path| > 0
    requires r.verb == MethodGet || r.verb == MethodHead || r.verb == MethodPost || r.verb == MethodPut
    ensures LooksUpOnce(Ops(HandlerTrace(prefix, bucket, r).events), Resolve(prefix, r.path))
  {
    var key := Resolve(prefix, r.path);
    Dispatch(prefix, bucket, r.verb, r.path);
    assert r == Request(r.verb, r.path);
    if r.verb == MethodGet {
      DownloadLooksUpOnce(key, bucket(key));
    } else if r.verb == MethodHead {
      CheckLooksUpOnce(key, bucket(key));
    } else {
      UploadLooksUpOnce(key, bucket(key));
    }
  }
}
