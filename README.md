# gcsproxy request handling in Dafny

gcsproxy is a small HTTP server that puts a Google Cloud Storage bucket behind
plain HTTP:

- `GET /path` downloads an object.
- `HEAD /path` checks that an object exists.
- `POST /path` and `PUT /path` upload the request body as an object.
- Any other method gets 405.

The object key is the configured prefix followed by the URL path, with one
leading `/` removed. This project models the per-request logic of
`proxy/proxy.go` and proves what a client and the backend see for every
request.

Layout:

- `text.dfy` (`Text`): bytes, ASCII literals, and the concatenation of chunks.
- `object_key.dfy` (`ObjectKey`): the leading-slash strip of `handler`, `objectName`, and how a path resolves to a key.
- `response_writer.dfy` (`ResponseWriter`): the part of net/http's `ResponseWriter` the proxy relies on.
  - The first `WriteHeader` or `Write` fixes the status.
  - Header changes after that point are lost.
  - An unfixed status is sent as 200.
  - It is specified as a function `Apply` on response values and implemented by the class `Recorder`.
- `storage.dfy` (`Storage`): what the backend answers for a key (`Outcomes`), the `Reader` and `ObjectWriter` objects that count their `Close` calls, and `WriteTo`, the copy of a reader onto the response writer.
- `proxy.dfy` (`Proxy`): the specification and the imperative handler.
  - Each request is specified as a `Trace`: the ordered calls on the response writer and the backend, and whether the handler panics.
  - The class `StorageProxy` has `DownloadBlob`, `CheckBlobExists`, `UploadBlob` and `Handler`, written as in the Go code over a `Recorder`.
  - Each method is proved to leave the recorder in exactly the state its trace determines.
- `proxy_properties.dfy` (`ProxyProperties`): what the client receives (`Served`: status, header and body, or `Aborted` when the handler panics) and which backend calls are made, for each method.

The backend is a function from key to `Outcomes`. It records:

- whether `bucket.Object` returned nil;
- what `Attrs` answered: an error, nil without an error, or a content type;
- whether `NewReader` succeeded;
- the chunks that `bufio.Reader.WriteTo` writes on the response after its first write of the still-empty buffer, and whether it then failed;
- whether the upload copy failed, and with what message.

A Go panic is modelled as a trace flag and as the reply `Aborted`. The handler panics in three places:

- `path[0]` on an empty path;
- `attrs.ContentType` on nil attributes;
- `NewWriter` on a nil handle.

## Model

| member | source | states |
|---|---|---|
| ObjectKey.ObjectName | proxy/proxy.go:25-27 | the key is the prefix followed by the name: its length is the sum of theirs, its first part is the prefix, its rest is the name |
| ObjectKey.StripLeadingSlash | proxy/proxy.go:38-41 | the result is a suffix of the path that is one byte shorter exactly when the path starts with '/', else the path itself; a path is required to be non-empty as Go indexes `path[0]` |
| ObjectKey.Resolve | proxy/proxy.go:38-41 | the key a request path resolves to starts with the prefix, and the rest is the path without its leading '/', or the whole path when it has none |
| ObjectKey.ResolveSlashed | proxy/proxy.go:38-41 | "/" + p resolves to prefix + p: exactly one slash is dropped |
| ObjectKey.ResolveUnslashed | proxy/proxy.go:38-41 | a path not starting with '/' resolves to prefix + path unchanged |
| ObjectKey.ObjectNameInjective | proxy/proxy.go:25-27 | under one prefix, two names give the same key if and only if they are equal |
| ObjectKey.ResolveSameKey | proxy/proxy.go:38-41 | two paths reach the same key if and only if they agree after the strip |
| ResponseWriter.Added | proxy/proxy.go:71-72 | `Header.Add` appends the value under the name, keeps earlier values and leaves other fields unchanged |
| ResponseWriter.Apply | proxy/proxy.go:53 | one writer call: a fixed status and header never change; only `Write` grows the body, by its data; `Write` and `WriteHeader` fix the status |
| ResponseWriter.Replay | proxy/proxy.go:57-87 | a list of calls keeps a fixed status and header, and the body grows by exactly the bytes written |
| ResponseWriter.ReplayAppend | proxy/proxy.go:57-87 | replaying a then b is replaying a + b |
| ResponseWriter.ReplaySnoc | proxy/proxy.go:57-87 | replaying one more call applies it to the replayed state |
| ResponseWriter.StatusIsFirst | proxy/proxy.go:82-85 | from an unfixed status, the status after a list of calls is the one the first `WriteHeader`/`Write` decides (reference definition `FirstStatus`) |
| ResponseWriter.ReplayWrites | proxy/proxy.go:81-82 | writing chunks keeps the header, appends their concatenation to the body and, if any chunk is written, fixes the status (200 if unset) |
| ResponseWriter.Recorder.constructor | proxy/proxy.go:37 | a fresh writer has no header, no status and no body |
| ResponseWriter.Recorder.AddHeader | proxy/proxy.go:71-72 | the recorder's new state is `Apply` of `AddHeader` to its old state |
| ResponseWriter.Recorder.WriteHeader | proxy/proxy.go:60 | the recorder's new state is `Apply` of `WriteHeader` to its old state |
| ResponseWriter.Recorder.Write | proxy/proxy.go:114 | the recorder's new state is `Apply` of `Write` to its old state |
| Storage.Reader.Close | proxy/proxy.go:79 | closing the reader counts one more close |
| Storage.ObjectWriter.Close | proxy/proxy.go:108 | closing the writer counts one more close |
| Storage.WriteCallsStep | proxy/proxy.go:81-82 | writing one more chunk is one more `Write` replayed |
| Text.FlattenAppend | proxy/proxy.go:81-82 | the bytes of two lists of writes, one after the other, are the bytes of each list concatenated |
| Storage.CopyFixesStatus | proxy/proxy.go:81-82 | the copy always writes at least once (its first write is the empty buffer), so afterwards the status is fixed, to 200 unless it was fixed before, the header is unchanged and the body has grown by the object's bytes |
| Storage.WriteTo | proxy/proxy.go:81-82 | the recorder ends in the state of the copy's writes replayed in order (the empty buffer first, then the object's chunks), and the result reports whether the transfer failed |
| Proxy.MethodsDistinct | proxy/proxy.go:43-53 | "GET", "HEAD", "POST" and "PUT" are pairwise different, so each request takes exactly one branch of the switch |
| Proxy.ReplayStep | proxy/proxy.go:37-118 | the response after one more event is that event's calls applied to the response before it |
| Proxy.OpsOne | proxy/proxy.go:58 | a single event contributes its backend call, if it is one |
| Proxy.OpsStep | proxy/proxy.go:57-118 | the backend calls of a trace with one more event are those before it plus that event's call, if any |
| Proxy.DownloadTrace | proxy/proxy.go:57-87 | the events of downloadBlob in source order: the lookup first, a panic exactly on nil attributes without an error, and for an opened reader the deferred Close as the last event |
| Proxy.DownloadEffect | proxy/proxy.go:57-87 | the response after a download, per outcome: 404 for a nil handle or an attribute error; the content type added; 404 for a failed open; the copy's writes, then the 404 of a failed copy |
| Proxy.LateNotFoundIgnored | proxy/proxy.go:81-86 | once the reader is open, the `WriteHeader(404)` after a failed copy has no effect: the response writer ends the same whether the copy fails or not |
| Proxy.CheckTrace | proxy/proxy.go:89-102 | the events of checkBlobExists in source order: the lookup first, and never a panic |
| Proxy.CheckEffect | proxy/proxy.go:89-102 | a check answers 404 for a nil handle, an attribute error or nil attributes, and changes nothing otherwise |
| Proxy.UploadTrace | proxy/proxy.go:104-118 | the events of uploadBlob in source order: the lookup first, a panic exactly on a nil handle, and otherwise the deferred writer Close as the last event |
| Proxy.UploadEffect | proxy/proxy.go:104-118 | an upload answers 400 with the fixed message followed by the error text when the copy fails, and 201 otherwise |
| Proxy.HandlerTrace | proxy/proxy.go:37-55 | an empty path panics before anything happens; for GET, HEAD, POST and PUT the first event is the lookup of the key the path resolves to |
| Proxy.Served | proxy/proxy.go:37-55 | the client gets no reply exactly when the handler panicked, and otherwise a body of exactly the bytes the handler wrote |
| Proxy.StorageProxy.constructor | proxy/proxy.go:18-23 | the proxy keeps the given bucket and prefix |
| Proxy.StorageProxy.DownloadBlob | proxy/proxy.go:57-87 | the writer ends as the download trace of key prefix+name determines; it panics exactly when that trace does; a reader is opened exactly when the handle is non-nil, the attributes are present and the open succeeds, and is then closed exactly once |
| Proxy.StorageProxy.CheckBlobExists | proxy/proxy.go:89-102 | the writer ends as the check trace determines, and it panics exactly when that trace does (never) |
| Proxy.StorageProxy.UploadBlob | proxy/proxy.go:104-118 | the writer ends as the upload trace determines; a writer is opened exactly when the handle is non-nil (otherwise it panics), and is closed exactly once |
| Proxy.StorageProxy.Handler | proxy/proxy.go:37-55 | the writer ends as the handler trace determines, the handler panics exactly when it does, and readers and writers are opened only for GET and POST/PUT on a non-empty path as above, each closed once |
| ProxyProperties.FirstHeader | proxy/proxy.go:71-72 | adding the content type to a fresh writer gives exactly that header, an unset status and an empty body |
| ProxyProperties.Dispatch | proxy/proxy.go:43-54 | for a non-empty path, GET runs the download, HEAD the check, POST and PUT the upload, on the resolved key, and anything else writes 405 |
| ProxyProperties.DownloadReply | proxy/proxy.go:57-87 | what a GET client receives: an empty 404 on a nil handle or an attribute error; no reply on nil attributes; a 404 with the content type on a failed open; otherwise a 200 with the content type and the object bytes, whether or not the copy fails |
| ProxyProperties.CheckReply | proxy/proxy.go:89-102 | a HEAD client receives an empty 404 unless the handle and its attributes exist, and an empty 200 then |
| ProxyProperties.UploadReply | proxy/proxy.go:104-118 | a POST/PUT client receives no reply on a nil handle, a 400 whose body is "Failed read cache body! " + error on a failed copy, and an empty 201 otherwise |
| ProxyProperties.NotAllowed | proxy/proxy.go:52-53 | any other method receives an empty 405 and causes no backend call |
| ProxyProperties.PostIsPut | proxy/proxy.go:48-51 | POST and PUT are handled identically |
| ProxyProperties.Aborts | proxy/proxy.go:39 | the client gets no reply if and only if the path is empty, or a GET meets nil attributes without an error, or an upload meets a nil handle |
| ProxyProperties.ServedStatus | proxy/proxy.go:37-118 | the status a client receives is the first status-fixing call of the handler, or 200 when there is none |
| ProxyProperties.DownloadOps | proxy/proxy.go:58-79 | a download looks up the key, fetches the attributes unless the handle is nil, and opens a reader only with attributes present, closing it only if the open succeeded |
| ProxyProperties.ReaderOps | proxy/proxy.go:74-79 | with attributes present, a download opens a reader and closes it exactly when the open succeeded |
| ProxyProperties.CheckOps | proxy/proxy.go:90-97 | a check looks up the key and fetches the attributes unless the handle is nil, and does nothing else on the backend |
| ProxyProperties.UploadOps | proxy/proxy.go:105-110 | an upload looks up the key and, unless the handle is nil, opens a writer, copies the body and closes the writer |
| ProxyProperties.DownloadLooksUpOnce | proxy/proxy.go:58 | a download asks the bucket for exactly one object handle, as its first backend call, for its key |
| ProxyProperties.CheckLooksUpOnce | proxy/proxy.go:90 | a check asks the bucket for exactly one object handle, as its first backend call, for its key |
| ProxyProperties.UploadLooksUpOnce | proxy/proxy.go:105 | an upload asks the bucket for exactly one object handle, as its first backend call, for its key |
| ProxyProperties.OneObject | proxy/proxy.go:37-55 | every supported request on a non-empty path looks up exactly one object, the one its path resolves to, before any other backend call |

## Left out

- `Serve`, the registration of the handler and `http.ListenAndServe`: network I/O. The `main.go` files (flag parsing and client construction) are not part of this model.
- `NewStorageProxy` is modelled only as the `StorageProxy` constructor.
- Cloud Storage itself and the `context.Background()` values. The backend answers are an `Outcomes` value per key. Nothing is claimed about objects stored or their contents across requests.
- The bytes that `bufio.Reader.WriteTo` moves and how it chunks them. A download is its first write of the still-empty buffer, then a list of chunk writes, then success or failure.
- The upload copy `bufio.NewWriter(writer).ReadFrom(bufio.NewReader(r.Body))`. It is one outcome: success or an error message. The request body's bytes are not modelled.
- Proxy.StorageProxy.UploadBlob: the bytes left in the unflushed `bufio.Writer` are not modelled, so the model does not show whether the uploaded object holds the whole body.
- The error text formatted by `fmt.Sprintf("%s", err)` is the `msg` of `CopyErr`, taken as given.
- Headers net/http adds by itself: `Content-Length`, `Date`, and a sniffed `Content-Type` when none was set. The canonicalisation of header names is not modelled either.
- The body net/http suppresses for HEAD responses: HEAD handling never writes a body.
- net/http's recovery from a handler panic. The model stops the trace and reports `Aborted`; the logging and the closed connection are not modelled.
- The log line net/http writes for a superfluous `WriteHeader` is not modelled. The call itself is modelled, and it is ignored.
- Concurrency between requests and logging.
