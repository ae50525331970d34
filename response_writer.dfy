/**
 * The part of net/http's `http.ResponseWriter` that the proxy relies on, as the
 * client sees it: a header, a status line decided once, and a body.
 *
 * - The first `WriteHeader(code)` fixes the status to `code`.
 * - The first `Write` before any `WriteHeader` fixes the status to 200.
 * - A `WriteHeader` after the status is fixed has no effect.
 * - Changing the header after the status is fixed has no effect on the response.
 * - A handler that returns without fixing the status is answered with 200.
 */
module ResponseWriter {
  import opened Text

  /** `http.Header`: field name to the values added under it, in order. */
  type Header = map<Bytes, seq<Bytes>>

  /** The status line: not decided yet, or fixed for good. */
  datatype Status = Unset | Fixed(code: int)

  /** What the response writer has committed to so far. */
  datatype Response = Response(header: Header, status: Status, body: Bytes)

  /** The response writer a handler starts with. */
  const Fresh: Response := Response(map[], Unset, [])

  /** `http.StatusOK`. */
  const StatusOK: int := 200

  /** One call of the handler on the response writer. */
  datatype Call =
    | AddHeader(name: Bytes, value: Bytes)  // w.Header().Add(name, value)
    | WriteHeader(code: int)                // w.WriteHeader(code)
    | Write(data: Bytes)                    // w.Write(data)

  /** `Header.Add`: append a value under a name, keeping the values already there. */
  function Added(h: Header, name: Bytes, value: Bytes): (h': Header)
    ensures h'.Keys == h.Keys + {name}
    ensures h'[name] == (if name in h then h[name] else []) + [value]
    ensures forall n :: n in h && n != name ==> h'[n] == h[n]
  {
    h[name := (if name in h then h[name] else []) + [value]]
  }

  /** The effect of one call. */
  function Apply(r: Response, c: Call): (r': Response)
    ensures r.status.Fixed? ==> r'.status == r.status && r'.header == r.header
    ensures r'.body == if c.Write? then r.body + c.data else r.body
    ensures c.Write? || c.WriteHeader? ==> r'.status.Fixed?
    ensures c.Write? ==> r'.header == r.header
  {
    match c
    case AddHeader(name, value) =>
      if r.status.Unset? then r.(header := Added(r.header, name, value)) else r
    case WriteHeader(code) =>
      if r.status.Unset? then r.(status := Fixed(code)) else r
    case Write(data) =>
      r.(status := if r.status.Unset? then Fixed(StatusOK) else r.status, body := r.body + data)
  }

  /** The bytes a list of calls writes to the body, in order. */
  function Written(calls: seq<Call>): Bytes {
    if calls == [] then []
    else
      var last := calls[|calls| - 1];
      Written(calls[..|calls| - 1]) + (if last.Write? then last.data else [])
  }

  /**
   * The effect of a list of calls made in order. Once fixed, the status and the
   * header never change again, and the body only ever grows by what is written.
   */
  function Replay(r: Response, calls: seq<Call>): (r': Response)
    ensures r.status.Fixed? ==> r'.status == r.status && r'.header == r.header
    ensures r'.body == r.body + Written(calls)
  {
    if calls == [] then r
    else Apply(Replay(r, calls[..|calls| - 1]), calls[|calls| - 1])
  }

  /** Reference definition: the status decided by the first `WriteHeader` or `Write`. */
  function FirstStatus(calls: seq<Call>): Status {
    if calls == [] then Unset
    else match calls[0]
      case AddHeader(_, _) => FirstStatus(calls[1..])
      case WriteHeader(code) => Fixed(code)
      case Write(_) => Fixed(StatusOK)
  }

  /** The status code the client receives once the handler has returned. */
  function SentCode(r: Response): int {
    if r.status.Fixed? then r.status.code else StatusOK
  }

  /** Calls in sequence compose. */
  lemma {:induction false} ReplayAppend(r: Response, a: seq<Call>, b: seq<Call>)
    ensures Replay(r, a + b) == Replay(Replay(r, a), b)
  {
    if b != [] {
      assert (a + b)[..|a + b| - 1] == a + b[..|b| - 1];
      ReplayAppend(r, a, b[..|b| - 1]);
    } else {
      assert a + b == a;
    }
  }

  /** One more call. */
  lemma ReplaySnoc(r: Response, calls: seq<Call>, c: Call)
    ensures Replay(r, calls + [c]) == Apply(Replay(r, calls), c)
  {
    assert (calls + [c])[..|calls|] == calls;
  }

  /** On a response whose status is not yet fixed, the status is decided by the first status-fixing call. */
  lemma {:induction false} StatusIsFirst(r: Response, calls: seq<Call>)
    requires r.status.Unset?
    ensures Replay(r, calls).status == FirstStatus(calls)
    decreases |calls|
  {
    if calls != [] {
      ReplayAppend(r, [calls[0]], calls[1..]);
      assert [calls[0]] + calls[1..] == calls;
      assert Replay(r, [calls[0]]) == Apply(r, calls[0]) by {
        assert [calls[0]][..0] == [];
      }
      if calls[0].AddHeader? {
        StatusIsFirst(Apply(r, calls[0]), calls[1..]);
      }
    }
  }

  /** The writes of a list of byte chunks, one `Write` per chunk. */
  function WriteCalls(chunks: seq<Bytes>): seq<Call> {
    if chunks == [] then [] else WriteCalls(chunks[..|chunks| - 1]) + [Write(chunks[|chunks| - 1])]
  }

  /**
   * Writing chunks leaves the header alone, appends their bytes to the body and,
   * when at least one write happens, fixes the status: to 200 unless it was fixed
   * before. Writing no chunk changes nothing.
   */
  lemma {:induction false} ReplayWrites(r: Response, chunks: seq<Bytes>)
    ensures Replay(r, WriteCalls(chunks)) ==
      if chunks == [] then r
      else Response(r.header, if r.status.Unset? then Fixed(StatusOK) else r.status, r.body + Flatten(chunks))
  {
    if chunks != [] {
      var n := |chunks| - 1;
      var before := Replay(r, WriteCalls(chunks[..n]));
      assert Replay(r, WriteCalls(chunks)) == Apply(before, Write(chunks[n])) by {
        ReplaySnoc(r, WriteCalls(chunks[..n]), Write(chunks[n]));
      }
      assert Flatten(chunks) == Flatten(chunks[..n]) + chunks[n];
      assert before.header == r.header && before.body == r.body + Flatten(chunks[..n]) by {
        if n == 0 {
          assert chunks[..n] == [];
        } else {
          ReplayWrites(r, chunks[..n]);
        }
      }
      assert if r.status.Unset? then before.status in {Unset, Fixed(StatusOK)} else before.status == r.status by {
        if n == 0 {
          assert chunks[..n] == [];
        } else {
          ReplayWrites(r, chunks[..n]);
        }
      }
    }
  }

  /** A mutable response writer that records what a handler does to it. */
  class Recorder {
    var header: Header
    var status: Status
    var body: Bytes

    /** The abstract value of the recorder. */
    function State(): Response
      reads this
    {
      Response(header, status, body)
    }

    constructor ()
      ensures State() == Fresh
    {
      header, status, body := map[], Unset, [];
    }

    /** `w.Header().Add(name, value)`. */
    method AddHeader(name: Bytes, value: Bytes)
      modifies this
      ensures State() == Apply(old(State()), Call.AddHeader(name, value))
    {
      if status.Unset? {
        var values := if name in header then header[name] else [];
        header := header[name := values + [value]];
      }
    }

    /** `w.WriteHeader(code)`. */
    method WriteHeader(code: int)
      modifies this
      ensures State() == Apply(old(State()), Call.WriteHeader(code))
    {
      if status.Unset? {
        status := Fixed(code);
      }
    }

    /** `w.Write(data)`: fixes the status to 200 if nothing fixed it yet. */
    method Write(data: Bytes)
      modifies this
      ensures State() == Apply(old(State()), Call.Write(data))
    {
      if status.Unset? {
        status := Fixed(StatusOK);
      }
      body := body + data;
    }
  }
}
