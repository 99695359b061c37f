/**
  The per-request lifecycle of the gateway's HTTP server (index.js:67-125):
  route lookup, the 404 answer, body buffering, the substitution of `{}`
  for an empty body, the parse-or-500 step and the completion context
  handed to the route's handler.
 */
module Dispatch {
  import opened Wrappers
  import opened Js

  /**
    The library calls the gateway makes and does not define: `JSON.parse`
    (`None` when it throws), `JSON.stringify`, and the `path` of
    `url.parse(u)`, which keeps the query string.
   */
  datatype Library = Library(
    parse: string -> Option<Value>,
    stringify: Value -> string,
    path: string -> string)

  /** An incoming request: its method, its URL and the body chunks in arrival order. */
  datatype Request = Request(verb: string, url: string, chunks: seq<string>)

  /** Which completion operation a handler calls, if any, or that it throws before calling one. */
  datatype Completion =
    | Succeed(result: Value)
    | Fail(error: Value)
    | Done(error: Value, result: Value)
    | NoCompletion
    | Throws

  /** A handler, applied to its `lambda` value and to the event, picks a completion. */
  type Handler = (Value, Value) -> Completion

  datatype Reply = Reply(status: int, body: string)

  /**
    What one request comes to: the event the handler was invoked with, if
    it was invoked, the reply written, if one was (a handler that never
    completes leaves the request open), and whether an exception escaped
    the `'end'` listener: calling a `lambda` that is not a function
    (index.js:124), or a handler that throws.
   */
  datatype Trace = Trace(invoked: Option<Value>, reply: Option<Reply>, thrown: bool)

  /** No route entry is null or undefined, so its fields can be read. */
  predicate Readable(routes: seq<Value>) {
    forall j :: 0 <= j < |routes| ==> !Nullish(routes[j])
  }

  /** The test of index.js:75-76, with strict equality on the method and on the path. */
  predicate Matches(route: Value, verb: string, path: string)
    requires !Nullish(route)
  {
    Get(route, "method") == Str(verb) && Get(route, "route") == Str(path)
  }

  /** The earliest route, in declaration order, that matches. */
  function FirstMatch(routes: seq<Value>, verb: string, path: string): (r: Option<nat>)
    requires Readable(routes)
    ensures r.Some? ==> r.value < |routes| && Matches(routes[r.value], verb, path)
    ensures r.Some? ==> forall j :: 0 <= j < r.value ==> !Matches(routes[j], verb, path)
    ensures r.None? ==> forall j :: 0 <= j < |routes| ==> !Matches(routes[j], verb, path)
  {
    if routes == [] then None
    else if Matches(routes[0], verb, path) then Some(0)
    else match FirstMatch(routes[1..], verb, path)
      case None => None
      case Some(k) => Some(k + 1)
  }

  /** The `lambda` variable after the loop of index.js:70-80: `null` when no route matched. */
  function LambdaFor(routes: seq<Value>, verb: string, path: string): Value
    requires Readable(routes)
  {
    match FirstMatch(routes, verb, path)
    case None => Null
    case Some(i) => Get(routes[i], "lambda")
  }

  /** The loop of index.js:74-80, which stops at the first match. */
  method FindRoute(routes: seq<Value>, verb: string, path: string) returns (lambda: Value)
    requires Readable(routes)
    ensures lambda == LambdaFor(routes, verb, path)
  {
    lambda := Null;
    var i := 0;
    while i < |routes|
      invariant 0 <= i <= |routes|
      invariant forall j :: 0 <= j < i ==> !Matches(routes[j], verb, path)
    {
      if Matches(routes[i], verb, path) {
        lambda := Get(routes[i], "lambda");
        break;
      }
      i := i + 1;
    }
  }

  /** The body as the chunks of a request spell it, in order. */
  function Concat(chunks: seq<string>): string {
    if chunks == [] then "" else chunks[0] + Concat(chunks[1..])
  }

  /** The loop of index.js:104-107: `body += data` for every chunk. */
  method Collect(chunks: seq<string>) returns (body: string)
    ensures body == Concat(chunks)
  {
    body := "";
    var i := 0;
    while i < |chunks|
      invariant 0 <= i <= |chunks|
      invariant body == Concat(chunks[..i])
    {
      ConcatAppend(chunks[..i], [chunks[i]]);
      assert chunks[..i + 1] == chunks[..i] + [chunks[i]];
      body := body + chunks[i];
      i := i + 1;
    }
    assert chunks[..|chunks|] == chunks;
  }

  lemma {:induction false} ConcatAppend(a: seq<string>, b: seq<string>)
    ensures Concat(a + b) == Concat(a) + Concat(b)
  {
    if a == [] {
      assert a + b == b;
    } else {
      assert (a + b)[1..] == a[1..] + b;
      ConcatAppend(a[1..], b);
    }
  }

  /** The text JSON.parse is given: the body, or `{}` when the body is empty (index.js:116). */
  function ParseInput(body: string): (text: string)
    ensures text != ""
    ensures body != "" ==> text == body
  {
    if |body| == 0 then "{}" else body
  }

  /**
    The reply a completion produces: `succeed` answers 200 and `fail`
    answers 500, each with the serialised value (index.js:90-97); `done`
    fails with a truthy error and succeeds otherwise (index.js:98-101).
   */
  function Settle(c: Completion, stringify: Value -> string): (r: Option<Reply>)
    ensures r.Some? ==> r.value.status in {200, 500}
    ensures r.None? <==> c.NoCompletion? || c.Throws?
    decreases if c.Done? then 1 else 0
  {
    match c
    case Succeed(v) => Some(Reply(200, stringify(v)))
    case Fail(e) => Some(Reply(500, stringify(e)))
    case Done(e, v) => Settle(DoneAs(e, v), stringify)
    case NoCompletion => None
    case Throws => None
  }

  /** The dispatch of `done(e, obj)` (index.js:98-101): `fail(e)` when `e` is truthy, else `succeed(obj)`. */
  function DoneAs(e: Value, obj: Value): (c: Completion)
    ensures c == Fail(e) || c == Succeed(obj)
    ensures c.Fail? <==> Truthy(e)
  {
    if Truthy(e) then Fail(e) else Succeed(obj)
  }

  /** The request lifecycle of index.js:67-125, as values. */
  function Lifecycle(routes: seq<Value>, req: Request, lib: Library, handler: Handler): (t: Trace)
    requires Readable(routes)
    ensures t.reply.Some? ==> t.reply.value.status in {200, 404, 500}
    ensures t.thrown ==> t.reply.None?
    ensures t.invoked.Some? ==> IsFunction(LambdaFor(routes, req.verb, lib.path(req.url)))
    ensures t.invoked.None? ==> !t.reply.Some? || t.reply.value.body == ""
  {
    var lambda := LambdaFor(routes, req.verb, lib.path(req.url));
    if !Truthy(lambda) then Trace(None, Some(Reply(404, "")), false)
    else match lib.parse(ParseInput(Concat(req.chunks)))
      case None => Trace(None, Some(Reply(500, "")), false)
      case Some(event) =>
        if !IsFunction(lambda) then Trace(None, None, true)
        else
          var c := handler(lambda, event);
          Trace(Some(event), Settle(c, lib.stringify), c.Throws?)
  }

  /** The `resp` object of one request: a status code and, once `end` was called, a body. */
  class Response {
    var statusCode: int
    var body: Option<string>

    /** Node starts every response at status 200, not yet ended. */
    constructor ()
      ensures statusCode == 200 && body == None
    {
      statusCode := 200;
      body := None;
    }

    /** `resp.end(data)`; a plain `resp.end()` ends with the empty body. */
    method End(data: string)
      modifies this
      ensures statusCode == old(statusCode) && body == Some(data)
    {
      body := Some(data);
    }
  }

  /** The `context` object of index.js:89-101, bound to one response. */
  class Context {
    const resp: Response
    const stringify: Value -> string

    constructor (resp: Response, stringify: Value -> string)
      ensures this.resp == resp && this.stringify == stringify
    {
      this.resp := resp;
      this.stringify := stringify;
    }

    method Succeed(obj: Value)
      modifies resp
      ensures resp.statusCode == 200 && resp.body == Some(stringify(obj))
      ensures Settle(Completion.Succeed(obj), stringify) == Some(Reply(resp.statusCode, resp.body.value))
    {
      resp.statusCode := 200;
      resp.End(stringify(obj));
    }

    method Fail(obj: Value)
      modifies resp
      ensures resp.statusCode == 500 && resp.body == Some(stringify(obj))
      ensures Settle(Completion.Fail(obj), stringify) == Some(Reply(resp.statusCode, resp.body.value))
    {
      resp.statusCode := 500;
      resp.End(stringify(obj));
    }

    method Done(e: Value, obj: Value)
      modifies resp
      ensures Truthy(e) ==> resp.statusCode == 500 && resp.body == Some(stringify(e))
      ensures !Truthy(e) ==> resp.statusCode == 200 && resp.body == Some(stringify(obj))
      ensures Settle(Completion.Done(e, obj), stringify) == Some(Reply(resp.statusCode, resp.body.value))
    {
      if Truthy(e) {
        Fail(e);
      } else {
        Succeed(obj);
      }
    }
  }

  /**
    Serves one request as `incommingMessage` does (index.js:67-125): the
    handler is invoked at most once, and the response is written at most
    once. `thrown` reports an exception escaping the `'end'` listener.
   */
  method Serve(routes: seq<Value>, req: Request, resp: Response, lib: Library, handler: Handler)
    returns (invoked: Option<Value>, thrown: bool)
    requires Readable(routes)
    requires resp.body.None?
    modifies resp
    ensures invoked == Lifecycle(routes, req, lib, handler).invoked
    ensures thrown == Lifecycle(routes, req, lib, handler).thrown
    ensures var reply := Lifecycle(routes, req, lib, handler).reply;
      match reply
      case Some(r) => resp.statusCode == r.status && resp.body == Some(r.body)
      case None => resp.statusCode == old(resp.statusCode) && resp.body.None?
  {
    var lambda := FindRoute(routes, req.verb, lib.path(req.url));
    if !Truthy(lambda) {
      resp.statusCode := 404;
      resp.End("");
      return None, false;
    }
    var context := new Context(resp, lib.stringify);
    var body := Collect(req.chunks);
    if |body| == 0 {
      body := "{}";
    }
    match lib.parse(body)
    case None =>
      resp.statusCode := 500;
      resp.End("");
      return None, false;
    case Some(event) =>
      if !IsFunction(lambda) {
        // `lambda(event, context)` throws a TypeError: nothing is invoked
        return None, true;
      }
      var completion := handler(lambda, event);
      match completion {
        case Succeed(v) => context.Succeed(v);
        case Fail(e) => context.Fail(e);
        case Done(e, v) => context.Done(e, v);
        case NoCompletion =>
        case Throws =>
      }
      return Some(event), completion.Throws?;
  }
}

module DispatchProperties {
  import opened Wrappers
  import opened Js
  import opened Scrub
  import opened ScrubProperties
  import opened Dispatch

  /** Routes declared after a matching one are never selected, duplicates included. */
  lemma {:induction false} LaterRoutesIgnored(a: seq<Value>, b: seq<Value>, verb: string, path: string)
    requires Readable(a) && Readable(b)
    requires FirstMatch(a, verb, path).Some?
    ensures Readable(a + b) && FirstMatch(a + b, verb, path) == FirstMatch(a, verb, path)
  {
    assert Readable(a + b) by {
      forall j | 0 <= j < |a + b| ensures !Nullish((a + b)[j]) {
        if j < |a| { assert (a + b)[j] == a[j]; } else { assert (a + b)[j] == b[j - |a|]; }
      }
    }
    if !Matches(a[0], verb, path) {
      assert (a + b)[1..] == a[1..] + b;
      LaterRoutesIgnored(a[1..], b, verb, path);
    }
  }

  /** Earlier routes that do not match do not prevent a later match; its index shifts past them. */
  lemma {:induction false} EarlierMissesSkipped(a: seq<Value>, b: seq<Value>, verb: string, path: string)
    requires Readable(a) && Readable(b)
    requires FirstMatch(a, verb, path).None?
    ensures Readable(a + b)
    ensures FirstMatch(a + b, verb, path) ==
              match FirstMatch(b, verb, path)
              case None => None
              case Some(k) => Some(|a| + k)
  {
    assert Readable(a + b) by {
      forall j | 0 <= j < |a + b| ensures !Nullish((a + b)[j]) {
        if j < |a| { assert (a + b)[j] == a[j]; } else { assert (a + b)[j] == b[j - |a|]; }
      }
    }
    if a == [] {
      assert a + b == b;
    } else {
      assert (a + b)[1..] == a[1..] + b;
      assert !Matches(a[0], verb, path);
      EarlierMissesSkipped(a[1..], b, verb, path);
    }
  }

  function TotalLength(chunks: seq<string>): nat {
    if chunks == [] then 0 else |chunks[0]| + TotalLength(chunks[1..])
  }

  /** Where chunk `k` starts in the buffered body. */
  function Offset(chunks: seq<string>, k: nat): nat
    requires k <= |chunks|
  {
    TotalLength(chunks[..k])
  }

  /** Buffering loses and adds nothing: the body is as long as all chunks together. */
  lemma {:induction false} ConcatLength(chunks: seq<string>)
    ensures |Concat(chunks)| == TotalLength(chunks)
  {
    if chunks != [] {
      ConcatLength(chunks[1..]);
    }
  }

  /** The body is empty exactly when every chunk is empty. */
  lemma {:induction false} ConcatEmpty(chunks: seq<string>)
    ensures Concat(chunks) == "" <==> forall k :: 0 <= k < |chunks| ==> chunks[k] == ""
  {
    if chunks != [] {
      ConcatEmpty(chunks[1..]);
      assert forall k :: 1 <= k < |chunks| ==> chunks[k] == chunks[1..][k - 1];
    }
  }

  /** Chunk `k` appears in the body at its offset, in arrival order. */
  lemma ChunkInPlace(chunks: seq<string>, k: nat)
    requires k < |chunks|
    ensures Offset(chunks, k) + |chunks[k]| <= |Concat(chunks)|
    ensures Concat(chunks)[Offset(chunks, k)..Offset(chunks, k) + |chunks[k]|] == chunks[k]
  {
    var pre, rest := chunks[..k], chunks[k..];
    assert chunks == pre + rest;
    ConcatAppend(pre, rest);
    ConcatLength(pre);
    assert Concat(rest) == chunks[k] + Concat(rest[1..]);
  }

  /** Without a matching route the answer is 404 with an empty body, and no handler runs (index.js:83-86). */
  lemma NoRouteIsNotFound(routes: seq<Value>, req: Request, lib: Library, handler: Handler)
    requires Readable(routes)
    requires FirstMatch(routes, req.verb, lib.path(req.url)).None?
    ensures Lifecycle(routes, req, lib, handler) == Trace(None, Some(Reply(404, "")), false)
  {
  }


  /**
    On routes that passed scrubbing, a request is answered 404 exactly when
    no route matches its method and path.
   */
  lemma NotFoundIffNoRoute(routes: seq<Value>, req: Request, lib: Library, handler: Handler)
    requires forall j :: 0 <= j < |routes| ==> ValidRoute(routes[j])
    ensures Readable(routes)
    ensures var t := Lifecycle(routes, req, lib, handler);
      (t.reply.Some? && t.reply.value.status == 404) <==> FirstMatch(routes, req.verb, lib.path(req.url)).None?
  {
    if FirstMatch(routes, req.verb, lib.path(req.url)).Some? {
      assert Truthy(LambdaFor(routes, req.verb, lib.path(req.url)));
    }
  }

  /**
    With a route found, a body that does not parse is answered 500 with an
    empty body and nothing is called; a body that parses is handed to the
    route's `lambda`. When `lambda` is a function it is invoked once, with
    the parsed value, and its completion is the reply; otherwise the call
    throws, nothing is invoked and no reply is written (index.js:112-125).
   */
  lemma ParseOr500(routes: seq<Value>, req: Request, lib: Library, handler: Handler)
    requires Readable(routes)
    requires Truthy(LambdaFor(routes, req.verb, lib.path(req.url)))
    ensures var t := Lifecycle(routes, req, lib, handler);
      var lambda := LambdaFor(routes, req.verb, lib.path(req.url));
      var parsed := lib.parse(ParseInput(Concat(req.chunks)));
      && (parsed.None? ==> t == Trace(None, Some(Reply(500, "")), false))
      && (parsed.Some? && !IsFunction(lambda) ==> t == Trace(None, None, true))
      && (parsed.Some? && IsFunction(lambda) ==> t.invoked == parsed)
      && (parsed.Some? && IsFunction(lambda) ==> t.reply == Settle(handler(lambda, parsed.value), lib.stringify))
      && (parsed.Some? && IsFunction(lambda) ==> (t.thrown <==> handler(lambda, parsed.value).Throws?))
  {
  }

  /**
    The handler is invoked, with `event`, exactly when the matched route's
    `lambda` is a function and the body parsed to `event`.
   */
  lemma InvokedIff(routes: seq<Value>, req: Request, lib: Library, handler: Handler, event: Value)
    requires Readable(routes)
    ensures Lifecycle(routes, req, lib, handler).invoked == Some(event) <==>
              IsFunction(LambdaFor(routes, req.verb, lib.path(req.url))) &&
              lib.parse(ParseInput(Concat(req.chunks))) == Some(event)
  {
  }


  /**
    A request whose chunks are all empty reaches the handler with whatever
    `{}` parses to; with a JSON parser that is the empty object (index.js:116).
   */
  lemma EmptyBodyIsEmptyObject(routes: seq<Value>, req: Request, lib: Library, handler: Handler)
    requires Readable(routes)
    requires Truthy(LambdaFor(routes, req.verb, lib.path(req.url)))
    requires forall k :: 0 <= k < |req.chunks| ==> req.chunks[k] == ""
    requires lib.parse("{}") == Some(Obj(map[]))
    ensures IsFunction(LambdaFor(routes, req.verb, lib.path(req.url))) ==>
              Lifecycle(routes, req, lib, handler).invoked == Some(Obj(map[]))
    ensures !IsFunction(LambdaFor(routes, req.verb, lib.path(req.url))) ==>
              Lifecycle(routes, req, lib, handler) == Trace(None, None, true)
  {
    ConcatEmpty(req.chunks);
  }

  /** `done(e, v)` is `fail(e)` for a truthy `e` and `succeed(v)` otherwise, `null` and `undefined` included. */
  lemma DoneIsFailOrSucceed(e: Value, v: Value, stringify: Value -> string)
    ensures Truthy(e) ==> Settle(Done(e, v), stringify) == Settle(Fail(e), stringify)
    ensures !Truthy(e) ==> Settle(Done(e, v), stringify) == Settle(Succeed(v), stringify)
    ensures Settle(Done(Null, v), stringify) == Some(Reply(200, stringify(v)))
    ensures Settle(Done(Undefined, v), stringify) == Some(Reply(200, stringify(v)))
  {
  }

  /** The lookup depends on the URL only through its `url.parse` path: equal paths are served alike. */
  lemma KeyIsFullPath(routes: seq<Value>, req1: Request, req2: Request, lib: Library, handler: Handler)
    requires Readable(routes)
    requires req1.verb == req2.verb && req1.chunks == req2.chunks
    requires lib.path(req1.url) == lib.path(req2.url)
    ensures Lifecycle(routes, req1, lib, handler) == Lifecycle(routes, req2, lib, handler)
  {
  }

  /**
    The query string is part of the lookup key (index.js:76): when the path
    is `p` followed by a query, a table whose routes all declare `p` has no
    match, and the request is answered 404.
   */
  lemma QueryIsNotStripped(routes: seq<Value>, req: Request, lib: Library, handler: Handler, p: string, q: string)
    requires Readable(routes)
    requires forall j :: 0 <= j < |routes| ==> Get(routes[j], "route") == Str(p)
    requires lib.path(req.url) == p + "?" + q
    ensures FirstMatch(routes, req.verb, lib.path(req.url)).None?
    ensures Lifecycle(routes, req, lib, handler) == Trace(None, Some(Reply(404, "")), false)
  {
    assert p + "?" + q != p by { assert |p + "?" + q| > |p|; }
  }

  /**
    When `init` was given no routes (absent or falsy `opts.routes`), every
    request is answered 404 (index.js:63, 83-86).
   */
  lemma NoRoutesAllNotFound(opts: Value, req: Request, lib: Library, handler: Handler)
    requires ScrubSpec(opts).outcome.Success?
    requires !Truthy(Get(opts, "routes"))
    ensures Readable(ScrubSpec(opts).outcome.value.routes)
    ensures Lifecycle(ScrubSpec(opts).outcome.value.routes, req, lib, handler) == Trace(None, Some(Reply(404, "")), false)
  {
    FalsyRoutesBecomeEmpty(opts);
  }

  /** Every route table `init` accepts can be served: no entry is null or undefined. */
  lemma ScrubbedRoutesReadable(opts: Value)
    requires ScrubSpec(opts).outcome.Success?
    ensures Readable(ScrubSpec(opts).outcome.value.routes)
  {
  }
}
