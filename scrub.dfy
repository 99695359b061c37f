/**
  Option scrubbing of the gateway's `init` (index.js:11-63): an ordered chain
  of checks on `opts`, `opts.listen` and `opts.routes`, each of which ends
  `init` with a fixed error, and the normalisation of `opts.listen` to an
  array and of an absent `opts.routes` to `[]`, both written back into the
  caller's object. Also the construction of the arguments of
  `server.listen` (index.js:131-134).
 */
module Scrub {
  import opened Wrappers
  import opened Js

  /** The ways `init` can stop before it creates a server, in the order of the checks. */
  datatype ScrubError =
    | OptsRequired               // `opts` is a function
    | OptsNotObject              // typeof opts is not "object"
    | OptsNull                   // `opts` is null: reading `opts.listen` throws
    | ListenRequired             // `opts.listen` is falsy
    | TooManyListenArgs          // more than three listen arguments
    | ListenFunction             // a listen argument is a function
    | RoutesNotArray             // `opts.routes` is truthy but not an Array
    | RouteNotObject(i: nat)     // `opts.routes[i]` is null or undefined: reading its fields throws
    | RouteNoMethod(i: nat)
    | RouteNoLambda(i: nat)
    | RouteNoRoute(i: nat)

  /** Where an error goes: into `opts` itself, into `cb`, or thrown at `init`'s caller. */
  datatype Channel = ToOpts | ToCallback | Thrown

  function ChannelOf(e: ScrubError): Channel {
    match e
    case OptsRequired => ToOpts
    case OptsNull => Thrown
    case RouteNotObject(_) => Thrown
    case _ => ToCallback
  }

  /** The message of the `Error` that `init` delivers. */
  function Message(e: ScrubError): string
    requires ChannelOf(e) != Thrown
  {
    match e
    case OptsRequired => "`opts` object required"
    case OptsNotObject => "`opts` must be an object"
    case ListenRequired => "`listen` is required"
    case TooManyListenArgs => "too many args for `listen`"
    case ListenFunction => "functions are not valid values for `listen`"
    case RoutesNotArray => "`routes` must be an array if present"
    case RouteNoMethod(_) => "`routes` object must define a `method`"
    case RouteNoLambda(_) => "`routes` object must define `lambda` function"
    case RouteNoRoute(_) => "`routes` object must define `route`"
  }

  /** What `init` hands on to the server once every check has passed. */
  datatype Config = Config(listen: seq<Value>, routes: seq<Value>)

  /** A non-array `listen` stands for the one-element array holding it. */
  function Wrap(listen: Value): seq<Value> {
    if listen.Arr? then listen.elems else [listen]
  }

  predicate HasFunction(listen: seq<Value>) {
    exists i :: 0 <= i < |listen| && IsFunction(listen[i])
  }

  /** The error the checks of index.js:50-58 report for route `r` at index `i`, if any. */
  function RouteError(r: Value, i: nat): (e: Option<ScrubError>)
    ensures e.None? <==> ValidRoute(r)
    ensures e.Some? ==> IsRouteError(e.value) && e.value.i == i
  {
    if Nullish(r) then Some(RouteNotObject(i))
    else if !Truthy(Get(r, "method")) then Some(RouteNoMethod(i))
    else if !Truthy(Get(r, "lambda")) then Some(RouteNoLambda(i))
    else if !Truthy(Get(r, "route")) then Some(RouteNoRoute(i))
    else None
  }

  /** A route entry that passed the per-route checks. */
  predicate ValidRoute(r: Value) {
    !Nullish(r) && Truthy(Get(r, "method")) && Truthy(Get(r, "lambda")) && Truthy(Get(r, "route"))
  }

  /** The error of the first offending route at index `k` or later. */
  function FirstRouteError(routes: seq<Value>, k: nat): (r: Option<ScrubError>)
    requires k <= |routes|
    ensures r.None? <==> forall j :: k <= j < |routes| ==> ValidRoute(routes[j])
    ensures r.Some? ==> IsRouteError(r.value) && k <= r.value.i < |routes|
                          && RouteError(routes[r.value.i], r.value.i) == r
                          && forall j :: k <= j < r.value.i ==> ValidRoute(routes[j])
    decreases |routes| - k
  {
    if k == |routes| then None
    else if RouteError(routes[k], k).Some? then RouteError(routes[k], k)
    else FirstRouteError(routes, k + 1)
  }

  /** The outcome of the scrubbing, and the caller's `opts` as scrubbing leaves it. */
  datatype Scrubbed = Scrubbed(outcome: Result<Config, ScrubError>, opts: Value)

  /**
    The checks of index.js:11-63 in their order. `opts.listen` is wrapped
    (index.js:25-27) before its length and its entries are checked, so the
    wrapped value stays in `opts` even when a later check fails; an absent
    `opts.routes` becomes `[]` (index.js:63) only once every check passed.
   */
  function ScrubSpec(opts: Value): (s: Scrubbed)
    ensures s.outcome.Failure? && Rank(s.outcome.error) <= Rank(ListenRequired) ==> s.opts == opts
    ensures s.outcome.Failure? && Rank(s.outcome.error) > Rank(ListenRequired) ==>
              opts.Obj? && s.opts == Put(opts, "listen", Arr(Wrap(Get(opts, "listen"))))
    ensures s.outcome.Success? ==>
              && |s.outcome.value.listen| <= 3
              && !HasFunction(s.outcome.value.listen)
              && (forall j :: 0 <= j < |s.outcome.value.routes| ==> ValidRoute(s.outcome.value.routes[j]))
              && s.opts.Obj?
              && Get(s.opts, "listen") == Arr(s.outcome.value.listen)
              && Get(s.opts, "routes") == Arr(s.outcome.value.routes)
    ensures s.outcome.Success? ==>
              opts.Obj? && forall k :: k != "listen" && k != "routes" ==> Get(s.opts, k) == Get(opts, k)
  {
    if IsFunction(opts) then Scrubbed(Failure(OptsRequired), opts)
    else if TypeOf(opts) != "object" then Scrubbed(Failure(OptsNotObject), opts)
    else if opts.Null? then Scrubbed(Failure(OptsNull), opts)
    else if !Truthy(Get(opts, "listen")) then Scrubbed(Failure(ListenRequired), opts)
    else
      var opts1 := if Get(opts, "listen").Arr? then opts else Put(opts, "listen", Arr([Get(opts, "listen")]));
      var listen := Get(opts1, "listen").elems;
      if |listen| > 3 then Scrubbed(Failure(TooManyListenArgs), opts1)
      else if HasFunction(listen) then Scrubbed(Failure(ListenFunction), opts1)
      else
        var routes := Get(opts1, "routes");
        if Truthy(routes) && !routes.Arr? then Scrubbed(Failure(RoutesNotArray), opts1)
        else if Truthy(routes) && FirstRouteError(routes.elems, 0).Some? then
          Scrubbed(Failure(FirstRouteError(routes.elems, 0).value), opts1)
        else
          var opts2 := if Truthy(routes) then opts1 else Put(opts1, "routes", Arr([]));
          Scrubbed(Success(Config(listen, Get(opts2, "routes").elems)), opts2)
  }

  /** The position of each check in the chain; route `i`'s checks come after route `i - 1`'s. */
  function Rank(e: ScrubError): nat {
    match e
    case OptsRequired => 0
    case OptsNotObject => 1
    case OptsNull => 2
    case ListenRequired => 3
    case TooManyListenArgs => 4
    case ListenFunction => 5
    case RoutesNotArray => 6
    case RouteNotObject(i) => 7 + 4 * i
    case RouteNoMethod(i) => 8 + 4 * i
    case RouteNoLambda(i) => 9 + 4 * i
    case RouteNoRoute(i) => 10 + 4 * i
  }

  /**
    Whether the check that reports `e` fails on `opts`, judged on its own
    as if every earlier check had passed. A check whose operand cannot even
    be read (a property of `null`) is not counted as failing here.
   */
  predicate Fails(opts: Value, e: ScrubError) {
    match e
    case OptsRequired => IsFunction(opts)
    case OptsNotObject => TypeOf(opts) != "object"
    case OptsNull => opts.Null?
    case ListenRequired => !Nullish(opts) && !Truthy(Get(opts, "listen"))
    case TooManyListenArgs => !Nullish(opts) && |Wrap(Get(opts, "listen"))| > 3
    case ListenFunction => !Nullish(opts) && HasFunction(Wrap(Get(opts, "listen")))
    case RoutesNotArray => !Nullish(opts) && Truthy(Get(opts, "routes")) && !Get(opts, "routes").Arr?
    case _ => !Nullish(opts) && Get(opts, "routes").Arr? && RouteFails(Get(opts, "routes").elems, e)
  }

  predicate IsRouteError(e: ScrubError) {
    e.RouteNotObject? || e.RouteNoMethod? || e.RouteNoLambda? || e.RouteNoRoute?
  }

  /** Whether the per-route check that reports `e` fails on its route of `routes`. */
  predicate RouteFails(routes: seq<Value>, e: ScrubError) {
    match e
    case RouteNotObject(i) => i < |routes| && Nullish(routes[i])
    case RouteNoMethod(i) => i < |routes| && MissingField(routes[i], "method")
    case RouteNoLambda(i) => i < |routes| && MissingField(routes[i], "lambda")
    case RouteNoRoute(i) => i < |routes| && MissingField(routes[i], "route")
    case _ => false
  }

  predicate MissingField(r: Value, key: string) {
    !Nullish(r) && !Truthy(Get(r, key))
  }

  /**
    The arguments `init` passes to `server.listen` (index.js:131-134): a copy
    of the scrubbed `listen` array with the bind callback appended.
   */
  function ListenArgs(listen: seq<Value>, callback: Value): (args: seq<Value>)
    ensures |args| == |listen| + 1 && args[..|listen|] == listen && args[|listen|] == callback
  {
    listen + [callback]
  }

  /** The caller's `opts` argument, which `Init` updates in place. */
  class Opts {
    /** The value the caller passed as `opts`; `init` writes `listen` and `routes` back into it. */
    var value: Value

    constructor (v: Value)
      ensures value == v
    {
      value := v;
    }
  }

  /** The loop of index.js:37-41: does any listen argument have typeof "function"? */
  method ListenHasFunction(listen: seq<Value>) returns (found: bool)
    ensures found <==> HasFunction(listen)
  {
    var i := 0;
    while i < |listen|
      invariant 0 <= i <= |listen|
      invariant forall j :: 0 <= j < i ==> !IsFunction(listen[j])
    {
      if IsFunction(listen[i]) {
        return true;
      }
      i := i + 1;
    }
    return false;
  }

  /** The loop of index.js:49-59: the first route, and its first missing field, that fails the checks. */
  method FindInvalidRoute(routes: seq<Value>) returns (err: Option<ScrubError>)
    ensures err == FirstRouteError(routes, 0)
  {
    var i := 0;
    while i < |routes|
      invariant 0 <= i <= |routes|
      invariant forall j :: 0 <= j < i ==> ValidRoute(routes[j])
      invariant FirstRouteError(routes, 0) == FirstRouteError(routes, i)
    {
      var r := routes[i];
      if Nullish(r) {
        return Some(RouteNotObject(i));
      }
      if !Truthy(Get(r, "method")) {
        return Some(RouteNoMethod(i));
      }
      if !Truthy(Get(r, "lambda")) {
        return Some(RouteNoLambda(i));
      }
      if !Truthy(Get(r, "route")) {
        return Some(RouteNoRoute(i));
      }
      i := i + 1;
    }
    return None;
  }

  /**
    `init`'s scrubbing as index.js:11-63 runs it, with its early returns;
    the caller's `opts` is updated in place.
   */
  method Init(opts: Opts) returns (r: Result<Config, ScrubError>)
    modifies opts
    ensures Scrubbed(r, opts.value) == ScrubSpec(old(opts.value))
  {
    var v := opts.value;
    if IsFunction(v) {
      return Failure(OptsRequired);
    }
    if TypeOf(v) != "object" {
      return Failure(OptsNotObject);
    }
    if v.Null? {
      return Failure(OptsNull);
    }
    if !Truthy(Get(v, "listen")) {
      return Failure(ListenRequired);
    }
    if !Get(v, "listen").Arr? {
      opts.value := Put(v, "listen", Arr([Get(v, "listen")]));
    }
    var listen := Get(opts.value, "listen").elems;
    if |listen| > 3 {
      return Failure(TooManyListenArgs);
    }
    var bad := ListenHasFunction(listen);
    if bad {
      return Failure(ListenFunction);
    }
    var routes := Get(opts.value, "routes");
    if Truthy(routes) && !routes.Arr? {
      return Failure(RoutesNotArray);
    }
    if Truthy(routes) {
      var err := FindInvalidRoute(routes.elems);
      if err.Some? {
        return Failure(err.value);
      }
    }
    if !Truthy(routes) {
      opts.value := Put(opts.value, "routes", Arr([]));
    }
    return Success(Config(listen, Get(opts.value, "routes").elems));
  }
}

module ScrubProperties {
  import opened Wrappers
  import opened Js
  import opened Scrub

  lemma RankInjective(e1: ScrubError, e2: ScrubError)
    requires Rank(e1) == Rank(e2)
    ensures e1 == e2
  {
  }

  /** Reading `routes` is not affected by wrapping `listen`. */
  lemma WrapKeepsRoutes(opts: Value, x: Value)
    requires opts.Obj?
    ensures Get(Put(opts, "listen", x), "routes") == Get(opts, "routes")
  {
    assert "routes" != "listen" by { assert "routes"[0] != "listen"[0]; }
  }

  /** On valid routes no per-route check fails. */
  lemma ValidRoutesPass(routes: seq<Value>, e: ScrubError)
    requires IsRouteError(e) && e.i < |routes| && ValidRoute(routes[e.i])
    ensures !RouteFails(routes, e)
  {
  }

  /** The same check, ignoring which route it was applied to. */
  predicate SameCheck(e1: ScrubError, e2: ScrubError) {
    if IsRouteError(e1) || IsRouteError(e2) then
      (e1.RouteNotObject? && e2.RouteNotObject?) || (e1.RouteNoMethod? && e2.RouteNoMethod?) ||
      (e1.RouteNoLambda? && e2.RouteNoLambda?) || (e1.RouteNoRoute? && e2.RouteNoRoute?)
    else e1 == e2
  }

  /** A caller can tell from an error's message which check failed (not which route). */
  lemma MessageIdentifiesCheck(e1: ScrubError, e2: ScrubError)
    requires ChannelOf(e1) != Thrown && ChannelOf(e2) != Thrown
    requires Message(e1) == Message(e2)
    ensures SameCheck(e1, e2)
  {
  }

  /** The route error `FirstRouteError` reports fails, and no earlier route check fails. */
  lemma {:induction false} FirstRouteErrorIsFirst(routes: seq<Value>)
    requires FirstRouteError(routes, 0).Some?
    ensures RouteFails(routes, FirstRouteError(routes, 0).value)
    ensures forall e :: Rank(e) < Rank(FirstRouteError(routes, 0).value) ==> !RouteFails(routes, e)
  {
    var e := FirstRouteError(routes, 0).value;
    forall e' | Rank(e') < Rank(e)
      ensures !RouteFails(routes, e')
    {
      if IsRouteError(e') && e'.i < e.i {
        ValidRoutesPass(routes, e');
      }
    }
  }

  /** The facts a route-check failure of `ScrubSpec` rests on. */
  lemma RouteFailureFacts(opts: Value)
    requires ScrubSpec(opts).outcome.Failure? && Rank(ScrubSpec(opts).outcome.error) > Rank(RoutesNotArray)
    ensures opts.Obj? && Get(opts, "routes").Arr?
    ensures FirstRouteError(Get(opts, "routes").elems, 0) == Some(ScrubSpec(opts).outcome.error)
    ensures forall e :: Rank(e) <= Rank(RoutesNotArray) ==> !Fails(opts, e)
  {
    WrapKeepsRoutes(opts, Arr(Wrap(Get(opts, "listen"))));
  }

  /** A failure of the checks on `opts` itself (index.js:11-21) is the first failing check. */
  lemma OptsFailureIsFirstFailing(opts: Value)
    requires ScrubSpec(opts).outcome.Failure? && Rank(ScrubSpec(opts).outcome.error) <= Rank(ListenRequired)
    ensures Fails(opts, ScrubSpec(opts).outcome.error)
    ensures forall e :: Rank(e) < Rank(ScrubSpec(opts).outcome.error) ==> !Fails(opts, e)
  {
  }

  /** A failure of the checks on `listen` and on the type of `routes` (index.js:30-45) is the first failing check. */
  lemma ListenFailureIsFirstFailing(opts: Value)
    requires ScrubSpec(opts).outcome.Failure?
    requires Rank(ListenRequired) < Rank(ScrubSpec(opts).outcome.error) <= Rank(RoutesNotArray)
    ensures Fails(opts, ScrubSpec(opts).outcome.error)
    ensures forall e :: Rank(e) < Rank(ScrubSpec(opts).outcome.error) ==> !Fails(opts, e)
  {
    var e := ScrubSpec(opts).outcome.error;
    var listen := Get(opts, "listen");
    assert opts.Obj? && Truthy(listen);
    var opts1 := Put(opts, "listen", Arr(Wrap(listen)));
    assert Get(opts1, "listen").elems == Wrap(listen);
    WrapKeepsRoutes(opts, Arr(Wrap(listen)));
    forall e' | Rank(e') < Rank(e)
      ensures !Fails(opts, e')
    {
      assert Rank(e') <= Rank(ListenFunction);
    }
  }

  /** The error `ScrubSpec` reports is a failing check, and no earlier check fails. */
  lemma {:induction false} FailureIsFirstFailing(opts: Value)
    requires ScrubSpec(opts).outcome.Failure?
    ensures Fails(opts, ScrubSpec(opts).outcome.error)
    ensures forall e :: Rank(e) < Rank(ScrubSpec(opts).outcome.error) ==> !Fails(opts, e)
  {
    var e := ScrubSpec(opts).outcome.error;
    if Rank(e) > Rank(RoutesNotArray) {
      RouteFailureFacts(opts);
      var routes := Get(opts, "routes").elems;
      FirstRouteErrorIsFirst(routes);
      forall e' | Rank(e') < Rank(e)
        ensures !Fails(opts, e')
      {
        if Rank(e') > Rank(RoutesNotArray) {
          assert !RouteFails(routes, e');
        }
      }
    } else if Rank(e) > Rank(ListenRequired) {
      ListenFailureIsFirstFailing(opts);
    } else {
      OptsFailureIsFirstFailing(opts);
    }
  }

  /** When `ScrubSpec` succeeds, no check fails. */
  lemma {:induction false} SuccessMeansNoneFails(opts: Value)
    requires ScrubSpec(opts).outcome.Success?
    ensures forall e :: !Fails(opts, e)
  {
    WrapKeepsRoutes(opts, Arr(Wrap(Get(opts, "listen"))));
    forall e | IsRouteError(e) && Get(opts, "routes").Arr? && e.i < |Get(opts, "routes").elems|
      ensures !RouteFails(Get(opts, "routes").elems, e)
    {
      ValidRoutesPass(Get(opts, "routes").elems, e);
    }
  }

  /**
    Scrubbing reports exactly the first failing check in the order of
    index.js:11-59, and succeeds exactly when no check fails.
   */
  lemma FirstFailingCheck(opts: Value, e: ScrubError)
    ensures ScrubSpec(opts).outcome == Failure(e) <==>
              Fails(opts, e) && forall e' :: Rank(e') < Rank(e) ==> !Fails(opts, e')
    ensures ScrubSpec(opts).outcome.Success? <==> forall e' :: !Fails(opts, e')
  {
    var s := ScrubSpec(opts);
    if s.outcome.Failure? {
      FailureIsFirstFailing(opts);
      var e0 := s.outcome.error;
      if Fails(opts, e) && forall e' :: Rank(e') < Rank(e) ==> !Fails(opts, e') {
        assert !(Rank(e0) < Rank(e));
        assert !(Rank(e) < Rank(e0));
        RankInjective(e, e0);
      }
    } else {
      SuccessMeansNoneFails(opts);
    }
  }

  /**
    A non-array truthy `listen` value `p` is treated exactly like `[p]`:
    same outcome and same `opts` afterwards (index.js:25-27).
   */
  lemma WrappedListenIsSame(opts: Value, p: Value)
    requires opts.Obj? && Truthy(p) && !p.Arr?
    ensures ScrubSpec(Put(opts, "listen", p)) == ScrubSpec(Put(opts, "listen", Arr([p])))
  {
    var a, b := Put(opts, "listen", p), Put(opts, "listen", Arr([p]));
    assert Put(a, "listen", Arr([p])) == b;
  }

  /** The length limit applies to the wrapped `listen`, so a single non-array value never exceeds it. */
  lemma SingleListenNeverTooMany(opts: Value)
    requires opts.Obj? && !Get(opts, "listen").Arr?
    ensures ScrubSpec(opts).outcome != Failure(TooManyListenArgs)
  {
  }

  /** An absent or falsy `opts.routes` becomes `[]`, in the configuration and in `opts` (index.js:63). */
  lemma FalsyRoutesBecomeEmpty(opts: Value)
    requires ScrubSpec(opts).outcome.Success?
    requires !Truthy(Get(opts, "routes"))
    ensures ScrubSpec(opts).outcome.value.routes == []
    ensures Get(ScrubSpec(opts).opts, "routes") == Arr([])
  {
    WrapKeepsRoutes(opts, Arr(Wrap(Get(opts, "listen"))));
  }

  /** A truthy `opts.routes` that passes is kept as it is, in declaration order. */
  lemma TruthyRoutesKept(opts: Value)
    requires ScrubSpec(opts).outcome.Success?
    requires Truthy(Get(opts, "routes"))
    ensures Get(opts, "routes").Arr? && ScrubSpec(opts).outcome.value.routes == Get(opts, "routes").elems
  {
    WrapKeepsRoutes(opts, Arr(Wrap(Get(opts, "listen"))));
  }

  /** The scrubbed listen arguments are the wrapped `opts.listen`. */
  lemma ScrubbedListen(opts: Value)
    requires ScrubSpec(opts).outcome.Success?
    ensures ScrubSpec(opts).outcome.value.listen == Wrap(Get(opts, "listen"))
  {
  }

  /**
    The guard of index.js:34-41 makes the bind callback the only function
    among the arguments of `server.listen`, and the last of at most four.
   */
  lemma {:induction false} CallbackIsOnlyFunction(opts: Value, callback: Value)
    requires ScrubSpec(opts).outcome.Success? && IsFunction(callback)
    ensures var args := ListenArgs(ScrubSpec(opts).outcome.value.listen, callback);
      |args| <= 4 && forall i :: 0 <= i < |args| ==> (IsFunction(args[i]) <==> i == |args| - 1)
  {
    var listen := ScrubSpec(opts).outcome.value.listen;
    var args := ListenArgs(listen, callback);
    forall i | 0 <= i < |args|
      ensures IsFunction(args[i]) <==> i == |args| - 1
    {
      if i < |listen| {
        assert args[i] == listen[i];
      }
    }
  }
}
