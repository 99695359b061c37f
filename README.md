# Mock API gateway: request dispatch, in Dafny

This project models the core of a mock gateway that emulates a cloud
function-as-a-service HTTP front end for local testing. The core is the one
function `init(opts, cb)` of `index.js`. It has three parts:

- **Option scrubbing** (`index.js:11-63`). An ordered chain of checks on
  `opts`, `opts.listen` and `opts.routes`. Each check ends `init` with a fixed
  error. Along the way it wraps a non-array `listen` into a one-element array
  and turns an absent `routes` into `[]`, writing both back into the caller's
  object. The arguments for `server.listen` are then built (`index.js:131-134`).
- **Route lookup** (`index.js:74-80`). A linear scan that stops at the first
  route whose `method` and `route` equal the request's method and URL path.
- **Per-request lifecycle** (`index.js:83-125`). 404 without a route. Body
  chunks are concatenated, an empty body becomes `{}`, and a body that does
  not parse gives 500 with an empty body. Otherwise the route's `lambda` is
  invoked with the parsed event and a context. `succeed` answers 200 and
  `fail` answers 500, each with the JSON-serialised value. `done(e, v)` is
  `fail(e)` for a truthy `e` and `succeed(v)` otherwise.

Files:

- `wrappers.dfy` (`Wrappers`): `Option` and `Result`.
- `js.dfy` (`Js`): the JavaScript values the code inspects: truthiness,
  `typeof`, `instanceof Array`, and reads and writes of named properties.
- `scrub.dfy` (`Scrub`, `ScrubProperties`): the checks as a specification
  function `ScrubSpec`, and the imperative `Init` on the caller's `Opts`
  object, with the two loops as methods proved against the specification.
  Then the order theorem (`FirstFailingCheck`) and the normalisation lemmas.
- `dispatch.dfy` (`Dispatch`, `DispatchProperties`): the lookup loop
  `FindRoute`, the buffering loop `Collect`, the `Response` and `Context`
  objects, and `Serve`, all proved against the functions `FirstMatch`,
  `Concat`, `Settle` and `Lifecycle`, plus the lemmas about them.

Library calls are parameters. `JSON.parse`, `JSON.stringify` and the `path`
of `url.parse(u)` are the three fields of a `Library` value. The route
handler is a function from its `lambda` value and the event to the
completion it calls (`Succeed`, `Fail`, `Done` or none at all).

Where the assertions of `tests/all.js` and the code of `index.js` disagree,
the model follows `index.js`:

- `fail(v)` answers 500 with `JSON.stringify(v)` (`index.js:94-97`). It does
  not answer `{errorMessage: ...}` built from `toString`.
- No `responses` override list is read or checked.
- The lookup key is the whole `path` of `url.parse`, which keeps the query
  string (`index.js:76`). The query string is not stripped. (The tests only
  request URLs without a query.)
- `done` tests the error for JavaScript truthiness (`index.js:99`), so `0`,
  `""` and `false` count as "no error" too.
- Reading a property of `null` throws. So a `null` `opts`, or a `null` or
  `undefined` route entry, gives a thrown TypeError (`OptsNull`,
  `RouteNotObject`), not an error passed to `cb`.
- Scrubbing only tests `lambda` for truthiness (`index.js:53`). A route whose
  `lambda` is truthy but not a function is accepted, and a request to it
  with a body that parses throws a TypeError at `index.js:124`: nothing is
  invoked and no reply is written (`Trace.thrown`). A handler that throws
  before completing leaves the request without a reply in the same way.

## Model

| member | source | states |
|---|---|---|
| `Scrub.ScrubSpec` | index.js:11-63 | on failure up to `ListenRequired`, `opts` is unchanged; on a later failure it holds the wrapped `listen`; on success the config has at most 3 listen args, none a function, every route has truthy method, lambda and route, `opts` holds both normalised arrays, and every other property of `opts` is unchanged |
| `Scrub.Wrap` | index.js:25-27 | an Array `listen` is kept, any other value becomes the one-element array holding it; `ScrubbedListen`, `WrappedListenIsSame` and `SingleListenNeverTooMany` state what scrubbing makes of it |
| `Scrub.RouteError` | index.js:50-58 | a route has no error exactly when it is `ValidRoute` (not nullish; truthy method, lambda and route); an error names the route's own index |
| `Scrub.Message` | index.js:11-58 | the fixed message of each error delivered to `opts` or `cb`, one per check; `MessageIdentifiesCheck` states that equal messages mean the same check |
| `Scrub.ChannelOf` | index.js:11-58 | `OptsRequired` goes to `opts` itself (index.js:12), the null-property reads are thrown, every other error goes to `cb` |
| `Scrub.FirstRouteError` | index.js:49-59 | no error exactly when every route from `k` on is valid; otherwise the error of the first invalid route at or after `k`, every route before it valid |
| `Scrub.ListenHasFunction` | index.js:37-41 | the loop reports a function exactly when some listen argument has typeof "function" |
| `Scrub.FindInvalidRoute` | index.js:49-59 | the loop over routes returns the first route error, checking method, then lambda, then route |
| `Scrub.Init` | index.js:11-63 | the early-return chain, with `opts` updated in place, yields exactly `ScrubSpec`'s outcome and leaves `opts` as `ScrubSpec` says |
| `Scrub.ListenArgs` | index.js:131-134 | the listen arguments are the scrubbed `listen`, unchanged and in order, followed by the bind callback |
| `ScrubProperties.FirstFailingCheck` | index.js:11-59 | scrubbing fails with `e` exactly when the check for `e` fails and no earlier check in the fixed order fails; it succeeds exactly when no check fails |
| `ScrubProperties.FailureIsFirstFailing` | index.js:11-59 | the reported error's check fails, and none ranked before it fails |
| `ScrubProperties.SuccessMeansNoneFails` | index.js:11-63 | after a success no check fails on the original `opts` |
| `ScrubProperties.FirstRouteErrorIsFirst` | index.js:49-59 | the first offending route wins, and within a route method comes before lambda before route |
| `ScrubProperties.MessageIdentifiesCheck` | index.js:11-58 | two errors delivered with the same message come from the same check |
| `ScrubProperties.WrappedListenIsSame` | index.js:25-32 | `listen: p` and `listen: [p]` give the same outcome and leave the same `opts`, for a truthy non-array `p` |
| `ScrubProperties.SingleListenNeverTooMany` | index.js:25-32 | the length limit is checked after wrapping, so a single non-array `listen` never exceeds it |
| `ScrubProperties.ScrubbedListen` | index.js:23-32 | the scrubbed listen arguments are the wrapped `opts.listen` |
| `ScrubProperties.FalsyRoutesBecomeEmpty` | index.js:62-63 | an absent or falsy `routes` becomes `[]` in the config and in `opts` |
| `ScrubProperties.TruthyRoutesKept` | index.js:43-60 | an accepted `routes` array is kept as it is, in declaration order |
| `ScrubProperties.CallbackIsOnlyFunction` | index.js:34-41 | among the arguments passed to `server.listen`, the bind callback is the only function; it comes last, and there are at most four arguments |
| `Dispatch.Matches` | index.js:75-76 | a route matches exactly when its `method` strictly equals the request method and its `route` strictly equals the URL path; `QueryIsNotStripped` shows the path is compared whole |
| `Dispatch.FirstMatch` | index.js:74-80 | returns the earliest route whose method and path equal the request's, or none when no route matches |
| `Dispatch.FindRoute` | index.js:70-80 | the loop with `break` yields the first matching route's `lambda`, or `null` when none matches |
| `Dispatch.Collect` | index.js:104-107 | the buffered body is the in-order concatenation of the chunks |
| `Dispatch.ConcatAppend` | index.js:104-107 | buffering two runs of chunks gives the two bodies one after the other |
| `Dispatch.ParseInput` | index.js:113-116 | the text parsed is never empty: an empty body is replaced by `{}`, any other body is parsed as it is |
| `Dispatch.DoneAs` | index.js:98-101 | `done(e, obj)` becomes `fail(e)` exactly when `e` is truthy, and `succeed(obj)` otherwise |
| `Dispatch.Settle` | index.js:90-101 | a completion answers only 200 or 500, and writes no reply exactly when the handler never completes or throws |
| `Dispatch.Lifecycle` | index.js:67-125 | a reply's status is 200, 404 or 500; a thrown exception leaves no reply; an invoked handler means the matched `lambda` is a function; without an invocation any reply has an empty body |
| `Dispatch.Response.End` | index.js:85 | ending a response sets its body and keeps its status code |
| `Dispatch.Context.Succeed` | index.js:90-93 | sets status 200 and ends the response with `stringify(v)` |
| `Dispatch.Context.Fail` | index.js:94-97 | sets status 500 and ends the response with `stringify(v)` |
| `Dispatch.Context.Done` | index.js:98-101 | a truthy error ends the response as `fail(e)`; otherwise as `succeed(v)` |
| `Dispatch.Serve` | index.js:67-125 | the event the handler is invoked with, and whether an exception escaped, are `Lifecycle`'s; the response holds `Lifecycle`'s reply, or stays open and unchanged when there is none (a handler that never completes, a non-function `lambda`, a throwing handler) |
| `DispatchProperties.LaterRoutesIgnored` | index.js:74-80 | routes declared after a matching one, duplicates included, are never selected |
| `DispatchProperties.EarlierMissesSkipped` | index.js:74-80 | earlier routes that do not match do not block a later match |
| `DispatchProperties.ConcatLength` | index.js:104-107 | the body is exactly as long as all chunks together |
| `DispatchProperties.ConcatEmpty` | index.js:104-116 | the body is empty, so `{}` is parsed in its place, exactly when every chunk is empty |
| `DispatchProperties.ChunkInPlace` | index.js:104-107 | every chunk appears in the body at its offset, in arrival order |
| `DispatchProperties.NoRouteIsNotFound` | index.js:83-86 | with no matching route the reply is 404 with an empty body and no handler runs |
| `DispatchProperties.NotFoundIffNoRoute` | index.js:83-86 | on scrubbed routes a request is answered 404 exactly when no route matches |
| `DispatchProperties.ParseOr500` | index.js:112-125 | a body that does not parse gives 500, an empty body and no call; one that parses, handed to a non-function `lambda`, throws with no invocation and no reply; handed to a function, it invokes the handler with the parsed value, its completion is the reply, and an exception escapes exactly when the handler throws |
| `DispatchProperties.InvokedIff` | index.js:118-124 | the handler is invoked with `event` exactly when the matched route's `lambda` is a function and the body parsed to `event` |
| `DispatchProperties.EmptyBodyIsEmptyObject` | index.js:113-124 | with a JSON parser, a request whose chunks are all empty invokes a function `lambda` with the empty object, and throws for a non-function one |
| `DispatchProperties.DoneIsFailOrSucceed` | index.js:98-101 | `done(e, v)` answers as `fail(e)` for a truthy `e` and as `succeed(v)` otherwise; `done(null, v)` and `done(undefined, v)` answer 200 |
| `DispatchProperties.KeyIsFullPath` | index.js:75-76 | the lookup depends on the URL only through its `url.parse` path: requests with equal paths are served alike |
| `DispatchProperties.QueryIsNotStripped` | index.js:75-76 | when the path is `p?q` and every route declares `p`, no route matches and the request is answered 404: the query string is part of the key |
| `DispatchProperties.NoRoutesAllNotFound` | index.js:62-86 | when `init` got no routes, every request is answered 404 |
| `DispatchProperties.ScrubbedRoutesReadable` | index.js:49-59 | every route table `init` accepts holds no null or undefined entry, so lookup can read its fields |

## Left out

- `http.createServer`, `server.listen`, the `req.on('data')` and `req.on('end')` wiring, and the `cb(e, server)` bind callback (`index.js:67`, `105`, `112`, `132-137`). These are network and event-loop plumbing. The chunks of a request are an input sequence instead, and errors are returned. The model does not call `cb` or `opts`; `ChannelOf` says which one receives each error.
- The internals of `JSON.parse`, `JSON.stringify` and `url.parse`. They are foreign library calls, so they are parameters (`Library`).
- `Scrub.ListenArgs`: the deep copy `JSON.parse(JSON.stringify(opts.listen))` is modelled as an exact copy. The changes a JSON round trip can make to a value, such as `undefined` becoming `null`, are not modelled.
- The request handler reads `opts.routes` when each request arrives. The model serves the routes `init` accepted, so a caller's later change to `opts` is not modelled.
- `data.toString()` decodes each chunk by itself. Chunks are strings here, so a multi-byte character split across two chunks is not modelled.
- Calling a completion operation twice, or after the 404 or 500 reply. `index.js` does not guard against it and the model invokes at most one.
- A handler that calls a completion operation and then throws. The model's handler either completes, never completes, or throws before completing. What an uncaught exception then does to the process is not modelled; `Trace.thrown` only records that one escaped.
- JavaScript numbers are reals or `NaN`. Negative zero, infinities and floating-point rounding are not modelled; the gateway only tests them for truthiness.
- Properties of functions, strings and arrays other than indices. The code only reads `listen`, `routes`, `method`, `lambda` and `route`, which those values do not carry.
- The reuse of the function-scoped loop variable `i` across requests (`index.js:48`, `72`). It is an implementation artefact; the loops use local indices.
- The `responses` override list, the `errorMessage` wrapping and the `toString` conversion of failure values. `tests/all.js` expects them, but `index.js` does not implement them.

