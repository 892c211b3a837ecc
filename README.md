# gogo request dispatch, modelled in Dafny

This project models the request-dispatch core of the gogo web framework (a
Go framework built on `net/http`). It covers:

- the router, with its two route tables and ordered global middleware list;
- route groups with their accessor chains, and the middleware collection
  run at start-up;
- the dispatch protocol: route lookup, the method check, the Before hooks,
  the handler inside a panic boundary, the After hooks, and rendering by
  result kind;
- the per-request context: envelopes, URL parameters, local variables,
  query lookup with its cache, and the `key[inner]` query-map extractor;
- sessions and the session-cookie middleware, with its configuration
  defaults;
- business panics;
- the pure parts of the logger: level gating, `itoa`, the header layout
  and the by-day rotation test;
- the small helpers of `util/common.go`.

Modules follow the source files:

| module | file | source |
|---|---|---|
| `Values` | values.dfy | Go's `interface{}` values as a datatype, and `Option` |
| `Util` | util.dfy | util/common.go |
| `Panics` | panics.dfy | frame/panics/panic.go |
| `Servlet` | servlet.dfy | the request and response abstraction of frame/servlet |
| `Context` | context.dfy | frame/context/context.go |
| `Sessions` | session.dfy | frame/session/session.go |
| `Middlewares` | middleware.dfy | frame/middleware/session_middleware.go, log_middleware.go |
| `Router` | router.dfy | frame/router/router.go |
| `RouterProperties` | router_properties.dfy | properties of the dispatch protocol |
| `Logger` | logger.dfy | logger/logger.go |

## How the model is built

State the source updates in place is written as classes: `Router`,
`RouterGroup`, `Context`, `LocalVars`, `Session`, `HttpResponse` and
`InitializerList`. Each method's `ensures` gives its whole new state.

Each imperative method is proved equal to a specification function:
- `Router.ServeHTTP` against `Dispatch`;
- `Router.Serve` against `ServeSpec`;
- `Router.CollectMiddleware` against `Collect`;
- `Logger.Itoa` against `FixedWidth`;
- `Logger.FormatHeader` against `HeaderText`.

The lemmas about the protocol are stated over those specification functions.

The environment of a request is passed in as parameters:
- `run: HandlerId -> HandlerOutcome` says how each controller ends on this
  request. It either returns a value, raises a `*BizPanic`, or raises
  anything else.
- `value` is the UUID a newly issued session cookie carries.
- `conf` is the configuration map.
- For the logger, the clock reading and the caller lookup are parameters.

A chain of length n is served as exactly 2n+1 events:
1. `Before` of each middleware, in list order;
2. the handler, once;
3. `After` of each middleware, in the same order (not reversed).

Every After hook runs even when the handler faults, because the fault is
caught inside `invokeTargetControllerMethod`.

### Where the code and its documentation differ

The model follows the code in each case:

- `loadGlobalMiddleware` appends the logging and session middlewares AFTER
  any user-registered global middleware. Calling `InitRouterMiddleware`
  again appends them again (`RouterProperties.InitTwiceAppendsTwice`).
- A `BizPanic`'s code never reaches the client.
  - The recover handler keeps only the message text, and `c.Error` always
    writes code -1 (`RouterProperties.BizCodeIsDropped`).
- The cookie defaults are name `SESSION`, `http-only` false, `max-age`
  2147483647, path `/` and `secure` false.
- There is no session registry. The session middleware's `After` decides
  only on whether the request carries a cookie of the configured name.
  `Before` does nothing. `http.SetCookie` silently drops a cookie whose
  name is not a valid token (RFC 7230 section 3.2.6), so a configured name
  such as `""` or `my session` never produces a `Set-Cookie` header.
- Only the handler call is inside the recover boundary. A route whose chain
  was never initialised faults in the first hook loop. The model shows this
  as `Aborted`.

## Model

| member | source | states |
|---|---|---|
| Util.Ternary | util/common.go:3-8 | the result is `whenTrue` exactly when `expr` holds (when the two differ), else `whenFalse` |
| Util.Min | util/common.go:10-14 | the result is at most both inputs, is one of them, and is `a` exactly when `a <= b` |
| Util.Max | util/common.go:16-20 | the result is at least both inputs, is one of them, and is `a` exactly when `a >= b` |
| Util.ValueOrDefault | util/common.go:22-27 | nil gives the default, anything else is returned unchanged; nil results only from nil and a nil default |
| Panics.BizPanic.String | frame/panics/panic.go:8-10 | the text is the message |
| Panics.NewBizPanic | frame/panics/panic.go:12-17 | stores the message with code -1 |
| Panics.NewBizPanicWithCode | frame/panics/panic.go:19-24 | stores message and code unchanged |
| Panics.NewBizPanicIsDefaultCode | frame/panics/panic.go:12-24 | `NewBizPanic(m)` equals `NewBizPanicWithCode(m, -1)` |
| Panics.StringIgnoresCode | frame/panics/panic.go:8-10 | two panics with the same message print the same whatever their codes |
| Context.Success | frame/context/context.go:218-225 | envelope with the data, code 0, success, empty message; success iff code 0 |
| Context.Error | frame/context/context.go:227-234 | envelope with nil data, code -1, failure, the message; success iff code 0 |
| Context.EnvelopesDistinct | frame/context/context.go:218-234 | a success envelope never equals an error envelope, and both constructors are injective |
| Context.LocalVars.Get | frame/context/context.go:57-59 | the stored value, nil for a missing key |
| Context.LocalVars.Set | frame/context/context.go:53-55 | the key now maps to the value and no other key changes |
| Context.Params.Get | frame/context/context.go:74-81 | found iff some entry has the key; then the value of the FIRST such entry; else ("", false) |
| Context.Params.ByName | frame/context/context.go:85-88 | `Get` without the flag; "" when no entry has the key |
| Context.IndexByte | frame/context/context.go:420-421 | -1 iff the character is absent, else the index of its first occurrence |
| Context.IndexByteAt | frame/context/context.go:420-421 | the first occurrence is the index `IndexByte` returns |
| Context.BracketPartsShape | frame/context/context.go:420-423 | a query key is split as (key, inner) iff it is spelled `key[inner]...` with non-empty key, no `[` in key, non-empty inner, no `]` in inner |
| Context.QueryArrayOf | frame/context/context.go:320-326 | the values, flagged, iff the key has at least one value; else an empty list and false |
| Context.QueryOf | frame/context/context.go:298-303 | the first value, flagged, under the same condition; else ("", false) |
| Context.DefaultQueryOf | frame/context/context.go:283-288 | the default exactly when `GetQuery` says false, else the first value |
| Context.EmptyValueIsPresent | frame/context/context.go:290-297 | `?lastname=` gives ("", true), and `DefaultQuery` then returns "" not the default |
| Context.Context.constructor | frame/router/router.go:105-111 | a fresh context with an empty response, empty local variables and no query cache |
| Context.Context.Param | frame/context/context.go:259-261 | the URL parameter by name |
| Context.Context.GetQueryCache | frame/context/context.go:312-316 | fills the cache from the request once and never replaces it |
| Context.Context.GetQueryArray | frame/context/context.go:320-326 | fills the cache, then answers as `QueryArrayOf` on the cached query |
| Context.Context.GetQuery | frame/context/context.go:298-303 | fills the cache, then answers as `QueryOf` |
| Context.Context.Query | frame/context/context.go:271-274 | the first value, or "" |
| Context.Context.DefaultQuery | frame/context/context.go:283-288 | as `DefaultQueryOf` |
| Context.Context.QueryArray | frame/context/context.go:307-310 | the value list, or empty |
| Context.Context.Get | frame/context/context.go:416-428 | a fault iff some matching key has no value; otherwise found iff some key is spelled `key[inner]`; every such inner is in the result, and each result entry comes from one such key's first value |
| Context.Context.GetQueryMap | frame/context/context.go:336-339 | fills the cache, then answers as `get` on the cached query: a fault iff a matching key has no value; otherwise the flag iff some key matches, every matching key's inner part is in the map, and each entry is the first value of a matching key with that inner part |
| Context.InitializerList.RegistInitializer | frame/context/context.go:655-659 | appends the initializer at the end |
| Context.InitializerList.Inject | frame/context/context.go:661-665 | appends the initializer at the end |
| Sessions.Session.GetAttribute | frame/session/session.go:15-17 | the stored value, nil for a missing key |
| Sessions.Session.SetAttribute | frame/session/session.go:11-13 | the key now maps to the value, other keys, id and the new flag are unchanged |
| Sessions.Session.RemoveAttribute | frame/session/session.go:19-21 | the key now reads nil, other keys, id and the new flag are unchanged |
| Sessions.CreateNewSession | frame/session/session.go:23-30 | a fresh session with the given id, no data, marked new |
| Sessions.AttributeRoundTrip | frame/session/session.go:11-21 | set then get returns the value, a later set overrides, remove gives nil, other keys untouched |
| Middlewares.NewSessionMiddleware | frame/middleware/session_middleware.go:44-56 | defined iff every present configuration level and entry has the asserted type; each field is the configured entry, or its default when absent |
| Middlewares.EmptyConfigDefaults | frame/middleware/session_middleware.go:44-56 | with no `server` section the cookie is SESSION, not http-only, max-age 2147483647, path `/`, not secure; SESSION is a valid cookie name |
| Middlewares.AfterCookies | frame/middleware/session_middleware.go:28-42 | one cookie iff it is the session middleware, the request lacks the configured cookie and the configured name is a valid cookie name; the cookie copies the configuration, carries the UUID and is SameSite=Lax |
| Middlewares.Before | frame/middleware/session_middleware.go:25-26 | writes no cookie |
| Middlewares.After | frame/middleware/session_middleware.go:28-42 | appends exactly `AfterCookies` to the response |
| Servlet.HttpResponse.SetCookie | frame/middleware/session_middleware.go:40 | appends one `Set-Cookie` if the cookie's name is a valid token; otherwise writes nothing, as `http.SetCookie` does |
| Router.InvokeTarget | frame/router/router.go:137-158 | a return passes through with no error; a `*BizPanic` gives its message, any other fault the generic message, each with a nil result |
| Router.Render | frame/router/router.go:125-135 | envelope as JSON, page as HTML with its buffer, anything else no body; status 200 |
| Router.ConcatRouterPath | frame/router/router.go:293-298 | the prefix is kept; a '/' ending it and one starting the path merge into one; otherwise plain concatenation |
| Router.RouterGroup.constructor | frame/router/router.go:255-261 | the group's accessors are the outer chain followed by the group itself |
| Router.RouterGroup.Group | frame/router/router.go:250-263 | a fresh nested group on the same router, accessors = outer accessors + itself |
| Router.RouterGroup.Middleware | frame/router/router.go:265-267 | appends to this group's list only |
| Router.RouterGroup.Method | frame/router/router.go:269-271 | registers at `concatRouterPath(group path, path)` with this group's accessor chain |
| Router.RouterGroup.All | frame/router/router.go:273-275 | registers for every method |
| Router.RouterGroup.Get | frame/router/router.go:277-279 | registers for GET |
| Router.RouterGroup.Post | frame/router/router.go:281-283 | registers for POST |
| Router.Router.constructor | frame/router/router.go:285-291 | both tables and the global list start empty |
| Router.Router.Handle | frame/router/router.go:160-162 | installs the plain handler at the pattern, nothing else changes |
| Router.Router.HandleFunc | frame/router/router.go:164-180 | installs the route (last registration wins) with no chain yet and the given groups |
| Router.Router.Middleware | frame/router/router.go:212-214 | appends to the global list |
| Router.Router.Method | frame/router/router.go:216-219 | registers outside any group |
| Router.Router.All | frame/router/router.go:222-224 | registers for every method |
| Router.Router.Get | frame/router/router.go:227-229 | registers for GET |
| Router.Router.Post | frame/router/router.go:232-234 | registers for POST |
| Router.Router.Group | frame/router/router.go:237-247 | a fresh top-level group whose accessor chain is itself alone |
| Router.Router.LoadGlobalMiddleware | frame/router/router.go:80-83 | appends logging then session middleware at the end; a mistyped configuration leaves only the logging one added |
| Router.Router.CollectMiddleware | frame/router/router.go:86-99 | the globals followed by each group's list along the chain |
| Router.Router.InitRouterMiddleware | frame/router/router.go:70-77 | loads the defaults, then every route's chain is the collection over the new globals and its groups; no route is added or removed |
| Router.Router.RefreshChains | frame/router/router.go:72-75 | every registered route gets, as its chain, the collection over the current globals and its own groups; the route set, globals and handlers are unchanged |
| Router.Router.Serve | frame/router/router.go:101-123 | equals `ServeSpec`: the Before hooks, the guarded handler, the After hooks, then rendering |
| Router.Router.ServeHTTP | frame/router/router.go:52-67 | equals `Dispatch`: plain handler first, then route with method check, else 404 |
| Router.MethodNotAllowedBody | frame/router/router.go:59-60 | the 405 body: `405 method '`, the request's method, `' not allowed` and the newline `fmt.Fprintln` adds; the method reads back from between the fixed parts |
| RouterProperties.DispatchRouting | frame/router/router.go:52-67 | delegation iff the path is a plain handler; 404 iff in neither table; 405 iff the route's method is neither ALL nor the request's, with the body `http.Error` writes (the message and a newline); none of these runs a hook or writes a cookie |
| RouterProperties.BeforeTraceShape | frame/router/router.go:112-114 | the Before hooks run once each in list order |
| RouterProperties.AfterTraceShape | frame/router/router.go:119-121 | the After hooks run once each in the same list order |
| RouterProperties.ServeTraceShape | frame/router/router.go:101-123 | 2n+1 events: n Before hooks in order, the handler exactly once at position n, n After hooks in the same order |
| RouterProperties.ServeRendering | frame/router/router.go:115-118 | a return renders as is; a business fault renders as an error envelope with its message and code -1; any other fault with the generic message; status 200 |
| RouterProperties.BizCodeIsDropped | frame/router/router.go:139-149 | two business faults differing only in code are served identically |
| RouterProperties.HooksIgnoreHandler | frame/router/router.go:112-121 | hooks and cookies are the same however the handler ends |
| RouterProperties.ChainCookiesRule | frame/middleware/session_middleware.go:28-42 | a cookie is written iff some session middleware of the chain with a valid cookie name misses its cookie on the request, and each written cookie is the one such a middleware issues |
| RouterProperties.DefaultChainCookies | frame/router/router.go:80-83 | with the default chain a request without the session cookie gets exactly one new cookie, one with it gets none, and an invalid configured name gets none |
| RouterProperties.FlattenAppend | frame/router/router.go:91-97 | collecting over joined accessor chains joins the collected lists |
| RouterProperties.FlattenOutermostFirst | frame/router/router.go:91-97 | the outermost group's middlewares come first |
| RouterProperties.FlattenLength | frame/router/router.go:91-97 | the collected group part is as long as all group lists together |
| RouterProperties.CollectShape | frame/router/router.go:86-99 | the chain starts with the globals, is as long as globals plus group lists, and is the globals alone outside groups |
| RouterProperties.ConcatIdentity | frame/router/router.go:293-298 | an empty prefix or path leaves the other unchanged |
| RouterProperties.ConcatDropsAtMostOneSlash | frame/router/router.go:293-298 | the result is the plain join, or the join minus the path's leading '/', never shorter by more than one |
| RouterProperties.InitTwiceAppendsTwice | frame/router/router.go:70-83 | initialising twice appends the default pair twice |
| Logger.LevelsOrdered | logger/logger.go:16-46 | Panic < Fatal < Error < Warn < Info < Debug, and every prefix is eight characters |
| Logger.GatingMonotone | logger/logger.go:126-197 | raising the level never silences a call; nothing at Panic level, everything at Debug; Raw gated like Info |
| Logger.GatingByLevel | logger/logger.go:126-191 | each call writes iff the configured level reaches its own level |
| Logger.DigitsShape | logger/logger.go:110-124 | the decimal spelling is non-empty, all digits, spells the number, and has no leading zero |
| Logger.FixedWidthShape | logger/logger.go:109-124 | the appended text is all digits, spells the number, is max(digit count, wid) long, and is unpadded for wid <= 1 |
| Logger.FixedWidthIsPadded | logger/logger.go:109-124 | the text the loop builds digit by digit is the shortest decimal spelling left-padded with '0' to the width |
| Logger.FixedWidthExact | logger/logger.go:93-99 | below 10^w the field is exactly w characters |
| Logger.Itoa | logger/logger.go:110-124 | appends to the buffer exactly the fixed-width decimal text, keeping the buffer's contents |
| Logger.FileField | logger/logger.go:101-102 | always 30 characters: the name left-padded with spaces when short, its last 30 characters when long |
| Logger.PadRight | logger/logger.go:103-105 | the goroutine name right-padded with spaces to 12 |
| Logger.AppendClock | logger/logger.go:92-99 | appends the clock fields with their separators |
| Logger.FormatHeader | logger/logger.go:83-107 | appends exactly the header text to the buffer |
| Logger.ClockLayout | logger/logger.go:92-99 | HH:MM:SS.uuuuuu is 15 characters, with digit fields of widths 2, 2, 2, 6 spelling hour, minute, second and microsecond |
| Logger.HeaderLayout | logger/logger.go:83-107 | prefix, clock, space, bracketed 30-column file field, goroutine part (empty iff there is no goroutine), ": " |
| Logger.MessageFile | logger/logger.go:70-76 | a non-empty code line is the file field verbatim |
| Logger.CodeLineOverrides | logger/logger.go:70-76 | with a code line the caller lookup is irrelevant; without one, a found caller gives its file, ':' and non-empty decimal digits whose value is the line, and a failed lookup `???` |
| Logger.FormatMsgHeader | logger/logger.go:64-81 | the header of the chosen file field, with no goroutine part |
| Logger.Log | logger/logger.go:126-197 | a line iff the level allows the call; header plus message, or the bare message for Raw |
| Logger.RotationWindow | logger/logger.go:240 | no new file exactly while now lies within the day after the last rotation |
| Logger.NonSizeModesRotateDaily | logger/logger.go:220-245 | every mode but BySize uses the by-day test, and an empty file name never opens a file |

## Left out

- frame/http/http_server.go: the listener goroutine, signal handling, the shutdown timeout and the banner. These are I/O and concurrency.
- config/config.go: reading and YAML parsing. The configuration is the abstract map `conf`.
- frame/db, frame/component, redis, frame/task: foreign libraries and networking.
- json/jsonutil.go and JSON binding and validation in context.go. The JSON bytes of an envelope are not modelled; `Render` keeps the envelope itself.
- `Context.Render`: it reads a template file and parses it.
- frame/middleware/log_middleware.go: clock readings and logging. The logging middleware is a middleware that writes no cookie.
- User middlewares: only their identity is modelled. Their effects on the context are not.
- Router.InvokeTarget: the two `logger.Error` calls made on a fault are not modelled. Neither is `panic(nil)`, which `recover` cannot tell apart from no fault.
- Router.InvokeTarget: a plain `BizPanic` value (not a `*BizPanic`) counts as some other fault and gets the generic message. The model has only the `*BizPanic` case, as `BizFault`.
- Router.Router.InitRouterMiddleware: the route summary (`logRouterSummary`, `getFunctionName`) is reflection and logging.
- Router.Router.InitRouterMiddleware: the source stores the new chain through the shared `*HandlerFunc` held in the map. The model replaces the map entry, so sharing of that `*HandlerFunc` is not modelled.
- Router.Router.Group: the builder callback becomes the returned group. Registrations made inside the callback become calls on that group.
- Middlewares.After: `uuid.New()` becomes the parameter `value`. Each issued cookie gets that value, so two session middlewares on one chain would carry the same value here, unlike the source.
- Router.Router.Serve: a Before or After hook that panics is not modelled. In the source such a panic escapes the recover boundary: the remaining hooks and the render are skipped and the connection is dropped. The model's hooks cannot fault, and only an uninitialised chain gives `Aborted`.
- Router.Render: a handler result `&context.PageResponse{}` with a nil buffer is not modelled. The source panics in `GetBuffer().Bytes()`, outside the recover boundary, after the After hooks have run; `PageValue` always has a buffer here and renders as `Html`.
- Router.Render: a typed-nil `*context.Response` result is not modelled. The source renders it as the JSON text `null`; `JsonValue` always holds an envelope here.
- Router.HttpMethodType: only the five declared constants are modelled. The source's `HttpMethodType` is a string type, so `Method(HttpMethodType("PATCH"), ...)` is accepted there and matches requests whose method is `PATCH`.
- Servlet.HttpResponse.SetCookie: the serialisation of `Cookie.String` is not modelled. Its sanitising of invalid bytes in the value and the path is therefore not modelled either. The model records the cookie's fields.
- Servlet: only path, method, cookie names and query are kept from `*http.Request`. The response keeps only its cookie log. Headers, status writes and bodies are the `DispatchResult` of `Dispatch`.
- Logger: these are left out because they are I/O, colours, or tied to the runtime:
  - `createLogFile`;
  - the BySize branch and the file writes of `Write`;
  - the `time.Date` midnight computation;
  - `logSql` and `GormLogger`;
  - the colour helpers;
  - `runtime.Caller`, which is a parameter;
  - `log.Output`'s trailing newline;
  - `Config`, `SetLevel`, `SetSaveMode`, `SetSaveDays` and `SetSaveSize`, plain field stores whose values the model takes as parameters.
- Logger: `fmt.Sprintf(format, v...)` is left out. Messages arrive already formatted.
- Logger: `Write` tests the file name on the copy of the log file taken when `Config` ran. The model uses one file name, which is the same value because only `Config` sets it.
- Logger.Itoa: only non-negative values are modelled, as gogo has no other callers. For a negative value the Go loop writes non-digits.
- Logger.FileField: widths count characters, which equals bytes only for ASCII file names.
- util/thread.go and server.go: an OS check returning a constant, and a lazy singleton.
