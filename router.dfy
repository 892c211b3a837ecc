/** The request dispatch engine (frame/router/router.go): two route tables, an
    ordered global middleware list, route groups as accessor chains, and the
    dispatch protocol of lookup, method check, Before hooks, the guarded
    handler, After hooks in the same order, and rendering by result kind. */
module Router {
  import opened Values
  import opened Servlet
  import Context
  import Panics
  import Middlewares

  datatype HttpMethodType = ALL | GET | POST | PUT | DELETE {
    /** The string each constant stands for. */
    function Name(): string
    {
      match this
      case ALL => "ALL"
      case GET => "GET"
      case POST => "POST"
      case PUT => "PUT"
      case DELETE => "DELETE"
    }
  }

  /** A controller function or a plain `http.Handler`, by identity only. */
  type HandlerId = nat

  /** What a controller returns, by dynamic type: `*Response`, `*PageResponse`
      or anything else (nil included). */
  datatype HandlerValue =
    | JsonValue(response: Context.Response)
    | PageValue(page: Context.PageResponse)
    | OtherValue(v: Value)

  /** How one run of a controller ends: it returns, it panics with a
      `*BizPanic`, or it panics with anything else. */
  datatype HandlerOutcome =
    | Returned(result: HandlerValue)
    | BizFault(fault: Panics.BizPanic)
    | OtherFault

  /** A registered controller route; `middlewares` stays nil until
      `InitRouterMiddleware` computes the chain. */
  datatype HandlerFunc = HandlerFunc(
    target: HandlerId,
    httpMethodType: HttpMethodType,
    middlewares: Option<seq<Middlewares.Middleware>>,
    groups: Option<seq<RouterGroup>>)

  /** What reaches the client. `Aborted` is a fault outside the recover
      boundary: the platform drops the connection. */
  datatype DispatchResult =
    | Delegated(handler: HandlerId)
    | NotFound
    | MethodNotAllowed(body: string)
    | Json(response: Context.Response)
    | Html(buffer: seq<Byte>)
    | NoBody
    | Aborted

  /** The observable order of hook and handler runs. */
  datatype Event =
    | BeforeCalled(m: Middlewares.Middleware)
    | HandlerCalled(h: HandlerId)
    | AfterCalled(m: Middlewares.Middleware)

  /** Everything one dispatch produces. */
  datatype Served = Served(result: DispatchResult, trace: seq<Event>, cookies: seq<Cookie>)

  /** The generic message any non-business fault is replaced with. */
  const InternalErrorMessage: string := "服务器异常，请联系管理员"

  /** The HTTP status of a result the router writes itself. */
  function Status(r: DispatchResult): Option<int>
  {
    match r
    case NotFound => Some(404)
    case MethodNotAllowed(_) => Some(405)
    case Json(_) => Some(200)
    case Html(_) => Some(200)
    case NoBody => Some(200)
    case _ => None
  }

  /** The body `http.Error` writes for a method mismatch: the message, then
      the newline `fmt.Fprintln` adds. The request's method can be read back
      from between the fixed parts. */
  function MethodNotAllowedBody(httpMethod: string): (body: string)
    ensures |body| == |httpMethod| + 26
    ensures body[..12] == "405 method '" && body[|body| - 14..] == "' not allowed\n"
    ensures body[12..|body| - 14] == httpMethod
  {
    "405 method '" + httpMethod + "' not allowed\n"
  }

  // ---------------------------------------------------------------------
  // Specification of dispatch

  function BeforeTrace(chain: seq<Middlewares.Middleware>): seq<Event>
  {
    if chain == [] then [] else BeforeTrace(chain[..|chain| - 1]) + [BeforeCalled(chain[|chain| - 1])]
  }

  function AfterTrace(chain: seq<Middlewares.Middleware>): seq<Event>
  {
    if chain == [] then [] else AfterTrace(chain[..|chain| - 1]) + [AfterCalled(chain[|chain| - 1])]
  }

  /** The cookies the After hooks of a chain write, in chain order. */
  function ChainCookies(chain: seq<Middlewares.Middleware>, req: Request, value: string): seq<Cookie>
  {
    if chain == [] then []
    else ChainCookies(chain[..|chain| - 1], req, value) + Middlewares.AfterCookies(chain[|chain| - 1], req, value)
  }

  /** The panic boundary: a returned value passes through, a fault becomes
      an error message. Only a `*BizPanic` keeps its own text; its code is
      not carried. On a fault the result itself is nil. */
  function InvokeTarget(o: HandlerOutcome): (r: (HandlerValue, Option<string>))
    ensures o.Returned? <==> r.1.None?
    ensures o.Returned? ==> r.0 == o.result
    ensures o.BizFault? ==> r == (OtherValue(Nil), Some(o.fault.message))
    ensures o.OtherFault? ==> r == (OtherValue(Nil), Some(InternalErrorMessage))
  {
    match o
    case Returned(v) => (v, None)
    case BizFault(p) => (OtherValue(Nil), Some(p.String()))
    case OtherFault => (OtherValue(Nil), Some(InternalErrorMessage))
  }

  /** What `serve` renders: the handler's value, or `c.Error(msg)` after a fault. */
  function FinalValue(o: HandlerOutcome): HandlerValue
  {
    var (v, err) := InvokeTarget(o);
    if err.Some? then JsonValue(Context.Error(err.value)) else v
  }

  /** `renderResponse`: an envelope as JSON, a page as HTML, both with
      status 200; any other value writes nothing. */
  function Render(v: HandlerValue): (r: DispatchResult)
    ensures Status(r) == Some(200)
    ensures r.Json? <==> v.JsonValue?
    ensures r.Json? ==> r.response == v.response
    ensures r.Html? <==> v.PageValue?
    ensures r.Html? ==> r.buffer == v.page.buffer
  {
    match v
    case JsonValue(resp) => Json(resp)
    case PageValue(page) => Html(page.buffer)
    case OtherValue(_) => NoBody
  }

  /** `serve` on a route whose method already matched. A nil chain makes the
      first hook loop fault before anything runs. */
  function ServeSpec(fn: HandlerFunc, req: Request, run: HandlerId -> HandlerOutcome, value: string): Served
  {
    match fn.middlewares
    case None => Served(Aborted, [], [])
    case Some(chain) =>
      Served(Render(FinalValue(run(fn.target))),
             BeforeTrace(chain) + [HandlerCalled(fn.target)] + AfterTrace(chain),
             ChainCookies(chain, req, value))
  }

  /** `ServeHTTP` over the two tables. `run` says how each controller ends on
      this request; `value` is the UUID a session cookie would carry. */
  function Dispatch(handlers: map<string, HandlerId>, handleFuncs: map<string, HandlerFunc>,
                    req: Request, run: HandlerId -> HandlerOutcome, value: string): Served
  {
    if req.path in handlers then Served(Delegated(handlers[req.path]), [], [])
    else if req.path in handleFuncs then
      var fn := handleFuncs[req.path];
      if fn.httpMethodType != ALL && req.httpMethod != fn.httpMethodType.Name() then
        Served(MethodNotAllowed(MethodNotAllowedBody(req.httpMethod)), [], [])
      else ServeSpec(fn, req, run, value)
    else Served(NotFound, [], [])
  }

  // ---------------------------------------------------------------------
  // Specification of middleware collection

  /** The group lists along an accessor chain, outermost group first. */
  function Flatten(groups: seq<RouterGroup>): seq<Middlewares.Middleware>
    reads groups
  {
    if groups == [] then []
    else Flatten(groups[..|groups| - 1]) + groups[|groups| - 1].middlewares
  }

  function GroupsOf(groups: Option<seq<RouterGroup>>): seq<RouterGroup>
  {
    if groups.Some? then groups.value else []
  }

  /** `collectMiddleware`: the global list, then each group's list. */
  function Collect(globals: seq<Middlewares.Middleware>, groups: Option<seq<RouterGroup>>): seq<Middlewares.Middleware>
    reads GroupsOf(groups)
  {
    globals + Flatten(GroupsOf(groups))
  }

  /** The summed length of the group lists along a chain. */
  function TotalLength(groups: seq<RouterGroup>): nat
    reads groups
  {
    if groups == [] then 0
    else TotalLength(groups[..|groups| - 1]) + |groups[|groups| - 1].middlewares|
  }

  /** `concatRouterPath`: a '/' ending the prefix and one starting the path
      merge into one; otherwise the two are joined as they are. */
  function ConcatRouterPath(p1: string, p2: string): (r: string)
    ensures p1 <= r
    ensures |r| == |p1| + |p2| - (if Seam(p1, p2) then 1 else 0)
    ensures Seam(p1, p2) ==> r == p1[..|p1| - 1] + p2
    ensures !Seam(p1, p2) ==> r == p1 + p2
  {
    if |p1| > 0 && |p2| > 0 && p1[|p1| - 1] == '/' && p2[0] == '/' then p1 + p2[1..]
    else p1 + p2
  }

  /** The prefix ends with '/' and the path starts with '/'. */
  predicate Seam(p1: string, p2: string)
  {
    |p1| > 0 && |p2| > 0 && p1[|p1| - 1] == '/' && p2[0] == '/'
  }

  // ---------------------------------------------------------------------
  // Route groups

  class RouterGroup {
    const path: string
    const router: Router
    var middlewares: seq<Middlewares.Middleware>
    /** The groups from the outermost down to this one. */
    var accessors: seq<RouterGroup>

    constructor (path: string, router: Router, outer: seq<RouterGroup>)
      ensures this.path == path && this.router == router
      ensures middlewares == [] && accessors == outer + [this]
    {
      this.path := path;
      this.router := router;
      middlewares := [];
      new;
      accessors := outer + [this];
    }

    /** A nested group: same router, the accessors extended by the new group.
        The builder callback is whatever the caller does with the result. */
    method Group(path: string) returns (g: RouterGroup)
      ensures fresh(g)
      ensures g.path == path && g.router == router && g.middlewares == []
      ensures g.accessors == accessors + [g]
    {
      g := new RouterGroup(path, router, accessors);
    }

    method Middleware(mw: Middlewares.Middleware)
      modifies this
      ensures middlewares == old(middlewares) + [mw]
      ensures accessors == old(accessors)
    {
      middlewares := middlewares + [mw];
    }

    /** A group route: the pattern joins only this group's own path, and the
        route remembers this group's accessor chain. */
    method Method(httpMethodType: HttpMethodType, path: string, target: HandlerId)
      modifies router
      ensures router.handleFuncs == old(router.handleFuncs)[ConcatRouterPath(this.path, path) :=
        HandlerFunc(target, httpMethodType, None, Some(accessors))]
      ensures router.handlers == old(router.handlers) && router.middlewares == old(router.middlewares)
    {
      router.HandleFunc(httpMethodType, ConcatRouterPath(this.path, path), target, Some(accessors));
    }

    method All(path: string, target: HandlerId)
      modifies router
      ensures router.handleFuncs == old(router.handleFuncs)[ConcatRouterPath(this.path, path) :=
        HandlerFunc(target, ALL, None, Some(accessors))]
      ensures router.handlers == old(router.handlers) && router.middlewares == old(router.middlewares)
    {
      Method(ALL, path, target);
    }

    method Get(path: string, target: HandlerId)
      modifies router
      ensures router.handleFuncs == old(router.handleFuncs)[ConcatRouterPath(this.path, path) :=
        HandlerFunc(target, GET, None, Some(accessors))]
      ensures router.handlers == old(router.handlers) && router.middlewares == old(router.middlewares)
    {
      Method(GET, path, target);
    }

    method Post(path: string, target: HandlerId)
      modifies router
      ensures router.handleFuncs == old(router.handleFuncs)[ConcatRouterPath(this.path, path) :=
        HandlerFunc(target, POST, None, Some(accessors))]
      ensures router.handlers == old(router.handlers) && router.middlewares == old(router.middlewares)
    {
      Method(POST, path, target);
    }
  }

  // ---------------------------------------------------------------------
  // The router

  class Router {
    var handlers: map<string, HandlerId>
    var handleFuncs: map<string, HandlerFunc>
    var middlewares: seq<Middlewares.Middleware>

    /** `NewRouter`. */
    constructor ()
      ensures handlers == map[] && handleFuncs == map[] && middlewares == []
    {
      handlers := map[];
      handleFuncs := map[];
      middlewares := [];
    }

    method Handle(pattern: string, h: HandlerId)
      modifies this
      ensures handlers == old(handlers)[pattern := h]
      ensures handleFuncs == old(handleFuncs) && middlewares == old(middlewares)
    {
      handlers := handlers[pattern := h];
    }

    /** Last registration of a pattern wins; the chain is left unset. */
    method HandleFunc(httpMethodType: HttpMethodType, pattern: string, target: HandlerId,
                      groups: Option<seq<RouterGroup>>)
      modifies this
      ensures handleFuncs == old(handleFuncs)[pattern := HandlerFunc(target, httpMethodType, None, groups)]
      ensures handlers == old(handlers) && middlewares == old(middlewares)
    {
      handleFuncs := handleFuncs[pattern := HandlerFunc(target, httpMethodType, None, groups)];
    }

    method Middleware(mw: Middlewares.Middleware)
      modifies this
      ensures middlewares == old(middlewares) + [mw]
      ensures handlers == old(handlers) && handleFuncs == old(handleFuncs)
    {
      middlewares := middlewares + [mw];
    }

    method Method(httpMethodType: HttpMethodType, path: string, target: HandlerId)
      modifies this
      ensures handleFuncs == old(handleFuncs)[path := HandlerFunc(target, httpMethodType, None, None)]
      ensures handlers == old(handlers) && middlewares == old(middlewares)
    {
      HandleFunc(httpMethodType, path, target, None);
    }

    method All(path: string, target: HandlerId)
      modifies this
      ensures handleFuncs == old(handleFuncs)[path := HandlerFunc(target, ALL, None, None)]
      ensures handlers == old(handlers) && middlewares == old(middlewares)
    {
      Method(ALL, path, target);
    }

    method Get(path: string, target: HandlerId)
      modifies this
      ensures handleFuncs == old(handleFuncs)[path := HandlerFunc(target, GET, None, None)]
      ensures handlers == old(handlers) && middlewares == old(middlewares)
    {
      Method(GET, path, target);
    }

    method Post(path: string, target: HandlerId)
      modifies this
      ensures handleFuncs == old(handleFuncs)[path := HandlerFunc(target, POST, None, None)]
      ensures handlers == old(handlers) && middlewares == old(middlewares)
    {
      Method(POST, path, target);
    }

    /** A top-level group: its accessor chain is itself alone. */
    method Group(path: string) returns (g: RouterGroup)
      ensures fresh(g)
      ensures g.path == path && g.router == this && g.middlewares == []
      ensures g.accessors == [g]
    {
      g := new RouterGroup(path, this, []);
    }

    /** `loadGlobalMiddleware`: the logging and session middlewares go to the
        END of the global list. A mistyped cookie configuration faults after
        the logging middleware was added. */
    method LoadGlobalMiddleware(conf: map<string, Value>) returns (ok: bool)
      modifies this
      ensures ok <==> Middlewares.NewSessionMiddleware(conf).Some?
      ensures ok ==> middlewares == old(middlewares) + [Middlewares.LogMiddleware, Middlewares.NewSessionMiddleware(conf).value]
      ensures !ok ==> middlewares == old(middlewares) + [Middlewares.LogMiddleware]
      ensures handlers == old(handlers) && handleFuncs == old(handleFuncs)
    {
      Middleware(Middlewares.LogMiddleware);
      var session := Middlewares.NewSessionMiddleware(conf);
      if session.None? {
        return false;
      }
      Middleware(session.value);
      return true;
    }

    /** `collectMiddleware`, by the source's nested loops. */
    method CollectMiddleware(groups: Option<seq<RouterGroup>>) returns (mws: seq<Middlewares.Middleware>)
      ensures mws == Collect(middlewares, groups)
    {
      mws := [];
      var i := 0;
      while i < |middlewares|
        invariant 0 <= i <= |middlewares|
        invariant mws == middlewares[..i]
      {
        mws := mws + [middlewares[i]];
        i := i + 1;
      }
      assert middlewares[..i] == middlewares;
      if groups.Some? {
        var gs := groups.value;
        var g := 0;
        while g < |gs|
          invariant 0 <= g <= |gs|
          invariant mws == middlewares + Flatten(gs[..g])
        {
          var own := gs[g].middlewares;
          var j := 0;
          while j < |own|
            invariant 0 <= j <= |own|
            invariant mws == middlewares + Flatten(gs[..g]) + own[..j]
          {
            mws := mws + [own[j]];
            j := j + 1;
          }
          assert own[..j] == own;
          assert gs[..g + 1][..g] == gs[..g];
          g := g + 1;
        }
        assert gs[..g] == gs;
      }
    }

    /** `InitRouterMiddleware`: load the default globals, then give every
        route the chain collected from the (new) global list and its groups. */
    method InitRouterMiddleware(conf: map<string, Value>) returns (ok: bool)
      modifies this
      ensures ok <==> Middlewares.NewSessionMiddleware(conf).Some?
      ensures ok ==> middlewares == old(middlewares) + [Middlewares.LogMiddleware, Middlewares.NewSessionMiddleware(conf).value]
      ensures !ok ==> middlewares == old(middlewares) + [Middlewares.LogMiddleware] && handleFuncs == old(handleFuncs)
      ensures handlers == old(handlers)
      ensures handleFuncs.Keys == old(handleFuncs).Keys
      ensures ok ==> forall p :: p in handleFuncs ==>
        handleFuncs[p] == old(handleFuncs)[p].(middlewares := Some(Collect(middlewares, old(handleFuncs)[p].groups)))
    {
      ok := LoadGlobalMiddleware(conf);
      if !ok {
        return;
      }
      RefreshChains();
    }

    /** The loop of `InitRouterMiddleware`: every route gets the chain
        collected from the current globals and its own groups. */
    method RefreshChains()
      modifies this
      ensures handlers == old(handlers) && middlewares == old(middlewares)
      ensures handleFuncs.Keys == old(handleFuncs).Keys
      ensures forall p :: p in handleFuncs ==>
        handleFuncs[p] == old(handleFuncs)[p].(middlewares := Some(Collect(middlewares, old(handleFuncs)[p].groups)))
    {
      ghost var before := handleFuncs;
      var rest := handleFuncs.Keys;
      while rest != {}
        invariant rest <= before.Keys
        invariant handleFuncs.Keys == before.Keys
        invariant handlers == old(handlers) && middlewares == old(middlewares)
        invariant forall p :: p in rest ==> handleFuncs[p] == before[p]
        invariant forall p :: p in before && p !in rest ==>
          handleFuncs[p] == before[p].(middlewares := Some(Collect(middlewares, before[p].groups)))
        decreases rest
      {
        var p :| p in rest;
        var fcs := handleFuncs[p];
        var collected := CollectMiddleware(fcs.groups);
        handleFuncs := handleFuncs[p := fcs.(middlewares := Some(collected))];
        rest := rest - {p};
      }
    }

    /** `serve`: a fresh context, every Before hook in chain order, the
        handler once inside the panic boundary, every After hook in the same
        order, then rendering. */
    method Serve(fn: HandlerFunc, req: Request, run: HandlerId -> HandlerOutcome, value: string) returns (s: Served)
      ensures s == ServeSpec(fn, req, run, value)
    {
      if fn.middlewares.None? {
        return Served(Aborted, [], []);
      }
      var chain := fn.middlewares.value;
      var c := new Context.Context(req);
      var trace: seq<Event> := [];
      var i := 0;
      while i < |chain|
        invariant 0 <= i <= |chain|
        invariant trace == BeforeTrace(chain[..i])
        invariant c.response.setCookies == []
      {
        trace := trace + [BeforeCalled(chain[i])];
        Middlewares.Before(chain[i], c);
        assert chain[..i + 1][..i] == chain[..i];
        i := i + 1;
      }
      assert chain[..i] == chain;
      var invoked := InvokeTarget(run(fn.target));
      var r := invoked.0;
      if invoked.1.Some? {
        r := JsonValue(Context.Error(invoked.1.value));
      }
      trace := trace + [HandlerCalled(fn.target)];
      ghost var prefix := trace;
      i := 0;
      while i < |chain|
        invariant 0 <= i <= |chain|
        invariant trace == prefix + AfterTrace(chain[..i])
        invariant c.response.setCookies == ChainCookies(chain[..i], req, value)
      {
        trace := trace + [AfterCalled(chain[i])];
        Middlewares.After(chain[i], c, value);
        assert chain[..i + 1][..i] == chain[..i];
        i := i + 1;
      }
      assert chain[..i] == chain;
      s := Served(Render(r), trace, c.response.setCookies);
    }

    /** `ServeHTTP`: the plain-handler table first, then the route table. */
    method ServeHTTP(req: Request, run: HandlerId -> HandlerOutcome, value: string) returns (s: Served)
      ensures s == Dispatch(handlers, handleFuncs, req, run, value)
    {
      if req.path in handlers {
        return Served(Delegated(handlers[req.path]), [], []);
      }
      if req.path in handleFuncs {
        var fn := handleFuncs[req.path];
        if ALL != fn.httpMethodType && req.httpMethod != fn.httpMethodType.Name() {
          return Served(MethodNotAllowed(MethodNotAllowedBody(req.httpMethod)), [], []);
        }
        s := Serve(fn, req, run, value);
        return;
      }
      return Served(NotFound, [], []);
    }
  }
}
