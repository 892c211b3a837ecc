/** What the dispatch protocol of frame/router/router.go guarantees, stated
    over the specification functions of module Router. */
module RouterProperties {
  import opened Values
  import opened Servlet
  import Context
  import Panics
  import Middlewares
  import opened Router

  /** Route precedence and the three early answers, each both ways: the
      plain-handler table wins, a path in neither table is a 404, and a route
      registered for another method (and not ALL) is a 405; none of them runs
      a hook or writes a cookie. */
  lemma DispatchRouting(handlers: map<string, HandlerId>, handleFuncs: map<string, HandlerFunc>,
                        req: Request, run: HandlerId -> HandlerOutcome, value: string)
    ensures var s := Dispatch(handlers, handleFuncs, req, run, value);
      && (s.result.Delegated? <==> req.path in handlers)
      && (req.path in handlers ==> s.result.handler == handlers[req.path])
      && (s.result.NotFound? <==> req.path !in handlers && req.path !in handleFuncs)
      && (s.result.MethodNotAllowed? <==>
            req.path !in handlers && req.path in handleFuncs
            && handleFuncs[req.path].httpMethodType != ALL
            && req.httpMethod != handleFuncs[req.path].httpMethodType.Name())
      && (s.result.MethodNotAllowed? ==> s.result.body == MethodNotAllowedBody(req.httpMethod))
      && (s.result.Delegated? || s.result.NotFound? || s.result.MethodNotAllowed? ==> s.trace == [] && s.cookies == [])
  {
  }

  /** The Before hooks run once each, in chain order. */
  lemma {:induction false} BeforeTraceShape(chain: seq<Middlewares.Middleware>)
    ensures |BeforeTrace(chain)| == |chain|
    ensures forall i :: 0 <= i < |chain| ==> BeforeTrace(chain)[i] == BeforeCalled(chain[i])
  {
    if chain != [] {
      BeforeTraceShape(chain[..|chain| - 1]);
    }
  }

  /** The After hooks run once each, in the SAME order as the Before hooks. */
  lemma {:induction false} AfterTraceShape(chain: seq<Middlewares.Middleware>)
    ensures |AfterTrace(chain)| == |chain|
    ensures forall i :: 0 <= i < |chain| ==> AfterTrace(chain)[i] == AfterCalled(chain[i])
  {
    if chain != [] {
      AfterTraceShape(chain[..|chain| - 1]);
    }
  }

  /** Serving a route with a chain of n middlewares produces 2n+1 events:
      the n Before hooks in order, the handler exactly once, then the n After
      hooks in the same order (not mirrored). */
  lemma ServeTraceShape(fn: HandlerFunc, req: Request, run: HandlerId -> HandlerOutcome, value: string)
    requires fn.middlewares.Some?
    ensures var chain := fn.middlewares.value;
      var t := ServeSpec(fn, req, run, value).trace;
      && |t| == 2 * |chain| + 1
      && (forall i :: 0 <= i < |chain| ==> t[i] == BeforeCalled(chain[i]))
      && t[|chain|] == HandlerCalled(fn.target)
      && (forall i :: 0 <= i < |chain| ==> t[|chain| + 1 + i] == AfterCalled(chain[i]))
      && (forall i :: 0 <= i < |t| ==> (t[i].HandlerCalled? <==> i == |chain|))
  {
    var chain := fn.middlewares.value;
    BeforeTraceShape(chain);
    AfterTraceShape(chain);
    TraceLayout(chain, BeforeTrace(chain), fn.target, AfterTrace(chain));
  }

  /** The layout of a trace built from a Before part, one handler event and
      an After part, for any two parts of the right shape. */
  lemma TraceLayout(chain: seq<Middlewares.Middleware>, before: seq<Event>, h: HandlerId, after: seq<Event>)
    requires |before| == |chain| && |after| == |chain|
    requires forall i :: 0 <= i < |chain| ==> before[i] == BeforeCalled(chain[i])
    requires forall i :: 0 <= i < |chain| ==> after[i] == AfterCalled(chain[i])
    ensures var t := before + [HandlerCalled(h)] + after;
      && |t| == 2 * |chain| + 1
      && (forall i :: 0 <= i < |chain| ==> t[i] == BeforeCalled(chain[i]))
      && t[|chain|] == HandlerCalled(h)
      && (forall i :: 0 <= i < |chain| ==> t[|chain| + 1 + i] == AfterCalled(chain[i]))
      && (forall i :: 0 <= i < |t| ==> (t[i].HandlerCalled? <==> i == |chain|))
  {
    var n := |chain|;
    var mid := before + [HandlerCalled(h)];
    var t := mid + after;
    assert |mid| == n + 1;
    forall i | 0 <= i < n + 1
      ensures t[i] == mid[i]
    {
    }
    forall i | 0 <= i < n
      ensures t[i] == BeforeCalled(chain[i])
    {
      assert mid[i] == before[i];
    }
    forall i | 0 <= i < n
      ensures t[n + 1 + i] == AfterCalled(chain[i])
    {
      assert t[n + 1 + i] == after[i];
    }
    forall i | 0 <= i < |t|
      ensures t[i].HandlerCalled? <==> i == n
    {
      if i < n {
        assert t[i] == before[i];
      } else if i > n {
        assert t[i] == after[i - n - 1];
      }
    }
  }

  /** What a served route renders. A returned envelope or page is written as
      it is, anything else writes no body. A business fault becomes an error
      envelope with the fault's message and the generic code -1, whatever
      code the fault carried; any other fault becomes one with the generic
      message. All of these have status 200. */
  lemma ServeRendering(fn: HandlerFunc, req: Request, run: HandlerId -> HandlerOutcome, value: string)
    requires fn.middlewares.Some?
    ensures var r := ServeSpec(fn, req, run, value).result;
      && Status(r) == Some(200)
      && (run(fn.target).Returned? ==> r == Render(run(fn.target).result))
      && (run(fn.target).BizFault? ==>
            r == Json(Context.Response(Nil, -1, false, run(fn.target).fault.message)))
      && (run(fn.target).OtherFault? ==>
            r == Json(Context.Response(Nil, -1, false, InternalErrorMessage)))
  {
  }

  /** Two business faults differing only in their code render identically. */
  lemma BizCodeIsDropped(fn: HandlerFunc, req: Request, run1: HandlerId -> HandlerOutcome,
                         run2: HandlerId -> HandlerOutcome, value: string, message: string, code1: int, code2: int)
    requires fn.middlewares.Some?
    requires run1(fn.target) == BizFault(Panics.BizPanic(message, code1))
    requires run2(fn.target) == BizFault(Panics.BizPanic(message, code2))
    ensures ServeSpec(fn, req, run1, value) == ServeSpec(fn, req, run2, value)
  {
  }

  /** Hooks and cookies never depend on how the handler ended: a fault in
      the handler still runs every After hook. */
  lemma HooksIgnoreHandler(fn: HandlerFunc, req: Request, run1: HandlerId -> HandlerOutcome,
                           run2: HandlerId -> HandlerOutcome, value: string)
    ensures ServeSpec(fn, req, run1, value).trace == ServeSpec(fn, req, run2, value).trace
    ensures ServeSpec(fn, req, run1, value).cookies == ServeSpec(fn, req, run2, value).cookies
  {
  }

  /** A middleware of the chain that sets a cookie on this request. */
  predicate Issues(m: Middlewares.Middleware, req: Request)
  {
    && m.SessionMiddleware?
    && m.cookieConfig.name !in req.cookieNames
    && ValidCookieName(m.cookieConfig.name)
  }

  /** The cookie rule over a whole chain: some cookie is written exactly when
      some session middleware of the chain with a valid cookie name does not
      find its cookie on the request, and every cookie written is the one
      such a middleware issues. */
  lemma {:induction false} ChainCookiesRule(chain: seq<Middlewares.Middleware>, req: Request, value: string)
    ensures ChainCookies(chain, req, value) != [] <==> exists i :: 0 <= i < |chain| && Issues(chain[i], req)
    ensures forall c :: c in ChainCookies(chain, req, value) ==>
      exists i :: 0 <= i < |chain| && Issues(chain[i], req) && c == Middlewares.IssuedCookie(chain[i].cookieConfig, value)
  {
    if chain != [] {
      var front := chain[..|chain| - 1];
      var last := chain[|chain| - 1];
      ChainCookiesRule(front, req, value);
      if exists i :: 0 <= i < |front| && Issues(front[i], req) {
        var i :| 0 <= i < |front| && Issues(front[i], req);
        assert chain[i] == front[i];
      }
      if exists i :: 0 <= i < |chain| && Issues(chain[i], req) {
        var i :| 0 <= i < |chain| && Issues(chain[i], req);
        if i < |front| {
          assert front[i] == chain[i];
        }
      }
      forall c | c in ChainCookies(chain, req, value)
        ensures exists i :: 0 <= i < |chain| && Issues(chain[i], req) && c == Middlewares.IssuedCookie(chain[i].cookieConfig, value)
      {
        if c in ChainCookies(front, req, value) {
          var i :| 0 <= i < |front| && Issues(front[i], req) && c == Middlewares.IssuedCookie(front[i].cookieConfig, value);
          assert chain[i] == front[i];
        } else {
          assert c in Middlewares.AfterCookies(last, req, value);
          assert Issues(chain[|chain| - 1], req);
        }
      }
    }
  }

  /** The default global chain (logging, then session): a request without the
      session cookie gets exactly one new cookie carrying the UUID, a request
      with it gets none; a configured name that is not a valid cookie name
      never produces a header. */
  lemma DefaultChainCookies(cfg: Middlewares.CookieConfig, req: Request, value: string)
    ensures ChainCookies([Middlewares.LogMiddleware, Middlewares.SessionMiddleware(cfg)], req, value) ==
      if cfg.name in req.cookieNames || !ValidCookieName(cfg.name) then [] else [Middlewares.IssuedCookie(cfg, value)]
  {
    var chain := [Middlewares.LogMiddleware, Middlewares.SessionMiddleware(cfg)];
    assert chain[..1] == [Middlewares.LogMiddleware];
    assert ChainCookies(chain[..1], req, value) == [] by {
      assert chain[..1][..0] == [];
    }
  }

  /** Flattening splits over concatenation of accessor chains. */
  lemma {:induction false} FlattenAppend(a: seq<RouterGroup>, b: seq<RouterGroup>)
    ensures Flatten(a + b) == Flatten(a) + Flatten(b)
    decreases |b|
  {
    if b == [] {
      assert a + b == a;
    } else {
      var front := b[..|b| - 1];
      assert (a + b)[..|a + b| - 1] == a + front;
      FlattenAppend(a, front);
    }
  }

  /** The outermost group's middlewares come first. */
  lemma FlattenOutermostFirst(g: RouterGroup, inner: seq<RouterGroup>)
    ensures Flatten([g] + inner) == g.middlewares + Flatten(inner)
  {
    FlattenAppend([g], inner);
    assert [g][..0] == [];
  }

  /** A collected chain is as long as the global list plus every group list. */
  lemma {:induction false} FlattenLength(groups: seq<RouterGroup>)
    ensures |Flatten(groups)| == TotalLength(groups)
  {
    if groups != [] {
      FlattenLength(groups[..|groups| - 1]);
    }
  }

  /** The chain of a route: globals first, then the groups outermost first,
      and for a route outside any group the globals alone. */
  lemma CollectShape(globals: seq<Middlewares.Middleware>, groups: Option<seq<RouterGroup>>)
    ensures |Collect(globals, groups)| == |globals| + TotalLength(GroupsOf(groups))
    ensures globals <= Collect(globals, groups)
    ensures groups.None? ==> Collect(globals, groups) == globals
  {
    FlattenLength(GroupsOf(groups));
  }

  /** Joining an empty path or an empty prefix changes nothing. */
  lemma ConcatIdentity(p: string)
    ensures ConcatRouterPath(p, "") == p
    ensures ConcatRouterPath("", p) == p
  {
  }

  /** At most one '/' is dropped, and only at the seam: the result is the
      plain join, or the plain join with the second path's leading '/' removed. */
  lemma ConcatDropsAtMostOneSlash(p1: string, p2: string)
    ensures ConcatRouterPath(p1, p2) == p1 + p2 || (|p2| > 0 && p2[0] == '/' && ConcatRouterPath(p1, p2) == p1 + p2[1..])
    ensures |p1 + p2| - 1 <= |ConcatRouterPath(p1, p2)| <= |p1 + p2|
  {
    if Seam(p1, p2) {
      assert p1[..|p1| - 1] + p2 == p1 + p2[1..] by {
        assert p1 == p1[..|p1| - 1] + ['/'];
        assert p2 == ['/'] + p2[1..];
      }
    }
  }

  /** Loading the defaults twice appends them twice: the initialisation is
      not idempotent. */
  method InitTwiceAppendsTwice(r: Router, conf: map<string, Value>)
    requires Middlewares.NewSessionMiddleware(conf).Some?
    modifies r
    ensures var s := Middlewares.NewSessionMiddleware(conf).value;
      r.middlewares == old(r.middlewares) + [Middlewares.LogMiddleware, s, Middlewares.LogMiddleware, s]
  {
    var ok := r.InitRouterMiddleware(conf);
    ok := r.InitRouterMiddleware(conf);
  }
}
