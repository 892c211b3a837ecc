/** Middlewares (frame/middleware/): hooks the router runs around every
    handler. The logging middleware and user middlewares are identified only;
    the session middleware's cookie rule is modelled in full. */
module Middlewares {
  import opened Values
  import opened Servlet
  import Context
  import Util

  datatype CookieConfig = CookieConfig(
    name: string,
    httpOnly: bool,
    maxAge: int,
    path: string,
    secure: bool)

  datatype Middleware =
    | LogMiddleware
    | SessionMiddleware(cookieConfig: CookieConfig)
    | UserMiddleware(id: nat)

  const DefaultCookieName: string := "SESSION"
  const DefaultCookieHttpOnly: bool := false
  const DefaultCookieMaxAge: int := 2147483647
  const DefaultCookiePath: string := "/"
  const DefaultCookieSecure: bool := false

  // Go's type assertions `v.(T)` on an interface value.
  function AsDict(v: Value): Option<map<string, Value>>
  {
    if v.Dict? then Some(v.entries) else None
  }

  function AsString(v: Value): Option<string>
  {
    if v.Str? then Some(v.s) else None
  }

  function AsBool(v: Value): Option<bool>
  {
    if v.Bool? then Some(v.b) else None
  }

  function AsInt(v: Value): Option<int>
  {
    if v.Int? then Some(v.i) else None
  }

  /** The raw `server.cookie.<field>` entry of the configuration; nil where a
      level is missing or is not a map. */
  function CookieEntry(conf: map<string, Value>, field: string): Value
  {
    match Lookup(conf, "server")
    case Dict(server) =>
      (match Lookup(server, "cookie")
       case Dict(cookie) => Lookup(cookie, field)
       case _ => Nil)
    case _ => Nil
  }

  /** Every level and entry that is present has the type the code asserts. */
  predicate WellTypedConfig(conf: map<string, Value>)
  {
    var server := Lookup(conf, "server");
    && (server.Nil? || server.Dict?)
    && (server.Dict? ==> Lookup(server.entries, "cookie").Nil? || Lookup(server.entries, "cookie").Dict?)
    && (CookieEntry(conf, "name").Nil? || CookieEntry(conf, "name").Str?)
    && (CookieEntry(conf, "http-only").Nil? || CookieEntry(conf, "http-only").Bool?)
    && (CookieEntry(conf, "max-age").Nil? || CookieEntry(conf, "max-age").Int?)
    && (CookieEntry(conf, "path").Nil? || CookieEntry(conf, "path").Str?)
    && (CookieEntry(conf, "secure").Nil? || CookieEntry(conf, "secure").Bool?)
  }

  /** `NewSessionMiddleware` over the configuration map. A present entry of
      the wrong type makes a type assertion panic, reported here as None. */
  function NewSessionMiddleware(conf: map<string, Value>): (r: Option<Middleware>)
    ensures r.Some? <==> WellTypedConfig(conf)
    ensures r.Some? ==> r.value.SessionMiddleware?
    ensures r.Some? ==>
      var cfg := r.value.cookieConfig;
      && (if CookieEntry(conf, "name") == Nil then cfg.name == DefaultCookieName
          else CookieEntry(conf, "name") == Str(cfg.name))
      && (if CookieEntry(conf, "http-only") == Nil then cfg.httpOnly == DefaultCookieHttpOnly
          else CookieEntry(conf, "http-only") == Bool(cfg.httpOnly))
      && (if CookieEntry(conf, "max-age") == Nil then cfg.maxAge == DefaultCookieMaxAge
          else CookieEntry(conf, "max-age") == Int(cfg.maxAge))
      && (if CookieEntry(conf, "path") == Nil then cfg.path == DefaultCookiePath
          else CookieEntry(conf, "path") == Str(cfg.path))
      && (if CookieEntry(conf, "secure") == Nil then cfg.secure == DefaultCookieSecure
          else CookieEntry(conf, "secure") == Bool(cfg.secure))
  {
    var server := AsDict(Util.ValueOrDefault(Lookup(conf, "server"), Dict(map[])));
    if server.None? then None
    else
      var cookie := AsDict(Util.ValueOrDefault(Lookup(server.value, "cookie"), Dict(map[])));
      if cookie.None? then None
      else
        var c := cookie.value;
        var name := AsString(Util.ValueOrDefault(Lookup(c, "name"), Str(DefaultCookieName)));
        var httpOnly := AsBool(Util.ValueOrDefault(Lookup(c, "http-only"), Bool(DefaultCookieHttpOnly)));
        var maxAge := AsInt(Util.ValueOrDefault(Lookup(c, "max-age"), Int(DefaultCookieMaxAge)));
        var path := AsString(Util.ValueOrDefault(Lookup(c, "path"), Str(DefaultCookiePath)));
        var secure := AsBool(Util.ValueOrDefault(Lookup(c, "secure"), Bool(DefaultCookieSecure)));
        if name.None? || httpOnly.None? || maxAge.None? || path.None? || secure.None? then None
        else Some(SessionMiddleware(CookieConfig(name.value, httpOnly.value, maxAge.value, path.value, secure.value)))
  }

  /** With no `server.cookie` section every default applies, and the default
      name is one `http.SetCookie` accepts. */
  lemma EmptyConfigDefaults(conf: map<string, Value>)
    requires "server" !in conf
    ensures NewSessionMiddleware(conf) == Some(SessionMiddleware(CookieConfig("SESSION", false, 2147483647, "/", false)))
    ensures ValidCookieName(DefaultCookieName)
  {
  }

  /** The cookie `After` issues, with a freshly generated value. */
  function IssuedCookie(cfg: CookieConfig, value: string): Cookie
  {
    Cookie(cfg.name, value, cfg.path, cfg.maxAge, cfg.secure, cfg.httpOnly, SameSiteLaxMode)
  }

  /** The `Set-Cookie` headers a middleware's `After` writes: one, exactly
      when it is the session middleware, the request has no cookie of the
      configured name and that name is a valid cookie name (`http.SetCookie`
      drops the others). Nothing else is consulted, the handler's result included. */
  function AfterCookies(m: Middleware, req: Request, value: string): (cs: seq<Cookie>)
    ensures |cs| <= 1
    ensures |cs| == 1 <==>
      m.SessionMiddleware? && m.cookieConfig.name !in req.cookieNames && ValidCookieName(m.cookieConfig.name)
    ensures |cs| == 1 ==>
      && cs[0].name == m.cookieConfig.name && cs[0].value == value
      && cs[0].path == m.cookieConfig.path && cs[0].maxAge == m.cookieConfig.maxAge
      && cs[0].secure == m.cookieConfig.secure && cs[0].httpOnly == m.cookieConfig.httpOnly
      && cs[0].sameSite == SameSiteLaxMode
  {
    match m
    case SessionMiddleware(cfg) =>
      if cfg.name in req.cookieNames || !ValidCookieName(cfg.name) then [] else [IssuedCookie(cfg, value)]
    case _ => []
  }

  /** The `Before` hook: no middleware of the model writes anything. */
  method Before(m: Middleware, c: Context.Context)
    modifies c.response
    ensures c.response.setCookies == old(c.response.setCookies)
  {
  }

  /** The `After` hook; `value` is the UUID the session middleware would generate. */
  method After(m: Middleware, c: Context.Context, value: string)
    modifies c.response
    ensures c.response.setCookies == old(c.response.setCookies) + AfterCookies(m, c.request, value)
  {
    match m
    case SessionMiddleware(cfg) =>
      if cfg.name !in c.request.cookieNames {
        c.response.SetCookie(IssuedCookie(cfg, value));
      }
    case _ =>
  }
}
