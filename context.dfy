/** The per-request context (frame/context/context.go): response envelopes,
    URL parameters, the local scratch map, query lookup with its cache, the
    `key[inner]` query-map extractor, and the initializer list. */
module Context {
  import opened Values
  import opened Servlet

  /** The JSON envelope every controller returns: `{data, code, success, message}`. */
  datatype Response = Response(data: Value, code: int, success: bool, message: string)

  /** A rendered page: the bytes of its buffer. */
  datatype PageResponse = PageResponse(buffer: seq<Byte>)

  /** The in-band convention of the envelope: code 0 exactly on success. */
  ghost predicate WellFormedEnvelope(r: Response)
  {
    r.success <==> r.code == 0
  }

  function Success(data: Value): (r: Response)
    ensures r.data == data && r.code == 0 && r.success && r.message == ""
    ensures WellFormedEnvelope(r)
  {
    Response(data, 0, true, "")
  }

  function Error(message: string): (r: Response)
    ensures r.data == Nil && r.code == -1 && !r.success && r.message == message
    ensures WellFormedEnvelope(r)
  {
    Response(Nil, -1, false, message)
  }

  /** A success envelope and an error envelope are never equal, and each
      constructor is injective in its argument. */
  lemma EnvelopesDistinct(d: Value, d': Value, m: string, m': string)
    ensures Success(d) != Error(m)
    ensures Success(d) == Success(d') <==> d == d'
    ensures Error(m) == Error(m') <==> m == m'
  {
  }

  /** The request's scratch map, shared by the hooks and the handler. */
  class LocalVars {
    var m: map<string, Value>

    constructor ()
      ensures m == map[]
    {
      m := map[];
    }

    /** Reading a key never set gives nil. */
    function Get(key: string): (v: Value)
      reads this
      ensures key in m ==> v == m[key]
      ensures key !in m ==> v == Nil
    {
      Lookup(m, key)
    }

    method Set(key: string, value: Value)
      modifies this
      ensures m == old(m)[key := value]
      ensures Get(key) == value
      ensures forall k :: k != key ==> Get(k) == old(Get(k))
    {
      m := m[key := value];
    }
  }

  /** A single URL parameter. */
  datatype Param = Param(key: string, value: string)

  /** The parameters in URL order; lookups scan from the front. */
  datatype Params = Params(entries: seq<Param>) {

    /** The value of the FIRST entry with that key, with true; ("", false)
        when no entry has it. */
    function Get(name: string): (r: (string, bool))
      decreases |entries|
      ensures r.1 <==> exists i :: 0 <= i < |entries| && entries[i].key == name
      ensures r.1 ==> exists i :: 0 <= i < |entries| && entries[i].key == name
                                && r.0 == entries[i].value
                                && forall j :: 0 <= j < i ==> entries[j].key != name
      ensures !r.1 ==> r.0 == ""
    {
      if entries == [] then ("", false)
      else if entries[0].key == name then (entries[0].value, true)
      else
        var r := Params(entries[1..]).Get(name);
        assert forall i :: 0 < i < |entries| ==> entries[i] == entries[1..][i - 1];
        r
    }

    /** `Get` without its flag. */
    function ByName(name: string): (va: string)
      ensures va == Get(name).0
      ensures (forall i :: 0 <= i < |entries| ==> entries[i].key != name) ==> va == ""
    {
      Get(name).0
    }
  }

  /** `strings.IndexByte`: the index of the first occurrence, or -1. */
  function IndexByte(s: string, c: char): (r: int)
    ensures -1 <= r < |s|
    ensures r == -1 <==> c !in s
    ensures r >= 0 ==> s[r] == c && c !in s[..r]
  {
    if s == [] then -1
    else if s[0] == c then 0
    else
      var r := IndexByte(s[1..], c);
      assert s == [s[0]] + s[1..];
      if r == -1 then -1
      else
        assert s[..r + 1] == [s[0]] + s[1..][..r];
        r + 1
  }

  lemma IndexByteAt(s: string, c: char, p: nat)
    requires p < |s| && s[p] == c && c !in s[..p]
    ensures IndexByte(s, c) == p
  {
    assert s[p] in s;
  }

  /** How `get` reads a query key: the text before its first '[' and the text
      between that '[' and the first ']' after it, both non-empty. */
  function BracketParts(k: string): Option<(string, string)>
  {
    var i := IndexByte(k, '[');
    if i >= 1 then
      var j := IndexByte(k[i + 1..], ']');
      if j >= 1 then Some((k[..i], k[i + 1..][..j])) else None
    else None
  }

  /** The keys `get` accepts are exactly those spelled key + "[" + inner + "]"
      + rest, where key has no '[' and inner no ']', both non-empty. */
  lemma BracketPartsShape(k: string, key: string, inner: string)
    ensures BracketParts(k) == Some((key, inner)) <==> SpelledAsMapKey(k, key, inner)
  {
    if BracketParts(k) == Some((key, inner)) {
      BracketPartsSpelled(k);
    }
    if SpelledAsMapKey(k, key, inner) {
      SpelledBracketParts(k, key, inner);
    }
  }

  /** k is key + "[" + inner + "]" + rest, key non-empty without '[', inner
      non-empty without ']'. */
  ghost predicate SpelledAsMapKey(k: string, key: string, inner: string)
  {
    && 1 <= |key| && 1 <= |inner| && '[' !in key && ']' !in inner
    && |key| + |inner| + 2 <= |k|
    && k == key + "[" + inner + "]" + k[|key| + |inner| + 2..]
  }

  lemma BracketPartsSpelled(k: string)
    requires BracketParts(k).Some?
    ensures SpelledAsMapKey(k, BracketParts(k).value.0, BracketParts(k).value.1)
  {
    var i := IndexByte(k, '[');
    var j := IndexByte(k[i + 1..], ']');
    Respell(k, i, j);
  }

  /** Cutting k around a '[' at i and a ']' j characters after it. */
  lemma Respell(k: string, i: nat, j: nat)
    requires i < |k| && k[i] == '[' && j < |k| - i - 1 && k[i + 1..][j] == ']'
    ensures k == k[..i] + "[" + k[i + 1..][..j] + "]" + k[i + j + 2..]
  {
    var t := k[i + 1..];
    assert k == k[..i] + [k[i]] + t;
    assert t == t[..j] + [t[j]] + t[j + 1..];
    assert t[j + 1..] == k[i + j + 2..];
  }

  lemma SpelledBracketParts(k: string, key: string, inner: string)
    requires SpelledAsMapKey(k, key, inner)
    ensures BracketParts(k) == Some((key, inner))
  {
    var n, l := |key|, |inner|;
    assert k[..n] == key && k[n] == '[';
    IndexByteAt(k, '[', n);
    var t := k[n + 1..];
    assert t == inner + "]" + k[n + l + 2..];
    assert t[..l] == inner && t[l] == ']';
    IndexByteAt(t, ']', l);
  }

  /** The keys of a query map that `get` files under `key`. */
  predicate IsMapKey(k: string, key: string)
  {
    BracketParts(k).Some? && BracketParts(k).value.0 == key
  }

  /** `GetQueryArray` on a query map: the values, flagged, when the key has at
      least one value, else an empty list and false. */
  function QueryArrayOf(q: QueryValues, key: string): (r: (seq<string>, bool))
    ensures r.1 <==> key in q && q[key] != []
    ensures r.1 ==> r.0 == q[key]
    ensures !r.1 ==> r.0 == []
  {
    if key in q && |q[key]| > 0 then (q[key], true) else ([], false)
  }

  /** `GetQuery`: the first value, flagged, under the same condition. */
  function QueryOf(q: QueryValues, key: string): (r: (string, bool))
    ensures r.1 <==> key in q && q[key] != []
    ensures r.1 ==> r.0 == q[key][0]
    ensures !r.1 ==> r.0 == ""
  {
    var (values, ok) := QueryArrayOf(q, key);
    if ok then (values[0], ok) else ("", false)
  }

  /** `DefaultQuery`: the default is used exactly when `GetQuery` says false. */
  function DefaultQueryOf(q: QueryValues, key: string, defaultValue: string): (r: string)
    ensures !QueryOf(q, key).1 ==> r == defaultValue
    ensures QueryOf(q, key).1 ==> r == q[key][0]
  {
    var (value, ok) := QueryOf(q, key);
    if ok then value else defaultValue
  }

  /** An explicitly empty value is still a value: `?lastname=` gives ("", true). */
  lemma EmptyValueIsPresent(q: QueryValues, key: string)
    requires key in q && q[key] == [""]
    ensures QueryOf(q, key) == ("", true)
    ensures DefaultQueryOf(q, key, "none") == ""
  {
  }

  class Context {
    const request: Request
    const response: HttpResponse
    const localVars: LocalVars
    var params: Params
    /** The parsed URL query, filled on first use. */
    var queryCache: Option<QueryValues>

    /** What `serve` builds for each request: fresh scratch space, no
        parameters, no query cache. */
    constructor (request: Request)
      ensures this.request == request
      ensures fresh(response) && response.setCookies == []
      ensures fresh(localVars) && localVars.m == map[]
      ensures params == Params([]) && queryCache == None
    {
      this.request := request;
      response := new HttpResponse();
      localVars := new LocalVars();
      params := Params([]);
      queryCache := None;
    }

    /** A shortcut for `Params.ByName`. */
    function Param(key: string): (va: string)
      reads this
      ensures va == params.Get(key).0
    {
      params.ByName(key)
    }

    /** The cache is computed only while it is empty; once filled it is kept. */
    method GetQueryCache()
      modifies this`queryCache
      ensures old(queryCache).Some? ==> queryCache == old(queryCache)
      ensures old(queryCache).None? ==> queryCache == Some(request.query)
    {
      if queryCache == None {
        queryCache := Some(request.query);
      }
    }

    method GetQueryArray(key: string) returns (values: seq<string>, ok: bool)
      modifies this`queryCache
      ensures old(queryCache).Some? ==> queryCache == old(queryCache)
      ensures old(queryCache).None? ==> queryCache == Some(request.query)
      ensures queryCache.Some? && (values, ok) == QueryArrayOf(queryCache.value, key)
    {
      GetQueryCache();
      var q := queryCache.value;
      if key in q && |q[key]| > 0 {
        return q[key], true;
      }
      return [], false;
    }

    method GetQuery(key: string) returns (value: string, ok: bool)
      modifies this`queryCache
      ensures old(queryCache).Some? ==> queryCache == old(queryCache)
      ensures old(queryCache).None? ==> queryCache == Some(request.query)
      ensures queryCache.Some? && (value, ok) == QueryOf(queryCache.value, key)
    {
      var values;
      values, ok := GetQueryArray(key);
      if ok {
        return values[0], ok;
      }
      return "", false;
    }

    method Query(key: string) returns (value: string)
      modifies this`queryCache
      ensures old(queryCache).Some? ==> queryCache == old(queryCache)
      ensures old(queryCache).None? ==> queryCache == Some(request.query)
      ensures queryCache.Some? && value == QueryOf(queryCache.value, key).0
    {
      var ok;
      value, ok := GetQuery(key);
    }

    method DefaultQuery(key: string, defaultValue: string) returns (value: string)
      modifies this`queryCache
      ensures old(queryCache).Some? ==> queryCache == old(queryCache)
      ensures old(queryCache).None? ==> queryCache == Some(request.query)
      ensures queryCache.Some? && value == DefaultQueryOf(queryCache.value, key, defaultValue)
    {
      var ok;
      value, ok := GetQuery(key);
      if !ok {
        value := defaultValue;
      }
    }

    method QueryArray(key: string) returns (values: seq<string>)
      modifies this`queryCache
      ensures old(queryCache).Some? ==> queryCache == old(queryCache)
      ensures old(queryCache).None? ==> queryCache == Some(request.query)
      ensures queryCache.Some? && values == QueryArrayOf(queryCache.value, key).0
    {
      var ok;
      values, ok := GetQueryArray(key);
    }

    /** `get`: every query key of the form key[inner]... contributes inner,
        mapped to its first value; `exist` says whether any key did. Map
        iteration order is unspecified, so when two keys share an inner the
        value of either may survive. A matching key with no values makes
        `v[0]` fault, which is reported as `fault`. */
    method Get(m: QueryValues, key: string) returns (dicts: map<string, string>, exist: bool, fault: bool)
      ensures fault <==> exists k :: k in m && IsMapKey(k, key) && m[k] == []
      ensures !fault ==> (exist <==> exists k :: k in m && IsMapKey(k, key))
      ensures !fault ==> forall k :: k in m && IsMapKey(k, key) ==> BracketParts(k).value.1 in dicts
      ensures !fault ==> forall inner :: inner in dicts ==>
        exists k :: k in m && BracketParts(k) == Some((key, inner)) && dicts[inner] == m[k][0]
    {
      dicts, exist, fault := map[], false, false;
      var rest := m.Keys;
      ghost var done: set<string> := {};
      while rest != {}
        invariant rest + done == m.Keys && rest !! done
        invariant forall k :: k in done && IsMapKey(k, key) ==> m[k] != []
        invariant exist <==> dicts != map[]
        invariant forall k :: k in done && IsMapKey(k, key) ==> BracketParts(k).value.1 in dicts
        invariant forall inner :: inner in dicts ==>
          exists k :: k in done && BracketParts(k) == Some((key, inner)) && dicts[inner] == m[k][0]
        decreases rest
      {
        var k :| k in rest;
        rest, done := rest - {k}, done + {k};
        var parts := BracketParts(k);
        if parts.Some? && parts.value.0 == key {
          if |m[k]| == 0 {
            return dicts, exist, true;
          }
          exist := true;
          ghost var before := dicts;
          dicts := dicts[parts.value.1 := m[k][0]];
          forall inner | inner in dicts
            ensures exists k' :: k' in done && BracketParts(k') == Some((key, inner)) && dicts[inner] == m[k'][0]
          {
            if inner != parts.value.1 {
              assert inner in before;
            }
          }
        }
      }
      if exist {
        var inner :| inner in dicts;
      }
    }

    /** `GetQueryMap`: `Get` over the (cached) URL query. */
    method GetQueryMap(key: string) returns (dicts: map<string, string>, ok: bool, fault: bool)
      modifies this`queryCache
      ensures old(queryCache).Some? ==> queryCache == old(queryCache)
      ensures old(queryCache).None? ==> queryCache == Some(request.query)
      ensures queryCache.Some?
      ensures fault <==> exists k :: k in queryCache.value && IsMapKey(k, key) && queryCache.value[k] == []
      ensures !fault ==> (ok <==> exists k :: k in queryCache.value && IsMapKey(k, key))
      ensures !fault ==> forall k :: k in queryCache.value && IsMapKey(k, key) ==> BracketParts(k).value.1 in dicts
      ensures !fault ==> forall inner :: inner in dicts ==>
        exists k :: k in queryCache.value && BracketParts(k) == Some((key, inner)) && dicts[inner] == queryCache.value[k][0]
    {
      GetQueryCache();
      dicts, ok, fault := Get(queryCache.value, key);
    }
  }

  /** An initializer: a function run once at start-up, as an opaque id. */
  datatype Initializer = Initializer(f: nat)

  /** The process-wide list `doInitializer` runs front to back. */
  class InitializerList {
    var items: seq<Initializer>

    constructor ()
      ensures items == []
    {
      items := [];
    }

    method RegistInitializer(f: nat)
      modifies this
      ensures items == old(items) + [Initializer(f)]
    {
      items := items + [Initializer(f)];
    }

    /** Another name for `RegistInitializer`. */
    method Inject(f: nat)
      modifies this
      ensures items == old(items) + [Initializer(f)]
    {
      items := items + [Initializer(f)];
    }
  }
}
