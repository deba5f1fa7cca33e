/**
  `ApiService`: turns a per-call request description and a named endpoint
  configuration into a concrete HTTP call (URL, timeout, cache flags, token
  and query parameters), decides on the unfinished cache path whether a stored
  entry may answer a GET, and runs the promise-style call, which races the
  transport against a timer and reports loading and error signals.

  The auth token is an argument: the source reads it with `TokenService.get()`
  at the start of `request2` and again in `encodeURL`, with no write in
  between, so both reads give the same value.
*/
module Api {
  import opened Wrappers
  import opened JsValues
  import opened AngularHttp
  import opened CacheData
  import opened ErrorsStream
  import opened MemoryStore

  const DefaultConfigName: string := "main"
  const DefaultRequestPoint: string := "global"

  /**
    An endpoint configuration (`apiConfig`). Every field may be missing, as in
    the empty object that an unknown name resolves to. `routes` holds the
    subject objects that the source reads as `config[subject][just]`.
  */
  datatype ApiConfig = ApiConfig(
    name: Option<string>,
    tokenFieldName: Option<string>,
    timeout: Option<int>,
    withCredentials: Option<bool>,
    cache: Option<bool>,
    forcedRefresh: Option<bool>,
    routes: map<string, map<string, string>>)

  const EmptyConfig: ApiConfig := ApiConfig(None, None, None, None, None, None, map[])

  /** One entry of `paramsArray`. */
  datatype QueryParam = QueryParam(key: string, val: Scalar)

  /** What a caller passes (`apiRequestOptions`); an omitted `paramsArray` is the empty one. */
  datatype RequestOptions = RequestOptions(
    url: Option<string>,
    verb: Option<string>,
    subject: Option<string>,
    just: Option<string>,
    requestPoint: Option<string>,
    param: Option<Scalar>,
    paramsArray: seq<QueryParam>,
    body: Option<string>,
    timeout: Option<int>,
    cache: Option<bool>,
    forcedRefresh: Option<bool>,
    useConfig: Option<string>)

  /** `requestOptions` handed to the transport; its headers are always empty. */
  datatype TransportOptions = TransportOptions(withCredentials: Option<bool>, params: HttpParams)

  /** The options object after `request2` has filled it in. */
  datatype ResolvedRequest = ResolvedRequest(
    url: Option<string>,
    verb: string,
    requestPoint: Option<string>,
    body: Option<string>,
    timeout: Option<int>,
    cache: Option<bool>,
    forcedRefresh: Option<bool>,
    useConfig: Option<string>,
    requestOptions: TransportOptions)

  /** The `HttpClient` call `doRequest` issues. */
  datatype HttpCall =
    | HttpGet(url: Option<string>, options: TransportOptions)
    | HttpPost(url: Option<string>, body: Option<string>, options: TransportOptions)
    | HttpPut(url: Option<string>, body: Option<string>, options: TransportOptions)
    | HttpPatch(url: Option<string>, body: Option<string>, options: TransportOptions)
    | HttpDelete(url: Option<string>, options: TransportOptions)

  /** What `request2` produces: the resolved options and the call (none for an unknown method). */
  datatype Prepared = Prepared(request: ResolvedRequest, call: Option<HttpCall>)

  /** The `TypeError`s resolution can throw. */
  datatype Fault =
    | MissingRoute   // `config[subject]` is undefined
    | MissingMethod  // `method` is undefined
    | MissingConfig  // the cache path found no configuration under the name

  // ---------------------------------------------------------------- getConfig

  predicate FirstNamed(configs: seq<ApiConfig>, name: string, i: int)
  {
    && 0 <= i < |configs|
    && configs[i].name == Some(name)
    && forall j :: 0 <= j < i ==> configs[j].name != Some(name)
  }

  /** `getConfig`: the first configuration called `name`, or the empty object when there is none. */
  function GetConfig(configs: seq<ApiConfig>, name: string): (c: ApiConfig)
    ensures (forall i :: 0 <= i < |configs| ==> configs[i].name != Some(name)) ==> c == EmptyConfig
    ensures forall i :: FirstNamed(configs, name, i) ==> c == configs[i]
  {
    if configs == [] then EmptyConfig
    else if configs[0].name == Some(name) then configs[0]
    else
      var c := GetConfig(configs[1..], name);
      assert forall i :: FirstNamed(configs, name, i) ==> FirstNamed(configs[1..], name, i - 1);
      c
  }

  /** The configuration name a request uses: its own `useConfig` when truthy, else `'main'`. */
  function ConfigName(useConfig: Option<string>): string
  {
    if TruthyText(useConfig) then useConfig.value else DefaultConfigName
  }

  // ---------------------------------------------------------------- request2

  /** Whether `apiOptions.url ? apiOptions.url : config[subject][just]` can be evaluated without throwing. */
  predicate HasUrlSource(opts: RequestOptions, config: ApiConfig)
  {
    TruthyText(opts.url) || Show(opts.subject, Undefined) in config.routes
  }

  /** `config[subject][just]`; `undefined` when the subject has no such action. */
  function Route(config: ApiConfig, subject: Option<string>, just: Option<string>): Option<string>
    requires Show(subject, Undefined) in config.routes
  {
    var actions := config.routes[Show(subject, Undefined)];
    var action := Show(just, Undefined);
    if action in actions then Some(actions[action]) else None
  }

  /** The URL before query encoding: explicit or routed, then `/param` when `param` is truthy. */
  function Located(opts: RequestOptions, config: ApiConfig): (u: Option<string>)
    requires HasUrlSource(opts, config)
    ensures !TruthyScalar(opts.param) && TruthyText(opts.url) ==> u == opts.url
    ensures !TruthyScalar(opts.param) && !TruthyText(opts.url) ==> u == Route(config, opts.subject, opts.just)
    ensures TruthyScalar(opts.param) ==>
              var tail := "/" + ScalarToString(opts.param.value);
              u.Some? && |tail| <= |u.value| && u.value[|u.value| - |tail|..] == tail
    ensures TruthyScalar(opts.param) ==>
              var b := Show(if TruthyText(opts.url) then opts.url else Route(config, opts.subject, opts.just), Undefined);
              var tail := "/" + ScalarToString(opts.param.value);
              u.Some? && b <= u.value && |u.value| == |b| + |tail|
  {
    var base := if TruthyText(opts.url) then opts.url else Route(config, opts.subject, opts.just);
    if TruthyScalar(opts.param) then
      var head := Show(base, Undefined);
      var tail := "/" + ScalarToString(opts.param.value);
      assert (head + tail)[|head|..] == tail;
      Some(head + tail)
    else base
  }

  /** The token parameter a non-GET request starts from: present only for a truthy token. */
  function TokenParams(tokenFieldName: Option<string>, token: Option<string>): HttpParams
  {
    if TruthyText(token) then Set([], Show(tokenFieldName, Undefined), token.value) else []
  }

  /** `items.forEach(item => p = p.set(item.key, String(item.val)))`. */
  function SetEach(p: HttpParams, items: seq<QueryParam>): HttpParams
  {
    if items == [] then p
    else
      var last := items[|items| - 1];
      Set(SetEach(p, items[..|items| - 1]), last.key, ScalarToString(last.val))
  }

  /** The parameter container of a non-GET request. */
  function NonGetParams(tokenFieldName: Option<string>, token: Option<string>, items: seq<QueryParam>): HttpParams
  {
    SetEach(TokenParams(tokenFieldName, token), items)
  }

  /** The value, as `String(val)`, of the last item whose key is `k`. */
  function LastValue(items: seq<QueryParam>, k: string): Option<string>
  {
    if items == [] then None
    else if items[|items| - 1].key == k then Some(ScalarToString(items[|items| - 1].val))
    else LastValue(items[..|items| - 1], k)
  }

  /** Setting the items one by one leaves each key with its last value; other keys keep theirs. */
  lemma {:induction false} SetEachLookup(p: HttpParams, items: seq<QueryParam>, k: string)
    ensures Get(SetEach(p, items), k) == if LastValue(items, k).Some? then LastValue(items, k) else Get(p, k)
    decreases |items|
  {
    if items != [] {
      SetEachLookup(p, items[..|items| - 1], k);
    }
  }

  /**
    In a non-GET request each parameter key holds the value of its last
    occurrence, and the token field holds the token only when the token is
    truthy and no parameter of the same name overrides it.
  */
  lemma NonGetParamsLookup(tokenFieldName: Option<string>, token: Option<string>, items: seq<QueryParam>, k: string)
    ensures Get(NonGetParams(tokenFieldName, token, items), k) ==
              if LastValue(items, k).Some? then LastValue(items, k)
              else if TruthyText(token) && k == Show(tokenFieldName, Undefined) then token
              else None
  {
    SetEachLookup(TokenParams(tokenFieldName, token), items, k);
  }

  /**
    `request2`: merges the per-call options with the named configuration and
    builds either the GET query string or the parameter container.
  */
  method Request2(configs: seq<ApiConfig>, opts: RequestOptions, token: Option<string>, encodeURI: string -> string)
    returns (r: Result<Prepared, Fault>)
    ensures var config := GetConfig(configs, ConfigName(opts.useConfig));
            r.Failure? <==> !HasUrlSource(opts, config) || opts.verb.None?
    ensures var config := GetConfig(configs, ConfigName(opts.useConfig));
            r.Failure? ==> r.error == if !HasUrlSource(opts, config) then MissingRoute else MissingMethod
    ensures r.Success? ==>
              var config := GetConfig(configs, ConfigName(opts.useConfig));
              var q := r.value.request;
              && q.verb == opts.verb.value
              && q.requestPoint == opts.requestPoint && q.body == opts.body && q.useConfig == opts.useConfig
              && q.timeout == (if TruthyNumber(opts.timeout) then opts.timeout else config.timeout)
              && q.cache == (if opts.cache.Some? then opts.cache else config.cache)
              && q.forcedRefresh == (if opts.forcedRefresh.Some? then opts.forcedRefresh else config.forcedRefresh)
              && q.requestOptions.withCredentials == config.withCredentials
              && r.value.call == DoRequest(q)
    ensures r.Success? && ToLower(opts.verb.value) == "get" ==>
              var config := GetConfig(configs, ConfigName(opts.useConfig));
              var q := r.value.request;
              && q.url == Some(EncodedUrl(Located(opts, config), config.tokenFieldName, token, opts.paramsArray, encodeURI))
              && q.requestOptions.params == []
    ensures r.Success? && ToLower(opts.verb.value) != "get" ==>
              var config := GetConfig(configs, ConfigName(opts.useConfig));
              var q := r.value.request;
              && q.url == Located(opts, config)
              && q.requestOptions.params == NonGetParams(config.tokenFieldName, token, opts.paramsArray)
  {
    var config := GetConfig(configs, ConfigName(opts.useConfig));
    // `config[subject]` throws unless an explicit URL short-circuits it
    if !HasUrlSource(opts, config) {
      return Failure(MissingRoute);
    }
    var url := Located(opts, config);
    var timeout := if TruthyNumber(opts.timeout) then opts.timeout else config.timeout;
    var cache := if opts.cache.Some? then opts.cache else config.cache;
    var forcedRefresh := if opts.forcedRefresh.Some? then opts.forcedRefresh else config.forcedRefresh;

    if opts.verb.None? {
      return Failure(MissingMethod);
    }
    var verb := opts.verb.value;
    var httpParams: HttpParams := [];
    if ToLower(verb) == "get" {
      var encoded := EncodeUrl(url, opts.paramsArray, config, token, encodeURI);
      url := Some(encoded);
    } else {
      if TruthyText(token) {
        httpParams := Set(httpParams, Show(config.tokenFieldName, Undefined), token.value);
      }
      for i := 0 to |opts.paramsArray|
        invariant httpParams == SetEach(TokenParams(config.tokenFieldName, token), opts.paramsArray[..i])
      {
        var item := opts.paramsArray[i];
        httpParams := Set(httpParams, item.key, ScalarToString(item.val));
        assert opts.paramsArray[..i + 1][..i] == opts.paramsArray[..i];
      }
      assert opts.paramsArray[..|opts.paramsArray|] == opts.paramsArray;
    }

    var request := ResolvedRequest(url, verb, opts.requestPoint, opts.body, timeout, cache, forcedRefresh,
                                   opts.useConfig, TransportOptions(config.withCredentials, httpParams));
    return Success(Prepared(request, DoRequest(request)));
  }

  // ---------------------------------------------------------------- encodeURL

  /** `url.replace(/\+/g, '%2B')`. */
  function ReplacePlus(s: string): (r: string)
    ensures '+' !in r
    ensures '+' !in s ==> r == s
  {
    if s == [] then []
    else (if s[0] == '+' then "%2B" else [s[0]]) + ReplacePlus(s[1..])
  }

  /** `${url}?${config.tokenFieldName}=${token}` (a missing token renders as `null`). */
  function QueryHead(url: Option<string>, tokenFieldName: Option<string>, token: Option<string>): string
  {
    Show(url, Undefined) + "?" + Show(tokenFieldName, Undefined) + "=" + Show(token, Null)
  }

  /** `&` followed by `encodeURI(`${key}=${val}`)`. */
  function EncodedPair(item: QueryParam, encodeURI: string -> string): string
  {
    "&" + encodeURI(item.key + "=" + ScalarToString(item.val))
  }

  function EncodedPairs(items: seq<QueryParam>, encodeURI: string -> string): string
  {
    if items == [] then ""
    else EncodedPairs(items[..|items| - 1], encodeURI) + EncodedPair(items[|items| - 1], encodeURI)
  }

  /** The URL of a GET: token first, then every pair in order, then every `+` rewritten. */
  function EncodedUrl(url: Option<string>, tokenFieldName: Option<string>, token: Option<string>,
                      items: seq<QueryParam>, encodeURI: string -> string): string
  {
    ReplacePlus(QueryHead(url, tokenFieldName, token) + EncodedPairs(items, encodeURI))
  }

  /** `encodeURL`: builds the query string pair by pair and escapes `+` at the end. */
  method EncodeUrl(url: Option<string>, paramsArray: seq<QueryParam>, config: ApiConfig, token: Option<string>,
                   encodeURI: string -> string)
    returns (r: string)
    ensures r == EncodedUrl(url, config.tokenFieldName, token, paramsArray, encodeURI)
    ensures '+' !in r
  {
    var u := QueryHead(url, config.tokenFieldName, token);
    for i := 0 to |paramsArray|
      invariant u == QueryHead(url, config.tokenFieldName, token) + EncodedPairs(paramsArray[..i], encodeURI)
    {
      var param := encodeURI(paramsArray[i].key + "=" + ScalarToString(paramsArray[i].val));
      u := u + "&" + param;
      assert paramsArray[..i + 1][..i] == paramsArray[..i];
    }
    assert paramsArray[..|paramsArray|] == paramsArray;
    r := ReplacePlus(u);
  }

  /** Escaping `+` works piece by piece. */
  lemma {:induction false} ReplacePlusConcat(a: string, b: string)
    ensures ReplacePlus(a + b) == ReplacePlus(a) + ReplacePlus(b)
    decreases |a|
  {
    if a != [] {
      assert (a + b)[0] == a[0] && (a + b)[1..] == a[1..] + b;
      ReplacePlusConcat(a[1..], b);
    } else {
      assert a + b == b;
    }
  }

  /** A `+` anywhere, in the URL, the token or a parameter value, ends up as `%2B`. */
  lemma PlusBecomesPercent2B(a: string, b: string)
    ensures ReplacePlus(a + "+" + b) == ReplacePlus(a) + "%2B" + ReplacePlus(b)
  {
    ReplacePlusConcat(a + "+", b);
    ReplacePlusConcat(a, "+");
  }

  /** Each further parameter appends its own escaped `&key=val` at the end of the URL. */
  lemma EncodedUrlAppends(url: Option<string>, tokenFieldName: Option<string>, token: Option<string>,
                          items: seq<QueryParam>, item: QueryParam, encodeURI: string -> string)
    ensures EncodedUrl(url, tokenFieldName, token, items + [item], encodeURI) ==
              EncodedUrl(url, tokenFieldName, token, items, encodeURI) + ReplacePlus(EncodedPair(item, encodeURI))
  {
    var head := QueryHead(url, tokenFieldName, token);
    assert (items + [item])[..|items|] == items;
    assert head + EncodedPairs(items + [item], encodeURI) ==
           (head + EncodedPairs(items, encodeURI)) + EncodedPair(item, encodeURI);
    ReplacePlusConcat(head + EncodedPairs(items, encodeURI), EncodedPair(item, encodeURI));
  }

  /** When the URL, field name and token hold no `+`, the GET URL starts with `url?field=token` unchanged. */
  lemma TokenComesFirst(url: Option<string>, tokenFieldName: Option<string>, token: Option<string>,
                        items: seq<QueryParam>, encodeURI: string -> string)
    requires '+' !in QueryHead(url, tokenFieldName, token)
    ensures QueryHead(url, tokenFieldName, token) <= EncodedUrl(url, tokenFieldName, token, items, encodeURI)
  {
    ReplacePlusConcat(QueryHead(url, tokenFieldName, token), EncodedPairs(items, encodeURI));
  }

  // ---------------------------------------------------------------- doRequest

  const Verbs: set<string> := {"get", "post", "put", "patch", "delete"}
  const BodyVerbs: set<string> := {"post", "put", "patch"}

  function Verb(c: HttpCall): string
  {
    match c
    case HttpGet(_, _) => "get"
    case HttpPost(_, _, _) => "post"
    case HttpPut(_, _, _) => "put"
    case HttpPatch(_, _, _) => "patch"
    case HttpDelete(_, _) => "delete"
  }

  predicate CarriesBody(c: HttpCall)
  {
    c.HttpPost? || c.HttpPut? || c.HttpPatch?
  }

  /**
    `doRequest`: one transport call for each of the five verbs, chosen by the
    lower-cased method; only post, put and patch pass the body; any other
    method yields `undefined`.
  */
  function DoRequest(q: ResolvedRequest): (call: Option<HttpCall>)
    ensures call.Some? <==> ToLower(q.verb) in Verbs
    ensures call.Some? ==> Verb(call.value) == ToLower(q.verb)
    ensures call.Some? ==> call.value.url == q.url && call.value.options == q.requestOptions
    ensures call.Some? ==> (CarriesBody(call.value) <==> ToLower(q.verb) in BodyVerbs)
    ensures call.Some? && CarriesBody(call.value) ==> call.value.body == q.body
  {
    var m := ToLower(q.verb);
    if m == "get" then Some(HttpGet(q.url, q.requestOptions))
    else if m == "post" then Some(HttpPost(q.url, q.body, q.requestOptions))
    else if m == "put" then Some(HttpPut(q.url, q.body, q.requestOptions))
    else if m == "patch" then Some(HttpPatch(q.url, q.body, q.requestOptions))
    else if m == "delete" then Some(HttpDelete(q.url, q.requestOptions))
    else None
  }

  /**
    The method names `doRequest` accepts for a verb are exactly that verb
    spelled in any mix of cases.
  */
  lemma DispatchIgnoresCase(q: ResolvedRequest, w: string)
    requires w in Verbs
    ensures (DoRequest(q).Some? && Verb(DoRequest(q).value) == w) <==>
              |q.verb| == |w| && forall i :: 0 <= i < |q.verb| ==> q.verb[i] == w[i] || q.verb[i] == UpperChar(w[i])
  {
    assert NoUpper(w);
    ToLowerMatches(q.verb, w);
  }

  // ---------------------------------------------------------------- cache path

  /** `${baseURL}${q ? "?" + q : ""}`. */
  function WithQuery(baseURL: string, query: string): string
  {
    baseURL + (if query == "" then "" else "?" + query)
  }

  /** The parameters `getKey` serialises as written: each pass deletes from the original, so only the last exclusion survives. */
  function LastExclusionOnly(params: HttpParams, exclude: seq<string>): HttpParams
  {
    if exclude == [] then params else Delete(params, exclude[|exclude| - 1])
  }

  /** `getKey` as written: `cloneParams = params.delete(param)` for each excluded name. */
  method GetKey(baseURL: string, params: HttpParams, exclude: seq<string>, encode: string -> string)
    returns (key: string)
    ensures key == WithQuery(baseURL, Serialize(LastExclusionOnly(params, exclude), encode))
    ensures LastExclusionOnly(params, exclude) == [] ==> key == baseURL
  {
    var cloneParams: Option<HttpParams> := None;
    for i := 0 to |exclude|
      invariant cloneParams == if i == 0 then None else Some(Delete(params, exclude[i - 1]))
    {
      cloneParams := Some(Delete(params, exclude[i]));
    }
    var finallyParams := if cloneParams.Some? then Serialize(cloneParams.value, encode) else Serialize(params, encode);
    key := baseURL + (if finallyParams != "" then "?" + finallyParams else "");
  }

  /** `getKey` with every excluded name removed, each deletion applied to the previous result. */
  method GetKeyExcludingAll(baseURL: string, params: HttpParams, exclude: seq<string>, encode: string -> string)
    returns (key: string)
    ensures key == WithQuery(baseURL, Serialize(DeleteAll(params, exclude), encode))
    ensures DeleteAll(params, exclude) == [] ==> key == baseURL
  {
    var cloneParams := params;
    for i := 0 to |exclude|
      invariant cloneParams == DeleteAll(params, exclude[..i])
    {
      assert exclude[..i + 1][..i] == exclude[..i];
      cloneParams := Delete(cloneParams, exclude[i]);
    }
    assert exclude[..|exclude|] == exclude;
    var finallyParams := Serialize(cloneParams, encode);
    key := baseURL + (if finallyParams != "" then "?" + finallyParams else "");
  }

  /** With at most one excluded name, as the cache path passes, both readings of `getKey` agree. */
  lemma OneExclusionAgrees(params: HttpParams, exclude: seq<string>)
    requires |exclude| <= 1
    ensures LastExclusionOnly(params, exclude) == DeleteAll(params, exclude)
  {
    if |exclude| == 1 {
      assert exclude[..0] == [];
    }
  }

  /** Counterexample: excluding `a` and `b` from `a=1&b=2`, the key as written still carries `a=1`. */
  lemma AsWrittenKeepsEarlierExclusions()
    ensures var params := [Param("a", "1"), Param("b", "2")];
            var exclude := ["a", "b"];
            && Get(LastExclusionOnly(params, exclude), "a") == Some("1")
            && Get(DeleteAll(params, exclude), "a") == None
  {
    var params := [Param("a", "1"), Param("b", "2")];
    var exclude := ["a", "b"];
    assert Delete(params, "b") == [Param("a", "1")];
    DeleteAllLookup(params, exclude, "a");
  }

  /**
    `[config.tokenFieldName]`: the cache path always excludes exactly one name,
    the token field (`undefined` when the configuration has none, the same key
    `request2` set the token under).
  */
  function Exclusions(config: ApiConfig): (ex: seq<string>)
    ensures |ex| == 1
  {
    [Show(config.tokenFieldName, Undefined)]
  }

  /** On the cache path the key as written and the corrected key coincide, since one name is excluded. */
  lemma CachePathUnaffected(q: ResolvedRequest, config: ApiConfig)
    ensures LastExclusionOnly(q.requestOptions.params, Exclusions(config)) ==
              DeleteAll(q.requestOptions.params, Exclusions(config))
  {
    OneExclusionAgrees(q.requestOptions.params, Exclusions(config));
  }

  /**
    The parameter part of the cache key leaves out the token field and keeps
    every other parameter. Only a non-GET request fills that container; a GET
    carries the token in its URL instead (see `GetCacheKeysSeparateTokens`).
  */
  lemma CacheKeyIgnoresToken(q: ResolvedRequest, config: ApiConfig, k: string)
    ensures Get(DeleteAll(q.requestOptions.params, Exclusions(config)), k) ==
              if k == Show(config.tokenFieldName, Undefined) then None else Get(q.requestOptions.params, k)
  {
    DeleteAllLookup(q.requestOptions.params, Exclusions(config), k);
  }

  /**
    The cache key of a resolved request under a configuration: its URL, then
    the query of the parameters left after the exclusion. A request with no
    parameters, as every GET is, is keyed by its URL alone.
  */
  function CacheKey(q: ResolvedRequest, config: ApiConfig, encode: string -> string): (k: string)
    ensures Show(q.url, Undefined) <= k
    ensures q.requestOptions.params == [] ==> k == Show(q.url, Undefined)
  {
    WithQuery(Show(q.url, Undefined), Serialize(DeleteAll(q.requestOptions.params, Exclusions(config)), encode))
  }

  /**
    Two GETs that differ only in their token, neither token holding a `+`,
    get different cache keys: the token sits in the URL (`?field=token`), and
    the exclusion of the token field touches only the empty parameter container.
  */
  lemma GetCacheKeysSeparateTokens(q1: ResolvedRequest, q2: ResolvedRequest, config: ApiConfig,
                                   encode: string -> string, url: Option<string>, t1: string, t2: string,
                                   items: seq<QueryParam>, encodeURI: string -> string)
    requires q1.url == Some(EncodedUrl(url, config.tokenFieldName, Some(t1), items, encodeURI))
    requires q2.url == Some(EncodedUrl(url, config.tokenFieldName, Some(t2), items, encodeURI))
    requires q1.requestOptions.params == [] && q2.requestOptions.params == []
    requires '+' !in t1 && '+' !in t2
    requires t1 != t2
    ensures CacheKey(q1, config, encode) != CacheKey(q2, config, encode)
  {
    var prefix := Show(url, Undefined) + "?" + Show(config.tokenFieldName, Undefined) + "=";
    var pairs := EncodedPairs(items, encodeURI);
    assert QueryHead(url, config.tokenFieldName, Some(t1)) == prefix + t1;
    assert QueryHead(url, config.tokenFieldName, Some(t2)) == prefix + t2;
    ReplacePlusConcat(prefix + t1, pairs);
    ReplacePlusConcat(prefix + t2, pairs);
    ReplacePlusConcat(prefix, t1);
    ReplacePlusConcat(prefix, t2);
    var head := ReplacePlus(prefix);
    var rest := ReplacePlus(pairs);
    var k1 := CacheKey(q1, config, encode);
    var k2 := CacheKey(q2, config, encode);
    assert k1 == head + t1 + rest && k2 == head + t2 + rest;
    assert k1[|head|..|k1| - |rest|] == t1;
    assert k2[|head|..|k2| - |rest|] == t2;
  }

  /**
    The `+` escaping makes a token `+` and a token `%2B` indistinguishable:
    both build the same GET URL, and so the same cache key.
  */
  lemma PlusTokenCollides(url: Option<string>, tokenFieldName: Option<string>, items: seq<QueryParam>,
                          encodeURI: string -> string)
    ensures EncodedUrl(url, tokenFieldName, Some("+"), items, encodeURI) ==
              EncodedUrl(url, tokenFieldName, Some("%2B"), items, encodeURI)
  {
    var prefix := Show(url, Undefined) + "?" + Show(tokenFieldName, Undefined) + "=";
    var pairs := EncodedPairs(items, encodeURI);
    assert QueryHead(url, tokenFieldName, Some("+")) == prefix + "+";
    assert QueryHead(url, tokenFieldName, Some("%2B")) == prefix + "%2B";
    ReplacePlusConcat(prefix + "+", pairs);
    ReplacePlusConcat(prefix + "%2B", pairs);
    ReplacePlusConcat(prefix, "+");
    ReplacePlusConcat(prefix, "%2B");
    assert ReplacePlus("+") == "%2B";
    assert ReplacePlus("%2B") == "%2B";
  }

  /**
    `checkConditionsAndGetCache`: only an explicit `forcedRefresh: false` looks
    in the main store (which evicts a stale entry it finds, whatever the
    method); only a lower-case `'get'` with a fresh entry is answered from it.
  */
  method CheckConditionsAndGetCache<T>(q: ResolvedRequest, configsByName: map<string, ApiConfig>,
                                       main: MemoryStorage<T>, now: int, encode: string -> string)
    returns (r: Result<Option<Entry<T>>, Fault>)
    modifies main
    ensures q.forcedRefresh != Some(false) ==> r == Success(None) && main.cells == old(main.cells)
    ensures q.forcedRefresh == Some(false) && ConfigName(q.useConfig) !in configsByName ==>
              r == Failure(MissingConfig) && main.cells == old(main.cells)
    ensures q.forcedRefresh == Some(false) && ConfigName(q.useConfig) in configsByName ==>
              var key := CacheKey(q, configsByName[ConfigName(q.useConfig)], encode);
              var hit := key in old(main.cells) && Fresh(old(main.cells)[key], now);
              && r == Success(if q.verb == "get" && hit then Some(old(main.cells)[key]) else None)
              && main.cells == if key in old(main.cells) && !hit then old(main.cells) - {key} else old(main.cells)
  {
    if q.forcedRefresh != Some(false) {
      return Success(None);
    }
    var name := ConfigName(q.useConfig);
    if name !in configsByName {
      return Failure(MissingConfig);
    }
    var config := configsByName[name];
    var key := GetKeyExcludingAll(Show(q.url, Undefined), q.requestOptions.params, Exclusions(config), encode);
    // lookInStorage(key): the store registered as 'main'
    var cacheValue := main.Get(key, now);
    if q.verb == "get" && cacheValue.Some? {
      return Success(cacheValue);
    }
    return Success(None);
  }

  // ---------------------------------------------------------------- promise()

  /** How the race between the transport and the timer ends. */
  datatype RaceOutcome<V> = Responded(value: V) | Failed(error: Raw) | TimedOut

  /** How the promise settles for its caller. */
  datatype Settled<V> = Fulfilled(value: V) | Rejected(error: Raw)

  /** An emission of the loading stream. */
  datatype LoadingAction = LoadingAction(state: bool, requestPoint: string)

  /** `requestPoint = 'global'`: the default applies only when the option is absent. */
  function RequestPoint(q: ResolvedRequest): string
  {
    Show(q.requestPoint, DefaultRequestPoint)
  }

  /** `timeout ${timeout} expired`. */
  function TimeoutMessage(timeout: Option<int>): string
  {
    "timeout " + (if timeout.Some? then IntToString(timeout.value) else Undefined) + " expired"
  }

  /**
    `promise()`: loading on before the race, loading off exactly once after it
    on every outcome; a failure or a timeout is classified on the error stream
    and then rethrown unchanged.
  */
  method Promise<V>(q: ResolvedRequest, outcome: RaceOutcome<V>, errors: ErrorsStreamService, msgs: Messages)
    returns (loading: seq<LoadingAction>, settled: Settled<V>)
    modifies errors
    ensures loading == [LoadingAction(true, RequestPoint(q)), LoadingAction(false, RequestPoint(q))]
    ensures outcome.Responded? ==> settled == Fulfilled(outcome.value) && errors.events == old(errors.events)
    ensures outcome.Failed? ==>
              && settled == Rejected(outcome.error)
              && errors.events == old(errors.events) + [ErrorEvent(Classified(outcome.error, msgs), RequestPoint(q))]
    ensures outcome.TimedOut? ==>
              var e := NewTimeoutError(TimeoutMessage(q.timeout));
              && settled == Rejected(e)
              && errors.events == old(errors.events) + [ErrorEvent(Classified(e, msgs), RequestPoint(q))]
  {
    var point := RequestPoint(q);
    loading := [LoadingAction(true, point)];
    var raced: Result<V, Raw> :=
      match outcome
      case Responded(v) => Success(v)
      case Failed(e) => Failure(e)
      case TimedOut => Failure(NewTimeoutError(TimeoutMessage(q.timeout)));
    if raced.Success? {
      loading := loading + [LoadingAction(false, point)];
      return loading, Fulfilled(raced.value);
    }
    loading := loading + [LoadingAction(false, point)];
    errors.DefaultProcessing(raced.error, point, msgs);
    return loading, Rejected(raced.error);
  }
}
