/**
 * The request pipeline of the REST client: the Authorization header, the
 * configuration handed to the transport, and what happens to the caller's
 * promise and to the browser's session state when a request fails.
 *
 * The transport (axios with its cache adapter) is a parameter: a function
 * from the final request configuration to what the dispatch produced.
 * Cookies, localStorage, the module-level `refreshTokenPromise` and the
 * window's navigations are explicit state.
 */
module Rest {
  import opened Wrappers
  import opened Json
  import opened Errors

  type Config = map<string, JsValue>

  const TokenName: string := "accessToken"
  const TokenRefreshName: string := "refreshToken"
  const DefaultPath: string := "/"
  const BearerPrefix: string := "Bearer "

  /** `commonRestConfig`: the base address and the request timeout. */
  const CommonRestConfig: Config :=
    map["baseURL" := JsString("http://localhost:8000"), "timeout" := JsNumber(120000)]

  /** The cache presets callers choose per endpoint; `maxAge` in milliseconds. */
  const FrequentlyChanged: JsValue := JsObject(map["maxAge" := JsNumber(60 * 1000)])
  const InfrequentlyChanged: JsValue := JsObject(map["maxAge" := JsNumber(60 * 60 * 1000)])

  /** The keys the merge itself writes over whatever the caller supplied. */
  const Reserved: set<string> := {"headers", "cache", "data", "method", "url"}

  /** What awaiting the refresh handle would give: it never settles, fulfils, or rejects. */
  datatype RefreshPromise =
    | NeverSettles
    | FulfilledWith(value: JsValue)
    | RejectedWith(reason: JsValue)

  /** The browser state a request reads and changes. */
  datatype Session = Session(
    cookies: map<string, string>,
    localStorage: map<string, string>,
    refreshTokenPromise: Option<RefreshPromise>,
    redirects: seq<string>)

  /** What the caller's promise does: resolves, rejects, or never settles. */
  datatype Settlement<T> = Resolved(value: T) | Rejected(error: ErrorObject) | Unsettled

  /** What dispatching a request produced. */
  datatype Dispatch = Responded(response: Response) | Failed(failure: RawFailure)

  type Transport = Config -> Dispatch

  /**
   * `getAuthHeader()`: "Bearer " followed by the access token cookie when that
   * cookie is set and non-empty, and "" otherwise.
   */
  function AuthHeader(cookies: map<string, string>): (h: string)
    ensures h != "" <==> TokenName in cookies && cookies[TokenName] != ""
    ensures h != "" ==> |h| >= |BearerPrefix| && h[..|BearerPrefix|] == BearerPrefix && h[|BearerPrefix|..] == cookies[TokenName]
  {
    if TokenName in cookies && cookies[TokenName] != "" then BearerPrefix + cookies[TokenName] else ""
  }

  /** The default value of `requestApi`'s `config` parameter, used when the caller passes none. */
  function DefaultConfig(auth: string): (r: Config)
    ensures r.Keys == {"headers"} && Spread(r["headers"]).Keys == {"Authorization"}
    ensures Field(r["headers"], "Authorization") == JsString(auth)
  {
    map["headers" := JsObject(map["Authorization" := JsString(auth)])]
  }

  /** The exclude options of the merged cache options: the default filter, then the caller's fields. */
  function ExcludeOptions(cache: JsValue): map<string, JsValue> {
    map["filter" := JsConstFunction(JsBool(!Truthy(cache)))] +
    (if Truthy(cache) then Spread(Field(cache, "exclude")) else map[])
  }

  /** The filter of a merged configuration's `cache.exclude`. */
  function ExcludeFilter(config: Config): JsValue {
    Field(Field(Get(config, "cache"), "exclude"), "filter")
  }

  /**
   * The configuration `requestApi` hands to the transport: `commonRestConfig`,
   * overridden by the caller's configuration, overridden by the fresh
   * Authorization header, the cache options with their exclude filter, and the
   * data, method and url of the call.
   */
  function MergeConfig(config: Config, auth: string, data: JsValue, verb: string, url: string): (r: Config)
    ensures r.Keys == CommonRestConfig.Keys + config.Keys + Reserved
    ensures forall k :: k in config && k !in Reserved ==> r[k] == config[k]
    ensures forall k :: k in CommonRestConfig && k !in config && k !in Reserved ==> r[k] == CommonRestConfig[k]
    ensures r["data"] == data && r["method"] == JsString(verb) && r["url"] == JsString(url)
    ensures Field(r["headers"], "Authorization") == JsString(auth)
  {
    CommonRestConfig + config + Overrides(config, auth, data, verb, url)
  }

  /**
   * Precedence in the merged configuration: the caller's fields override
   * `commonRestConfig`; headers, cache options, data, method and url are
   * written last; the Authorization header is always the fresh one and the
   * caller's other headers and cache options are kept.
   */
  lemma MergePrecedence(config: Config, auth: string, data: JsValue, verb: string, url: string)
    ensures var r := MergeConfig(config, auth, data, verb, url);
      var headers := Spread(Get(config, "headers"));
      var cache := Spread(Get(config, "cache"));
      && r.Keys == CommonRestConfig.Keys + config.Keys + Reserved
      && (forall k :: k in config && k !in Reserved ==> r[k] == config[k])
      && (forall k :: k in CommonRestConfig && k !in config && k !in Reserved ==> r[k] == CommonRestConfig[k])
      && r["data"] == data && r["method"] == JsString(verb) && r["url"] == JsString(url)
      && r["headers"].JsObject? && r["headers"].fields.Keys == headers.Keys + {"Authorization"}
      && r["headers"].fields["Authorization"] == JsString(auth)
      && (forall k :: k in headers && k != "Authorization" ==> r["headers"].fields[k] == headers[k])
      && r["cache"].JsObject? && r["cache"].fields.Keys == cache.Keys + {"exclude"}
      && (forall k :: k in cache && k != "exclude" ==> r["cache"].fields[k] == cache[k])
  {
  }

  /** The five properties the merge writes last: headers, cache, data, method and url. */
  function Overrides(config: Config, auth: string, data: JsValue, verb: string, url: string): (r: Config)
    ensures r.Keys == Reserved
  {
    var cache := Get(config, "cache");
    var headers := JsObject(Spread(Get(config, "headers"))["Authorization" := JsString(auth)]);
    var cacheOptions := JsObject(Spread(cache)["exclude" := JsObject(ExcludeOptions(cache))]);
    map["headers" := headers, "cache" := cacheOptions, "data" := data,
        "method" := JsString(verb), "url" := JsString(url)]
  }

  /** Properties written later win: an earlier layer whose keys are all overwritten again disappears. */
  lemma OverwrittenLayer(base: Config, layer: Config, earlier: Config, later: Config)
    requires earlier.Keys <= later.Keys
    ensures base + (layer + earlier) + later == base + layer + later
  {
    var a := base + (layer + earlier) + later;
    var b := base + layer + later;
    assert a.Keys == b.Keys;
    forall k | k in a ensures a[k] == b[k] {
    }
  }

  /**
   * The configuration the transport receives for a call made in session `s`:
   * the caller's configuration, or the default one when there is none, merged
   * with the session's Authorization header.
   */
  function RequestConfig(s: Session, verb: string, url: string, data: JsValue, config: Option<Config>): (r: Config)
    ensures Reserved <= r.Keys
    ensures Field(r["headers"], "Authorization") == JsString(AuthHeader(s.cookies))
    ensures r["data"] == data && r["method"] == JsString(verb) && r["url"] == JsString(url)
    ensures config.Some? ==> config.value.Keys <= r.Keys
    ensures config.Some? ==> forall k :: k in config.value && k !in Reserved ==> r[k] == config.value[k]
    ensures config.None? ==> r == MergeConfig(map[], AuthHeader(s.cookies), data, verb, url)
  {
    var auth := AuthHeader(s.cookies);
    if config.None? then
      OmittedConfigIsEmpty(auth, data, verb, url);
      MergeConfig(DefaultConfig(auth), auth, data, verb, url)
    else
      MergeConfig(config.value, auth, data, verb, url)
  }

  /**
   * Without a `cache` option the default filter excludes the request from the
   * cache; with one it does not. Fields of the caller's `cache.exclude`
   * override the default filter.
   */
  lemma ExcludeFilterChoice(config: Config, auth: string, data: JsValue, verb: string, url: string)
    ensures var r := MergeConfig(config, auth, data, verb, url);
      var cache := Get(config, "cache");
      var callerExclude := if Truthy(cache) then Spread(Field(cache, "exclude")) else map[];
      && ExcludeFilter(r) == (if "filter" in callerExclude then callerExclude["filter"]
                              else JsConstFunction(JsBool(!Truthy(cache))))
      && forall k :: k in callerExclude ==> Field(Field(r["cache"], "exclude"), k) == callerExclude[k]
  {
  }

  /** A request made with a cache preset is not excluded by default and carries the preset's `maxAge`. */
  lemma CachePresetsAreCached(config: Config, auth: string, data: JsValue, verb: string, url: string)
    requires Get(config, "cache") in {FrequentlyChanged, InfrequentlyChanged}
    ensures var r := MergeConfig(config, auth, data, verb, url);
      && ExcludeFilter(r) == JsConstFunction(JsBool(false))
      && Field(r["cache"], "maxAge") == Field(Get(config, "cache"), "maxAge")
  {
  }

  /** Passing no configuration is the same as passing `{}`. */
  lemma OmittedConfigIsEmpty(auth: string, data: JsValue, verb: string, url: string)
    ensures MergeConfig(DefaultConfig(auth), auth, data, verb, url) == MergeConfig(map[], auth, data, verb, url)
  {
    var o := Overrides(map[], auth, data, verb, url);
    var authOnly := map["Authorization" := JsString(auth)];
    assert Get(DefaultConfig(auth), "cache") == Get(map[], "cache");
    assert Spread(Get(DefaultConfig(auth), "headers"))["Authorization" := JsString(auth)] == authOnly;
    assert Spread(Get(map[], "headers"))["Authorization" := JsString(auth)] == authOnly;
    assert Overrides(DefaultConfig(auth), auth, data, verb, url) == o;
    OverwrittenLayer(CommonRestConfig, map[], DefaultConfig(auth), o);
    assert map[] + DefaultConfig(auth) == DefaultConfig(auth);
    assert CommonRestConfig + map[] == CommonRestConfig;
  }

  /**
   * Merging an already merged configuration again, as the replay after a token
   * refresh does, changes only the Authorization header.
   */
  lemma {:induction false} RemergeOnlyRefreshesAuthorization(
    config: Config, oldAuth: string, newAuth: string, data: JsValue, verb: string, url: string)
    ensures MergeConfig(MergeConfig(config, oldAuth, data, verb, url), newAuth, data, verb, url)
         == MergeConfig(config, newAuth, data, verb, url)
  {
    var first := MergeConfig(config, oldAuth, data, verb, url);
    var earlier := Overrides(config, oldAuth, data, verb, url);
    var later := Overrides(config, newAuth, data, verb, url);
    RemergedOverrides(config, oldAuth, newAuth, data, verb, url);
    assert MergeConfig(first, newAuth, data, verb, url) == CommonRestConfig + first + later;
    OverwrittenLayer(CommonRestConfig, CommonRestConfig + config, earlier, later);
    AbsorbedBase(CommonRestConfig, config);
  }

  /** The overrides computed from a merged configuration are those computed from the original. */
  lemma RemergedOverrides(config: Config, oldAuth: string, newAuth: string, data: JsValue, verb: string, url: string)
    ensures Overrides(MergeConfig(config, oldAuth, data, verb, url), newAuth, data, verb, url)
         == Overrides(config, newAuth, data, verb, url)
  {
    var first := MergeConfig(config, oldAuth, data, verb, url);
    var cache := Get(config, "cache");
    assert Get(first, "cache") == JsObject(Spread(cache)["exclude" := JsObject(ExcludeOptions(cache))]);
    RemergedCache(cache);
    var headers := Spread(Get(config, "headers"));
    assert Spread(Get(first, "headers")) == headers["Authorization" := JsString(oldAuth)];
    assert headers["Authorization" := JsString(oldAuth)]["Authorization" := JsString(newAuth)]
        == headers["Authorization" := JsString(newAuth)];
  }

  /** Merging the merged cache options again gives the same cache options. */
  lemma RemergedCache(cache: JsValue)
    ensures var merged := JsObject(Spread(cache)["exclude" := JsObject(ExcludeOptions(cache))]);
      && ExcludeOptions(merged) == ExcludeOptions(cache)
      && Spread(merged)["exclude" := JsObject(ExcludeOptions(merged))] == Spread(merged)
  {
    var merged := JsObject(Spread(cache)["exclude" := JsObject(ExcludeOptions(cache))]);
    assert Spread(Field(merged, "exclude")) == ExcludeOptions(cache);
  }

  /** Merging a map over itself first changes nothing. */
  lemma AbsorbedBase(base: Config, config: Config)
    ensures base + (base + config) == base + config
  {
  }

  /** Removes `keys` from localStorage and from the cookies. */
  function ForgetTokens(s: Session, keys: set<string>): Session {
    s.(cookies := s.cookies - keys, localStorage := s.localStorage - keys)
  }

  /** Records one navigation to `url`. */
  function Redirected(s: Session, url: string): Session {
    s.(redirects := s.redirects + [url])
  }

  /** The value `Cookies.set` stores for `v`: a string as it is, any other value converted by `String`. */
  function CookieValue(v: JsValue): (r: string)
    ensures v.JsString? ==> r == v.s
    ensures v.JsNumber? && v.n >= 0 ==> r == Decimal(v.n)
  {
    ToJsString(v)
  }

  /** How far a session can still recurse: a replay happens only while a refresh handle is held. */
  function ReplayBudget(s: Session): nat {
    if s.refreshTokenPromise.Some? then 1 else 0
  }

  /**
   * What one request may do to the session: navigate at most once, to the
   * default path; drop the refresh handle but never store a new one; remove
   * no cookie or localStorage entry except the two tokens; and add or change
   * no cookie but the access token.
   */
  predicate AllowedStep(s: Session, s': Session) {
    && (s'.redirects == s.redirects || s'.redirects == s.redirects + [DefaultPath])
    && (s'.refreshTokenPromise == s.refreshTokenPromise || s'.refreshTokenPromise.None?)
    && s'.localStorage.Keys <= s.localStorage.Keys
    && (forall k :: k in s'.localStorage ==> s'.localStorage[k] == s.localStorage[k])
    && (forall k :: k in s.localStorage && k != TokenName && k != TokenRefreshName ==> k in s'.localStorage)
    && s'.cookies.Keys <= s.cookies.Keys + {TokenName}
    && (forall k :: k in s'.cookies && k != TokenName ==> s'.cookies[k] == s.cookies[k])
    && (forall k :: k in s.cookies && k != TokenName && k != TokenRefreshName ==> k in s'.cookies)
  }

  /**
   * `requestApi(method, url, data, config)`: the new session state and what
   * the returned promise does.
   *
   * A request rejects only with a normalised error; it redirects at most once,
   * always to the default path; it never stores a new refresh handle; it
   * removes no cookie or localStorage entry except the two tokens; and the only
   * cookie it can add or change is the access token.
   */
  function Request(s: Session, transport: Transport, verb: string, url: string, data: JsValue,
                   config: Option<Config>): (r: (Session, Settlement<Response>))
    decreases ReplayBudget(s), 2
    ensures r.1.Rejected? ==> "error" in r.1.error && r.1.error["error"] == JsBool(true)
    ensures AllowedStep(s, r.0)
  {
    var requestConfig := RequestConfig(s, verb, url, data, config);
    match transport(requestConfig)
    case Responded(response) => (s, Resolved(response))
    case Failed(failure) => HandleFailure(s, transport, verb, url, data, requestConfig, ErrorWrapper(failure))
  }

  /**
   * The switch on the normalised error's `httpCode`: 401 ends the session,
   * 406 consults the refresh handle, anything else rejects.
   */
  function HandleFailure(s: Session, transport: Transport, verb: string, url: string, data: JsValue,
                         requestConfig: Config, wrappedError: ErrorObject): (r: (Session, Settlement<Response>))
    requires "error" in wrappedError && wrappedError["error"] == JsBool(true)
    decreases ReplayBudget(s), 1
    ensures r.1.Rejected? ==> "error" in r.1.error && r.1.error["error"] == JsBool(true)
    ensures AllowedStep(s, r.0)
  {
    var httpCode := Get(wrappedError, "httpCode");
    if httpCode == JsNumber(401) then
      (Redirected(ForgetTokens(s, {TokenName, TokenRefreshName}), DefaultPath), Unsettled)
    else if httpCode == JsNumber(406) then
      match s.refreshTokenPromise
      case None => (Redirected(ForgetTokens(s, {TokenName, TokenRefreshName}), DefaultPath), Unsettled)
      case Some(NeverSettles) => (s, Unsettled)
      case Some(RejectedWith(_)) => (RefreshFailed(s), Unsettled)
      case Some(FulfilledWith(response)) =>
        AfterRefresh(s, transport, verb, url, data, requestConfig, wrappedError, response)
    else
      (s, Rejected(wrappedError))
  }

  /**
   * After the refresh handle fulfilled with `response`: store the new access
   * token and replay, or reject when there is no token.
   */
  function AfterRefresh(s: Session, transport: Transport, verb: string, url: string, data: JsValue,
                        requestConfig: Config, wrappedError: ErrorObject, response: JsValue)
    : (r: (Session, Settlement<Response>))
    requires "error" in wrappedError && wrappedError["error"] == JsBool(true)
    requires s.refreshTokenPromise.Some?
    decreases ReplayBudget(s), 0
    ensures r.1.Rejected? ==> "error" in r.1.error && r.1.error["error"] == JsBool(true)
    ensures AllowedStep(s, r.0)
  {
    if response.JsUndefined? || response.JsNull? then
      // Reading `response.data` throws, which lands in the same catch block.
      (RefreshFailed(s), Unsettled)
    else
      var refreshed := Field(response, "data");
      if Truthy(refreshed) && Truthy(Field(refreshed, TokenName)) then
        var s' := s.(cookies := s.cookies[TokenName := CookieValue(Field(refreshed, TokenName))],
                     refreshTokenPromise := None);
        Request(s', transport, verb, url, data, Some(requestConfig))
      else
        (s, Rejected(wrappedError))
  }

  /** The catch block of the refresh: drop the handle and the access token, go to the default path. */
  function RefreshFailed(s: Session): (r: Session)
    ensures r.refreshTokenPromise.None?
    ensures r.cookies == s.cookies - {TokenName} && r.localStorage == s.localStorage - {TokenName}
    ensures r.redirects == s.redirects + [DefaultPath]
  {
    Redirected(ForgetTokens(s.(refreshTokenPromise := None), {TokenName}), DefaultPath)
  }

  /** The `httpCode` of the error a failed dispatch is normalised to. */
  function FailureCode(transport: Transport, config: Config): JsValue {
    match transport(config)
    case Responded(_) => JsUndefined
    case Failed(failure) => Get(ErrorWrapper(failure), "httpCode")
  }

  /** A successful dispatch resolves with the response and leaves the session untouched. */
  lemma SuccessResolves(s: Session, transport: Transport, verb: string, url: string, data: JsValue,
                        config: Option<Config>)
    requires transport(RequestConfig(s, verb, url, data, config)).Responded?
    ensures Request(s, transport, verb, url, data, config)
         == (s, Resolved(transport(RequestConfig(s, verb, url, data, config)).response))
  {
  }

  /**
   * On 401 both tokens leave localStorage and the cookies, one navigation to
   * the default path is recorded, the handle is untouched, and the promise
   * never settles.
   */
  lemma UnauthorizedEndsSession(s: Session, transport: Transport, verb: string, url: string, data: JsValue,
                                config: Option<Config>)
    requires FailureCode(transport, RequestConfig(s, verb, url, data, config)) == JsNumber(401)
    ensures var r := Request(s, transport, verb, url, data, config);
      && r.1 == Unsettled
      && r.0.cookies == s.cookies - {TokenName, TokenRefreshName}
      && r.0.localStorage == s.localStorage - {TokenName, TokenRefreshName}
      && r.0.refreshTokenPromise == s.refreshTokenPromise
      && r.0.redirects == s.redirects + [DefaultPath]
  {
    var first := RequestConfig(s, verb, url, data, config);
    var wrappedError := FailedRequestIsHandled(s, transport, verb, url, data, config);
    assert HandleFailure(s, transport, verb, url, data, first, wrappedError)
        == (Redirected(ForgetTokens(s, {TokenName, TokenRefreshName}), DefaultPath), Unsettled);
  }

  /**
   * On 406 with no refresh handle the session ends exactly as on 401, and the
   * handle stays empty: no refresh is started.
   */
  lemma NotAcceptableWithoutHandle(s: Session, transport: Transport, verb: string, url: string, data: JsValue,
                                   config: Option<Config>)
    requires FailureCode(transport, RequestConfig(s, verb, url, data, config)) == JsNumber(406)
    requires s.refreshTokenPromise.None?
    ensures var r := Request(s, transport, verb, url, data, config);
      && r.1 == Unsettled
      && r.0.cookies == s.cookies - {TokenName, TokenRefreshName}
      && r.0.localStorage == s.localStorage - {TokenName, TokenRefreshName}
      && r.0.refreshTokenPromise.None?
      && r.0.redirects == s.redirects + [DefaultPath]
  {
    var first := RequestConfig(s, verb, url, data, config);
    var wrappedError := FailedRequestIsHandled(s, transport, verb, url, data, config);
    assert HandleFailure(s, transport, verb, url, data, first, wrappedError)
        == (Redirected(ForgetTokens(s, {TokenName, TokenRefreshName}), DefaultPath), Unsettled);
  }

  /**
   * On 406 with a handle whose result carries an access token: that token is
   * stored in its cookie, the handle is dropped, and the promise follows the
   * replay of the same request, whose configuration differs from the first
   * only in its Authorization header.
   */
  lemma NotAcceptableRefreshed(s: Session, transport: Transport, verb: string, url: string, data: JsValue,
                               config: Option<Config>, response: JsValue)
    requires FailureCode(transport, RequestConfig(s, verb, url, data, config)) == JsNumber(406)
    requires s.refreshTokenPromise == Some(FulfilledWith(response))
    requires Truthy(Field(response, "data")) && Truthy(Field(Field(response, "data"), TokenName))
    ensures var token := CookieValue(Field(Field(response, "data"), TokenName));
      var s' := s.(cookies := s.cookies[TokenName := token], refreshTokenPromise := None);
      var first := RequestConfig(s, verb, url, data, config);
      && Request(s, transport, verb, url, data, config) == Request(s', transport, verb, url, data, Some(first))
      && RequestConfig(s', verb, url, data, Some(first))
         == MergeConfig(config.GetOr(DefaultConfig(AuthHeader(s.cookies))), AuthHeader(s'.cookies), data, verb, url)
  {
    var token := CookieValue(Field(Field(response, "data"), TokenName));
    var s' := s.(cookies := s.cookies[TokenName := token], refreshTokenPromise := None);
    NotAcceptableReplays(s, transport, verb, url, data, config, response);
    var auth := AuthHeader(s.cookies);
    RemergeOnlyRefreshesAuthorization(config.GetOr(DefaultConfig(auth)), auth, AuthHeader(s'.cookies), data, verb, url);
  }

  /** The first half of `NotAcceptableRefreshed`: the request becomes the replay in the refreshed session. */
  lemma NotAcceptableReplays(s: Session, transport: Transport, verb: string, url: string, data: JsValue,
                             config: Option<Config>, response: JsValue)
    requires FailureCode(transport, RequestConfig(s, verb, url, data, config)) == JsNumber(406)
    requires s.refreshTokenPromise == Some(FulfilledWith(response))
    requires Truthy(Field(response, "data")) && Truthy(Field(Field(response, "data"), TokenName))
    ensures var token := CookieValue(Field(Field(response, "data"), TokenName));
      var s' := s.(cookies := s.cookies[TokenName := token], refreshTokenPromise := None);
      Request(s, transport, verb, url, data, config)
      == Request(s', transport, verb, url, data, Some(RequestConfig(s, verb, url, data, config)))
  {
    var first := RequestConfig(s, verb, url, data, config);
    var wrappedError := FailedRequestIsHandled(s, transport, verb, url, data, config);
    NotAcceptableConsultsHandle(s, transport, verb, url, data, first, wrappedError, response);
    RefreshedTokenReplays(s, transport, verb, url, data, first, wrappedError, response);
  }

  /** A dispatch that fails goes to the `httpCode` switch with its normalised error. */
  lemma FailedRequestIsHandled(s: Session, transport: Transport, verb: string, url: string, data: JsValue,
                               config: Option<Config>)
    returns (wrappedError: ErrorObject)
    requires transport(RequestConfig(s, verb, url, data, config)).Failed?
    ensures wrappedError == ErrorWrapper(transport(RequestConfig(s, verb, url, data, config)).failure)
    ensures "error" in wrappedError && wrappedError["error"] == JsBool(true)
    ensures Request(s, transport, verb, url, data, config)
         == HandleFailure(s, transport, verb, url, data, RequestConfig(s, verb, url, data, config), wrappedError)
  {
    wrappedError := ErrorWrapper(transport(RequestConfig(s, verb, url, data, config)).failure);
  }

  /** On 406 with a fulfilled handle the switch goes on to the refresh outcome. */
  lemma NotAcceptableConsultsHandle(s: Session, transport: Transport, verb: string, url: string, data: JsValue,
                                    requestConfig: Config, wrappedError: ErrorObject, response: JsValue)
    requires "error" in wrappedError && wrappedError["error"] == JsBool(true)
    requires Get(wrappedError, "httpCode") == JsNumber(406)
    requires s.refreshTokenPromise == Some(FulfilledWith(response))
    ensures HandleFailure(s, transport, verb, url, data, requestConfig, wrappedError)
         == AfterRefresh(s, transport, verb, url, data, requestConfig, wrappedError, response)
  {
  }

  /** A refresh result carrying an access token stores it, drops the handle and replays the request. */
  lemma RefreshedTokenReplays(s: Session, transport: Transport, verb: string, url: string, data: JsValue,
                              requestConfig: Config, wrappedError: ErrorObject, response: JsValue)
    requires "error" in wrappedError && wrappedError["error"] == JsBool(true)
    requires s.refreshTokenPromise.Some?
    requires Truthy(Field(response, "data")) && Truthy(Field(Field(response, "data"), TokenName))
    ensures var token := CookieValue(Field(Field(response, "data"), TokenName));
      var s' := s.(cookies := s.cookies[TokenName := token], refreshTokenPromise := None);
      AfterRefresh(s, transport, verb, url, data, requestConfig, wrappedError, response)
      == Request(s', transport, verb, url, data, Some(requestConfig))
  {
    assert response.JsObject?;
  }

  /**
   * On 406 with a handle whose result carries no access token the request is
   * rejected with its normalised error and the session is untouched.
   */
  lemma NotAcceptableWithoutToken(s: Session, transport: Transport, verb: string, url: string, data: JsValue,
                                  config: Option<Config>, response: JsValue)
    requires FailureCode(transport, RequestConfig(s, verb, url, data, config)) == JsNumber(406)
    requires s.refreshTokenPromise == Some(FulfilledWith(response))
    requires !response.JsUndefined? && !response.JsNull?
    requires !(Truthy(Field(response, "data")) && Truthy(Field(Field(response, "data"), TokenName)))
    ensures Request(s, transport, verb, url, data, config)
         == (s, Rejected(ErrorWrapper(transport(RequestConfig(s, verb, url, data, config)).failure)))
  {
    var first := RequestConfig(s, verb, url, data, config);
    var wrappedError := FailedRequestIsHandled(s, transport, verb, url, data, config);
    NotAcceptableConsultsHandle(s, transport, verb, url, data, first, wrappedError, response);
    assert AfterRefresh(s, transport, verb, url, data, first, wrappedError, response) == (s, Rejected(wrappedError));
  }

  /**
   * On 406 with a handle that rejects: the handle is dropped, only the access
   * token is removed, one navigation is recorded, and the promise never settles.
   */
  lemma NotAcceptableRefreshRejected(s: Session, transport: Transport, verb: string, url: string, data: JsValue,
                                     config: Option<Config>, reason: JsValue)
    requires FailureCode(transport, RequestConfig(s, verb, url, data, config)) == JsNumber(406)
    requires s.refreshTokenPromise == Some(RejectedWith(reason))
    ensures var r := Request(s, transport, verb, url, data, config);
      && r.1 == Unsettled
      && r.0.cookies == s.cookies - {TokenName}
      && r.0.localStorage == s.localStorage - {TokenName}
      && r.0.refreshTokenPromise.None?
      && r.0.redirects == s.redirects + [DefaultPath]
  {
    var first := RequestConfig(s, verb, url, data, config);
    var wrappedError := FailedRequestIsHandled(s, transport, verb, url, data, config);
    RejectedHandleEndsRefresh(s, transport, verb, url, data, first, wrappedError, reason);
  }

  /** On 406 with a rejected handle the switch ends in the refresh catch block. */
  lemma RejectedHandleEndsRefresh(s: Session, transport: Transport, verb: string, url: string, data: JsValue,
                                  requestConfig: Config, wrappedError: ErrorObject, reason: JsValue)
    requires "error" in wrappedError && wrappedError["error"] == JsBool(true)
    requires Get(wrappedError, "httpCode") == JsNumber(406)
    requires s.refreshTokenPromise == Some(RejectedWith(reason))
    ensures HandleFailure(s, transport, verb, url, data, requestConfig, wrappedError) == (RefreshFailed(s), Unsettled)
  {
  }

  /** Any other failure rejects with the normalised error; nothing else changes. */
  lemma OtherFailureRejects(s: Session, transport: Transport, verb: string, url: string, data: JsValue,
                            config: Option<Config>)
    requires transport(RequestConfig(s, verb, url, data, config)).Failed?
    requires FailureCode(transport, RequestConfig(s, verb, url, data, config)) !in {JsNumber(401), JsNumber(406)}
    ensures Request(s, transport, verb, url, data, config)
         == (s, Rejected(ErrorWrapper(transport(RequestConfig(s, verb, url, data, config)).failure)))
  {
  }

  /**
   * At most one replay: with no refresh handle held, the transport is asked
   * once, and the result depends only on that one dispatch.
   */
  lemma NoHandleNoReplay(s: Session, t1: Transport, t2: Transport, verb: string, url: string, data: JsValue,
                         config: Option<Config>)
    requires s.refreshTokenPromise.None?
    requires t1(RequestConfig(s, verb, url, data, config)) == t2(RequestConfig(s, verb, url, data, config))
    ensures Request(s, t1, verb, url, data, config) == Request(s, t2, verb, url, data, config)
  {
  }

  /** What a verb wrapper's promise does: the response's body, or the same rejection. */
  function BodyOf(outcome: Settlement<Response>): (r: Settlement<JsValue>)
    ensures outcome.Resolved? <==> r.Resolved?
    ensures outcome.Resolved? ==> r.value == outcome.value.data
    ensures outcome.Rejected? <==> r.Rejected?
    ensures outcome.Rejected? ==> r.error == outcome.error
  {
    match outcome
    case Resolved(response) => Resolved(response.data)
    case Rejected(e) => Rejected(e)
    case Unsettled => Unsettled
  }

  /** The `data` argument each verb wrapper passes: `{}` for GET, `null` for DELETE, the body otherwise. */
  function VerbData(verb: string, body: JsValue): (d: JsValue)
    requires verb in {"get", "post", "put", "delete"}
    ensures verb == "get" ==> d == JsObject(map[])
    ensures verb == "delete" ==> d == JsNull
    ensures verb in {"post", "put"} ==> d == body
  {
    if verb == "get" then JsObject(map[]) else if verb == "delete" then JsNull else body
  }

  /**
   * The REST client together with the browser state it touches. The fields
   * stand for the cookie jar, localStorage, the module-level
   * `refreshTokenPromise` and the log of `window.location.assign` calls.
   */
  class RestClient {
    const transport: Transport
    var cookies: map<string, string>
    var localStorage: map<string, string>
    var refreshTokenPromise: Option<RefreshPromise>
    var redirects: seq<string>

    /** A client over `transport` in the browser state `session`. */
    constructor (transport: Transport, session: Session)
      ensures this.transport == transport && State() == session
    {
      this.transport := transport;
      cookies := session.cookies;
      localStorage := session.localStorage;
      refreshTokenPromise := session.refreshTokenPromise;
      redirects := session.redirects;
    }

    /** The browser state as a value. */
    function State(): Session
      reads this
    {
      Session(cookies, localStorage, refreshTokenPromise, redirects)
    }

    /** The `forEach` over the token names: each leaves localStorage and then the cookies. */
    method RemoveTokens(keys: seq<string>)
      modifies this
      ensures State() == ForgetTokens(old(State()), set k | k in keys)
    {
      for i := 0 to |keys|
        invariant localStorage == old(localStorage) - set k | k in keys[..i]
        invariant cookies == old(cookies) - set k | k in keys[..i]
        invariant refreshTokenPromise == old(refreshTokenPromise) && redirects == old(redirects)
      {
        assert keys[..i + 1] == keys[..i] + [keys[i]];
        localStorage := localStorage - {keys[i]};
        cookies := cookies - {keys[i]};
      }
      assert keys[..|keys|] == keys;
    }

    /** `redirect(url)`. */
    method Redirect(url: string)
      modifies this
      ensures State() == Redirected(old(State()), url)
    {
      redirects := redirects + [url];
    }

    /** `requestApi`: dispatches the merged configuration and handles a failure. */
    method RequestApi(verb: string, url: string, data: JsValue, config: Option<Config>)
      returns (outcome: Settlement<Response>)
      modifies this
      decreases ReplayBudget(State()), 2
      ensures (State(), outcome) == Request(old(State()), transport, verb, url, data, config)
    {
      var auth := AuthHeader(cookies);
      var requestConfig := MergeConfig(if config.Some? then config.value else DefaultConfig(auth), auth, data, verb, url);
      var dispatched := transport(requestConfig);
      if dispatched.Responded? {
        outcome := Resolved(dispatched.response);
        return;
      }
      var wrappedError := ErrorWrapper(dispatched.failure);
      outcome := OnFailure(verb, url, data, requestConfig, wrappedError);
    }

    /** The `switch (wrappedError.httpCode)` of `requestApi`. */
    method OnFailure(verb: string, url: string, data: JsValue, requestConfig: Config, wrappedError: ErrorObject)
      returns (outcome: Settlement<Response>)
      requires "error" in wrappedError && wrappedError["error"] == JsBool(true)
      modifies this
      decreases ReplayBudget(State()), 1
      ensures (State(), outcome)
           == HandleFailure(old(State()), transport, verb, url, data, requestConfig, wrappedError)
    {
      var httpCode := Json.Get(wrappedError, "httpCode");
      if httpCode == JsNumber(401) {
        RemoveTokens([TokenName, TokenRefreshName]);
        assert (set k | k in [TokenName, TokenRefreshName]) == {TokenName, TokenRefreshName};
        Redirect(DefaultPath);
        outcome := Unsettled;
      } else if httpCode == JsNumber(406) {
        if refreshTokenPromise.None? {
          RemoveTokens([TokenName, TokenRefreshName]);
          assert (set k | k in [TokenName, TokenRefreshName]) == {TokenName, TokenRefreshName};
          Redirect(DefaultPath);
          outcome := Unsettled;
          return;
        }
        match refreshTokenPromise.value {
          case NeverSettles =>
            outcome := Unsettled;
          case RejectedWith(_) =>
            OnRefreshFailed();
            outcome := Unsettled;
          case FulfilledWith(response) =>
            outcome := OnRefreshed(verb, url, data, requestConfig, wrappedError, response);
        }
      } else {
        outcome := Rejected(wrappedError);
      }
    }

    /** After awaiting a handle that fulfilled with `response`: store the new token and replay, or reject. */
    method OnRefreshed(verb: string, url: string, data: JsValue, requestConfig: Config, wrappedError: ErrorObject,
                       response: JsValue)
      returns (outcome: Settlement<Response>)
      requires "error" in wrappedError && wrappedError["error"] == JsBool(true)
      requires refreshTokenPromise.Some?
      modifies this
      decreases ReplayBudget(State()), 0
      ensures (State(), outcome)
           == AfterRefresh(old(State()), transport, verb, url, data, requestConfig, wrappedError, response)
    {
      if response.JsUndefined? || response.JsNull? {
        OnRefreshFailed();
        outcome := Unsettled;
      } else {
        var refreshed := Field(response, "data");
        if Truthy(refreshed) && Truthy(Field(refreshed, TokenName)) {
          cookies := cookies[TokenName := CookieValue(Field(refreshed, TokenName))];
          refreshTokenPromise := None;
          outcome := RequestApi(verb, url, data, Some(requestConfig));
        } else {
          outcome := Rejected(wrappedError);
        }
      }
    }

    /** The catch block after awaiting the refresh handle. */
    method OnRefreshFailed()
      modifies this
      ensures State() == RefreshFailed(old(State()))
    {
      refreshTokenPromise := None;
      localStorage := localStorage - {TokenName};
      cookies := cookies - {TokenName};
      Redirect(DefaultPath);
    }

    /** `get(url, config)`: requests with `{}` as data and gives the response body. */
    method Get(url: string, config: Option<Config>) returns (outcome: Settlement<JsValue>)
      modifies this
      ensures var r := Request(old(State()), transport, "get", url, VerbData("get", JsUndefined), config);
        State() == r.0 && outcome == BodyOf(r.1)
    {
      var response := RequestApi("get", url, JsObject(map[]), config);
      outcome := BodyOf(response);
    }

    /** `post(url, data, config)`. */
    method Post(url: string, data: JsValue, config: Option<Config>) returns (outcome: Settlement<JsValue>)
      modifies this
      ensures var r := Request(old(State()), transport, "post", url, VerbData("post", data), config);
        State() == r.0 && outcome == BodyOf(r.1)
    {
      var response := RequestApi("post", url, data, config);
      outcome := BodyOf(response);
    }

    /** `put(url, data, config)`. */
    method Put(url: string, data: JsValue, config: Option<Config>) returns (outcome: Settlement<JsValue>)
      modifies this
      ensures var r := Request(old(State()), transport, "put", url, VerbData("put", data), config);
        State() == r.0 && outcome == BodyOf(r.1)
    {
      var response := RequestApi("put", url, data, config);
      outcome := BodyOf(response);
    }

    /** `del(url, config)`: requests with `null` as data. */
    method Del(url: string, config: Option<Config>) returns (outcome: Settlement<JsValue>)
      modifies this
      ensures var r := Request(old(State()), transport, "delete", url, VerbData("delete", JsUndefined), config);
        State() == r.0 && outcome == BodyOf(r.1)
    {
      var response := RequestApi("delete", url, JsNull, config);
      outcome := BodyOf(response);
    }
  }
}
