/**
 * The Scribe provider definitions for EVE Online single sign-on: the
 * production provider `EVEApi` and its sandbox subclass `EVETestApi`, which
 * overrides only the authorize template and the token endpoint. The class
 * hierarchy becomes one datatype; inherited methods dispatch on it.
 */
module EveApi {
  import opened Wrappers
  import opened StringFormat
  import opened Strings

  /** The provider class selected for the service. */
  datatype Api = EVEApi | EVETestApi

  /** HTTP verbs as Scribe names them. */
  datatype Verb = GET | POST | PUT | DELETE | HEAD | OPTIONS | TRACE | PATCH

  /**
   * The OAuth configuration handed to the provider. `scope` is absent when
   * no scope was configured; `hasScope()` is `scope.Some?`.
   */
  datatype Config = Config(apiKey: string, apiSecret: string, callback: string, scope: Option<string>)

  predicate HasScope(cfg: Config) {
    cfg.scope.Some?
  }

  const ProductionHost := "login.eveonline.com"
  const SandboxHost := "sisilogin.testeveonline.com"

  const RedirectParam := "&redirect_uri="
  const ScopeParam := "&scope="

  function Host(api: Api): string {
    match api
    case EVEApi => ProductionHost
    case EVETestApi => SandboxHost
  }

  function Origin(api: Api): string {
    "https://" + Host(api)
  }

  /** The authorization endpoint with its fixed query, up to the client ID. */
  function AuthorizePrefix(api: Api): string {
    Origin(api) + "/oauth/authorize/" + "?response_type=code" + "&client_id="
  }

  /**
   * `getAuthorizeURL`: the two-specifier template. Each class spells out its
   * own literal; it is written here split at its host, path, query keys and
   * specifiers, which leaves the text unchanged and lets proofs compare short
   * pieces rather than whole literals.
   */
  function AuthorizeURL(api: Api): string {
    match api
    case EVEApi =>
      "https://" + "login.eveonline.com" + "/oauth/authorize/" + "?response_type=code"
      + "&client_id=" + "%s" + "&redirect_uri=" + "%s"
    case EVETestApi =>
      "https://" + "sisilogin.testeveonline.com" + "/oauth/authorize/" + "?response_type=code"
      + "&client_id=" + "%s" + "&redirect_uri=" + "%s"
  }

  /** `getScopedAuthorizeURL`: inherited by the sandbox, so it extends whichever `getAuthorizeURL` applies. */
  function ScopedAuthorizeURL(api: Api): string {
    AuthorizeURL(api) + "&scope=%s"
  }

  /** `getAccessTokenEndpoint`, split at host and path. */
  function AccessTokenEndpoint(api: Api): string {
    match api
    case EVEApi => "https://" + "login.eveonline.com" + "/oauth/token"
    case EVETestApi => "https://" + "sisilogin.testeveonline.com" + "/oauth/token"
  }

  /** `getAccessTokenVerb`: not overridden by the sandbox. */
  function AccessTokenVerb(api: Api): Verb {
    POST
  }

  /**
   * Both authorize literals are one template over the provider's host: the
   * sandbox differs from production in the host alone, path and query are shared.
   */
  lemma AuthorizeURLShape(api: Api)
    ensures AuthorizeURL(api) == AuthorizePrefix(api) + "%s" + RedirectParam + "%s"
  {
  }

  /** Both token endpoints are `/oauth/token` on the provider's host. */
  lemma AccessTokenEndpointShape(api: Api)
    ensures AccessTokenEndpoint(api) == Origin(api) + "/oauth/token"
  {
  }

  /** Neither host name holds a `%`. */
  lemma HostHasNoPercent(api: Api)
    ensures '%' !in Host(api)
  {
    match api
    case EVEApi => assert '%' !in ProductionHost;
    case EVETestApi => assert '%' !in SandboxHost;
  }

  /** The fixed text around the specifiers holds no `%` of its own. */
  lemma FixedTextHasNoPercent(api: Api)
    ensures '%' !in AuthorizePrefix(api) && '%' !in RedirectParam && '%' !in ScopeParam
  {
    HostHasNoPercent(api);
    assert '%' !in "https://";
    assert '%' !in "/oauth/authorize/";
    assert '%' !in "?response_type=code";
    assert '%' !in "&client_id=";
  }

  /** The authorize prefix is the origin followed by the shared path and fixed query. */
  lemma PathFollowsOrigin(api: Api)
    ensures AuthorizePrefix(api) == Origin(api) + ("/oauth/authorize/" + "?response_type=code" + "&client_id=")
  {
    var o := Origin(api);
    AppendAssociative(o, "/oauth/authorize/" + "?response_type=code", "&client_id=");
    AppendAssociative(o, "/oauth/authorize/", "?response_type=code");
  }

  /** Formatting each authorize template with two arguments is the plain concatenation. */
  lemma AuthorizeTemplateFormats(api: Api, a: string, b: string)
    ensures Format(AuthorizeURL(api), [a, b]) == Some(AuthorizePrefix(api) + a + RedirectParam + b)
  {
    AuthorizeURLShape(api);
    FixedTextHasNoPercent(api);
    FormatTwoSlots(AuthorizePrefix(api), RedirectParam, a, b);
  }

  /** Formatting each scoped template with three arguments is the plain concatenation. */
  lemma ScopedTemplateFormats(api: Api, a: string, b: string, c: string)
    ensures Format(ScopedAuthorizeURL(api), [a, b, c])
         == Some(AuthorizePrefix(api) + a + RedirectParam + b + ScopeParam + c)
  {
    AuthorizeURLShape(api);
    FixedTextHasNoPercent(api);
    assert "&scope=%s" == ScopeParam + "%s";
    AppendAssociative(AuthorizeURL(api), ScopeParam, "%s");
    FormatThreeSlots(AuthorizePrefix(api), RedirectParam, ScopeParam, a, b, c);
  }

  /** The two-specifier template is not satisfied by one argument: `String.format` would throw. */
  lemma AuthorizeTemplateNeedsTwoArguments(api: Api, a: string)
    ensures Format(AuthorizeURL(api), [a]).None?
  {
    AuthorizeURLShape(api);
    FixedTextHasNoPercent(api);
    AppendAssociative(AuthorizePrefix(api) + "%s", RedirectParam, "%s");
    FormatPieceThen(AuthorizePrefix(api), RedirectParam + "%s", [a]);
    assert [a][1..] == [];
    FormatLiteralThen(RedirectParam, "%s", []);
    FormatSlotWithoutArgument("");
    assert "%s" + "" == "%s";
  }

  /** The scoped template is not satisfied by two arguments. */
  lemma ScopedTemplateNeedsThreeArguments(api: Api, a: string, b: string)
    ensures Format(ScopedAuthorizeURL(api), [a, b]).None?
  {
    var p := AuthorizePrefix(api);
    AuthorizeURLShape(api);
    FixedTextHasNoPercent(api);
    assert "&scope=%s" == ScopeParam + "%s";
    AppendAssociative(AuthorizeURL(api), ScopeParam, "%s");
    assert ScopedAuthorizeURL(api) == p + "%s" + (RedirectParam + "%s" + (ScopeParam + "%s"));
    FormatPieceThen(p, RedirectParam + "%s" + (ScopeParam + "%s"), [a, b]);
    assert [a, b][1..] == [b];
    FormatPieceThen(RedirectParam, ScopeParam + "%s", [b]);
    assert [b][1..] == [];
    FormatLiteralThen(ScopeParam, "%s", []);
    FormatSlotWithoutArgument("");
    assert "%s" + "" == "%s";
  }

  /**
   * `getAuthorizationUrl`: the scoped template with (API key, encoded
   * callback, encoded scope) when a scope is configured, otherwise the plain
   * template with (API key, encoded callback). `encode` is OAuthEncoder.encode.
   */
  function AuthorizationUrl(api: Api, cfg: Config, encode: string -> string): (r: string)
    ensures !HasScope(cfg) ==> r == AuthorizePrefix(api) + cfg.apiKey + RedirectParam + encode(cfg.callback)
    ensures HasScope(cfg) ==> r == AuthorizePrefix(api) + cfg.apiKey + RedirectParam + encode(cfg.callback)
                                   + ScopeParam + encode(cfg.scope.value)
  {
    if HasScope(cfg) then
      var args := [cfg.apiKey, encode(cfg.callback), encode(cfg.scope.value)];
      ScopedTemplateFormats(api, args[0], args[1], args[2]);
      Format(ScopedAuthorizeURL(api), args).value
    else
      var args := [cfg.apiKey, encode(cfg.callback)];
      AuthorizeTemplateFormats(api, args[0], args[1]);
      Format(AuthorizeURL(api), args).value
  }

  /** The query after `client_id=`: the raw key, the encoded callback and, if configured, the encoded scope. */
  function Query(cfg: Config, encode: string -> string): string {
    cfg.apiKey + RedirectParam + encode(cfg.callback)
    + (if HasScope(cfg) then ScopeParam + encode(cfg.scope.value) else "")
  }

  /** Every authorization URL is the provider's prefix followed by a query that does not depend on the provider. */
  lemma AuthorizationUrlSplits(api: Api, cfg: Config, encode: string -> string)
    ensures AuthorizationUrl(api, cfg, encode) == AuthorizePrefix(api) + Query(cfg, encode)
  {
    var p := AuthorizePrefix(api);
    if HasScope(cfg) {
      Regroup6(p, cfg.apiKey, RedirectParam, encode(cfg.callback), ScopeParam, encode(cfg.scope.value));
    } else {
      Regroup4(p, cfg.apiKey, RedirectParam, encode(cfg.callback));
    }
  }

  /** Every authorization URL begins with the provider's authorize endpoint and fixed query. */
  lemma AuthorizationUrlStartsWithPrefix(api: Api, cfg: Config, encode: string -> string)
    ensures AuthorizePrefix(api) <= AuthorizationUrl(api, cfg, encode)
  {
    AuthorizationUrlSplits(api, cfg, encode);
    PrefixOfAppend(AuthorizePrefix(api), Query(cfg, encode));
  }

  /** Without a scope, the production URL is the fixed prefix, the raw API key and the encoded callback. */
  lemma ProductionUrlWithoutScope(cfg: Config, encode: string -> string)
    requires !HasScope(cfg)
    ensures AuthorizationUrl(EVEApi, cfg, encode)
         == "https://" + "login.eveonline.com" + "/oauth/authorize/" + "?response_type=code" + "&client_id="
            + cfg.apiKey + "&redirect_uri=" + encode(cfg.callback)
  {
  }

  /** Configuring a scope appends exactly `&scope=` and the encoded scope to the unscoped URL. */
  lemma ScopeAppendsParameter(api: Api, cfg: Config, scope: string, encode: string -> string)
    ensures AuthorizationUrl(api, cfg.(scope := Some(scope)), encode)
         == AuthorizationUrl(api, cfg.(scope := None), encode) + "&scope=" + encode(scope)
  {
  }

  /**
   * The sandbox URL is the production URL with its origin replaced: path,
   * query, and argument handling are inherited unchanged.
   */
  lemma SandboxSwapsOrigin(cfg: Config, encode: string -> string)
    ensures |Origin(EVEApi)| <= |AuthorizationUrl(EVEApi, cfg, encode)|
    ensures AuthorizationUrl(EVETestApi, cfg, encode)
         == Origin(EVETestApi) + AuthorizationUrl(EVEApi, cfg, encode)[|Origin(EVEApi)|..]
  {
    var query := Query(cfg, encode);
    var path := "/oauth/authorize/" + "?response_type=code" + "&client_id=";
    AuthorizationUrlSplits(EVEApi, cfg, encode);
    AuthorizationUrlSplits(EVETestApi, cfg, encode);
    PathFollowsOrigin(EVEApi);
    PathFollowsOrigin(EVETestApi);
    AppendAssociative(Origin(EVEApi), path, query);
    AppendAssociative(Origin(EVETestApi), path, query);
    DropPrefix(Origin(EVEApi), path + query);
  }

  /** Through the inherited `getScopedAuthorizeURL`, the sandbox's scoped template is its own template plus `&scope=%s`. */
  lemma SandboxScopedTemplate()
    ensures ScopedAuthorizeURL(EVETestApi)
         == "https://" + "sisilogin.testeveonline.com" + "/oauth/authorize/" + "?response_type=code"
            + "&client_id=" + "%s" + "&redirect_uri=" + "%s" + "&scope=%s"
  {
  }

  /** The sandbox overrides the two URLs only: the token verb stays POST and both token endpoints sit on their host. */
  lemma SandboxOverridesOnlyHosts()
    ensures AccessTokenVerb(EVETestApi) == AccessTokenVerb(EVEApi) == POST
    ensures AccessTokenEndpoint(EVEApi) == "https://" + "login.eveonline.com" + "/oauth/token"
    ensures AccessTokenEndpoint(EVETestApi) == "https://" + "sisilogin.testeveonline.com" + "/oauth/token"
  {
    AccessTokenEndpointShape(EVEApi);
    AccessTokenEndpointShape(EVETestApi);
  }
}
