/**
 * The sign-in servlet `EVESSOAuthorizationHandler`. Its `doGet` parses the
 * request URL, asks Scribe for the provider's authorization URL and
 * redirects there; if building the service or the URL throws, it redirects
 * back to the request's own protocol, host and port with an `auth_error`
 * parameter instead. The servlet I/O is reduced to the one redirect target.
 */
module AuthorizationHandler {
  import opened Wrappers
  import opened Strings
  import opened Decimal
  import opened EveApi

  /** The callback registered with the EVE application. */
  const CallbackURL := "https://youreveapp.com/eve_sso_cb"

  /** `getClientID` and `getSecretKey`: placeholder credentials. */
  const ClientID := "your EVE APP client ID"
  const SecretKey := "your EVE APP secret key"

  /** `getApiClass`: the production provider is selected. */
  const ApiClass := EVEApi

  /** The configuration the servlet's ServiceBuilder hands to the provider; no scope is set. */
  const ServiceConfig := Config(ClientID, SecretKey, CallbackURL, None)

  /** The parts of the request URL (`java.net.URL`); `port` is -1 when the URL names none. */
  datatype SourceUrl = SourceUrl(protocol: string, host: string, port: int, path: string, query: string)

  /** What `doGet` does: send one redirect, or let an exception escape to the servlet container. */
  datatype Response = Redirect(location: string) | Raised(exception: string)

  const ErrorPrefix := "Error while attempting EVE authentication ("
  const ErrorSuffix := ").  Please retry.  If the problem perists, please contact the site admin."

  /** The human-readable message; `exceptionText` is the exception's `toString()`. */
  function ErrorMessage(exceptionText: string): string {
    ErrorPrefix + exceptionText + ErrorSuffix
  }

  /** The message determines the exception text: it sits between the fixed prefix and suffix. */
  lemma ErrorMessageCarriesException(exceptionText: string)
    ensures |ErrorMessage(exceptionText)| == |ErrorPrefix| + |exceptionText| + |ErrorSuffix|
    ensures ErrorMessage(exceptionText)[|ErrorPrefix|..|ErrorPrefix| + |exceptionText|] == exceptionText
  {
    var m := ErrorMessage(exceptionText);
    assert m[..|ErrorPrefix| + |exceptionText|] == ErrorPrefix + exceptionText;
  }

  /** `":" + port` when the port is positive, nothing otherwise. */
  function PortPart(port: int): (r: string)
    ensures port <= 0 ==> r == ""
    ensures port > 0 ==> |r| >= 2 && r[0] == ':' && AllDigits(r[1..]) && DecimalValue(r[1..]) == port
  {
    if port > 0 then
      DecimalRoundTrip(port);
      assert (":" + NatToDecimal(port))[1..] == NatToDecimal(port);
      ":" + NatToDecimal(port)
    else ""
  }

  /**
   * The error redirect: protocol, host and optional port of the request,
   * then `/?auth_error=` and the URL-encoded message. `urlEncode` is
   * `URLEncoder.encode(_, "UTF-8")`.
   */
  function ErrorRedirectUrl(source: SourceUrl, exceptionText: string, urlEncode: string -> string): (r: string)
    ensures source.protocol + "://" + source.host <= r
    ensures var m := urlEncode(ErrorMessage(exceptionText)); |m| <= |r| && r[|r| - |m|..] == m
  {
    var origin := source.protocol + "://" + source.host;
    var m := urlEncode(ErrorMessage(exceptionText));
    var rest := PortPart(source.port) + "/?auth_error=" + m;
    assert origin + PortPart(source.port) + "/?auth_error=" + m == origin + rest;
    PrefixOfAppend(origin, rest);
    DropPrefix(origin + PortPart(source.port) + "/?auth_error=", m);
    origin + PortPart(source.port) + "/?auth_error=" + urlEncode(ErrorMessage(exceptionText))
  }

  /**
   * `doGet`. `requestUrl` is the outcome of `new URL(req.getRequestURL())`,
   * taken before the `try`; `authorize` stands for building the Scribe
   * service from the provider and configuration and asking it for the
   * authorization URL, which may throw.
   */
  function DoGet(requestUrl: Result<SourceUrl>, authorize: (Api, Config) -> Result<string>,
                 urlEncode: string -> string): (r: Response)
    ensures requestUrl.Failure? <==> r.Raised?
    ensures requestUrl.Failure? ==> r.exception == requestUrl.error
    ensures requestUrl.Success? && authorize(ApiClass, ServiceConfig).Success?
            ==> r.location == authorize(ApiClass, ServiceConfig).value
    ensures requestUrl.Success? && authorize(ApiClass, ServiceConfig).Failure?
            ==> r.location == ErrorRedirectUrl(requestUrl.value, authorize(ApiClass, ServiceConfig).error, urlEncode)
  {
    match requestUrl
    case Failure(e) => Raised(e)
    case Success(source) =>
      match authorize(ApiClass, ServiceConfig)
      case Success(url) => Redirect(url)
      case Failure(e) => Redirect(ErrorRedirectUrl(source, e, urlEncode))
  }

  /** An absent port (-1) and port 0 are both left out of the error redirect. */
  lemma NonPositivePortOmitted(source: SourceUrl, exceptionText: string, urlEncode: string -> string)
    requires source.port <= 0
    ensures ErrorRedirectUrl(source, exceptionText, urlEncode)
         == source.protocol + "://" + source.host + "/?auth_error=" + urlEncode(ErrorMessage(exceptionText))
  {
    assert PortPart(source.port) == "";
  }

  /** A positive port is written after a colon, in decimal without leading zeros, and reads back as the port. */
  lemma PositivePortIncluded(source: SourceUrl, exceptionText: string, urlEncode: string -> string)
    requires source.port > 0
    ensures ErrorRedirectUrl(source, exceptionText, urlEncode)
         == source.protocol + "://" + source.host + ":" + NatToDecimal(source.port)
            + "/?auth_error=" + urlEncode(ErrorMessage(exceptionText))
    ensures DecimalValue(NatToDecimal(source.port)) == source.port
    ensures NatToDecimal(source.port)[0] != '0'
  {
    DecimalRoundTrip(source.port);
    AppendAssociative(source.protocol + "://" + source.host, ":", NatToDecimal(source.port));
  }

  /** Only protocol, host and port survive: the request's path and query do not affect the error redirect. */
  lemma PathAndQueryDropped(source: SourceUrl, path: string, query: string, exceptionText: string,
                            urlEncode: string -> string)
    ensures ErrorRedirectUrl(source.(path := path, query := query), exceptionText, urlEncode)
         == ErrorRedirectUrl(source, exceptionText, urlEncode)
  {
  }

  /** Digit strings followed by a `/` can be told apart at the slash. */
  lemma {:induction false} DigitsBeforeSlash(a: string, b: string, x: string, y: string)
    requires AllDigits(a) && AllDigits(b)
    requires |x| > 0 && |y| > 0 && x[0] == '/' && y[0] == '/'
    requires a + x == b + y
    ensures a == b
    decreases |a|
  {
    if |a| > 0 && |b| > 0 {
      assert a[0] == (a + x)[0] == (b + y)[0] == b[0];
      assert (a + x)[1..] == a[1..] + x;
      assert (b + y)[1..] == b[1..] + y;
      DigitsBeforeSlash(a[1..], b[1..], x, y);
      assert a == [a[0]] + a[1..];
      assert b == [b[0]] + b[1..];
    } else if |a| != |b| {
      HeadOfAppend(a, x);
      HeadOfAppend(b, y);
      assert false;
    }
  }

  /** The error redirect records a positive port faithfully: two different ports give two different URLs. */
  lemma ErrorRedirectDeterminesPort(source: SourceUrl, port: int, exceptionText: string, urlEncode: string -> string)
    requires source.port > 0 && port > 0
    requires ErrorRedirectUrl(source.(port := port), exceptionText, urlEncode)
          == ErrorRedirectUrl(source, exceptionText, urlEncode)
    ensures port == source.port
  {
    var origin := source.protocol + "://" + source.host;
    var tail := "/?auth_error=" + urlEncode(ErrorMessage(exceptionText));
    var d1, d2 := NatToDecimal(port), NatToDecimal(source.port);
    Regroup5(origin, ":", d1, "/?auth_error=", urlEncode(ErrorMessage(exceptionText)));
    Regroup5(origin, ":", d2, "/?auth_error=", urlEncode(ErrorMessage(exceptionText)));
    DropPrefix(origin + ":", d1 + tail);
    DropPrefix(origin + ":", d2 + tail);
    assert tail[0] == '/';
    DigitsBeforeSlash(d1, d2, tail, tail);
    NatToDecimalInjective(port, source.port);
  }

  /**
   * With the EVE provider behind the service, a parseable request is sent to
   * the production authorize URL carrying the placeholder client ID and the
   * encoded fixed callback, and no scope.
   */
  lemma SignInRedirectsToEve(source: SourceUrl, oauthEncode: string -> string, urlEncode: string -> string)
    ensures DoGet(Success(source), (api, cfg) => Success(AuthorizationUrl(api, cfg, oauthEncode)), urlEncode)
         == Redirect("https://" + "login.eveonline.com" + "/oauth/authorize/" + "?response_type=code" + "&client_id="
                     + ClientID + "&redirect_uri=" + oauthEncode(CallbackURL))
  {
    ProductionUrlWithoutScope(ServiceConfig, oauthEncode);
  }
}
