# EVE Online single sign-on sample, modelled in Dafny

This project models the string logic in the EVE Online single sign-on example. It uses Scribe, an OAuth library for Java. The example follows the authorization-code grant of OAuth 2.0 (section 4.1.1 of RFC 6749). Three computations are modelled:

- **Authorization URL** (`EVEApi`, `EVETestApi`). The provider fills a constant template's `%s` slots, in order, with:
  - the client ID, inserted raw;
  - the OAuth-encoded callback;
  - when a scope is configured, the OAuth-encoded scope.

  The sandbox provider `EVETestApi` overrides only the authorize template and the token endpoint. The inherited scoped template is built from whichever authorize template applies. The token verb is POST.
- **Sign-in redirect** (`EVESSOAuthorizationHandler.doGet`). On success the handler redirects to the provider's authorization URL. If building the service or the URL throws, it redirects back to the request's protocol, host and optional port, with a URL-encoded `auth_error` message. A failure to parse the request URL happens before the `try`, so it escapes as an exception.
- **Character-name scrape** (`EVESSOCallbackHandler.doGet`). After the token exchange and a successful verify request, the handler searches the response body for the leftmost match of `"CharacterName":\s*"(\S*?)"`. It yields group 1 of that match, or `"ERROR"` when nothing matches.

Modules:
- `Wrappers`: `Option` and `Result`.
- `Strings`: concatenation facts over arbitrary strings.
- `StringFormat`: the `%s` and `%%` subset of `String.format` that the templates use.
- `EveApi`: both providers as one datatype `Api`. Inherited methods dispatch on it.
- `Decimal`: the decimal spelling of a positive port.
- `AuthorizationHandler` and `CallbackHandler`: the two servlets.

The servlets and providers have no mutable state and no loops. Everything is modelled as functions and lemmas.

Three places where the code differs from what a reader might expect. The model follows the code in each:
- A two-word name such as `{"CharacterName": "Jane Doe"}` is not extracted; the scrape yields `"ERROR"`. The lazy `\S*?` meets the space before any closing quote.
- The sign-in handler does not turn every failure into a redirect. A malformed request URL (line 40) raises before the `try`.
- The scope is added when `hasScope()` holds, not when the scope is non-empty. The model reads `hasScope()` as "a scope is present", so in the model a configured empty scope still produces `&scope=`.

## Model

| member | source | states |
|---|---|---|
| StringFormat.Format | eve_sso/java/org/scribe/builder/api/EVEApi.java:40-42 | `String.format` over `%s` and `%%`, failing on a missing argument or another conversion; its meaning is stated by the `Format*` lemmas below |
| StringFormat.FormatDefined | eve_sso/java/org/scribe/builder/api/EVEApi.java:40-42 | `String.format` succeeds exactly when every `%` begins `%s` or `%%` and there is an argument for every `%s` |
| StringFormat.FormatLiteralThen | eve_sso/java/org/scribe/builder/api/EVEApi.java:40-42 | text without `%` is copied unchanged and uses up no argument |
| StringFormat.FormatSlotThen | eve_sso/java/org/scribe/builder/api/EVEApi.java:40-42 | a `%s` is replaced by the next argument verbatim, and the remaining arguments serve the rest |
| StringFormat.FormatSlotWithoutArgument | eve_sso/java/org/scribe/builder/api/EVEApi.java:40-42 | a `%s` with no argument left makes formatting fail |
| StringFormat.FormatIgnoresExtraArgs | eve_sso/java/org/scribe/builder/api/EVEApi.java:40-42 | arguments beyond the last `%s` do not change the output |
| StringFormat.FormatPieceThen | eve_sso/java/org/scribe/builder/api/EVEApi.java:40-42 | `%`-free text then `%s` yields the text, then the first argument, then the rest formatted with the other arguments |
| StringFormat.FormatTwoSlots | eve_sso/java/org/scribe/builder/api/EVEApi.java:42 | a two-slot template of `%`-free pieces, formatted with two arguments, is the pieces and arguments interleaved in order |
| StringFormat.FormatThreeSlots | eve_sso/java/org/scribe/builder/api/EVEApi.java:40 | the same for three slots and three arguments |
| EveApi.AuthorizeURL | eve_sso/java/org/scribe/builder/api/EVEApi.java:12-14 | `getAuthorizeURL` of both providers (the sandbox override is at EVETestApi.java:5-8); its layout is stated by `AuthorizeURLShape` |
| EveApi.ScopedAuthorizeURL | eve_sso/java/org/scribe/builder/api/EVEApi.java:16-18 | `getScopedAuthorizeURL`, inherited by the sandbox: the applicable authorize template followed by `&scope=%s`; see `ScopedTemplateFormats` and `SandboxScopedTemplate` |
| EveApi.AccessTokenEndpoint | eve_sso/java/org/scribe/builder/api/EVEApi.java:20-23 | `getAccessTokenEndpoint` of both providers (the sandbox override is at EVETestApi.java:10-13); stated by `AccessTokenEndpointShape` and `SandboxOverridesOnlyHosts` |
| EveApi.AccessTokenVerb | eve_sso/java/org/scribe/builder/api/EVEApi.java:25-28 | `getAccessTokenVerb`: POST, not overridden by the sandbox; stated by `SandboxOverridesOnlyHosts` |
| EveApi.AuthorizeURLShape | eve_sso/java/org/scribe/builder/api/EVEApi.java:12-14 | each provider's authorize template is its `https` origin, `/oauth/authorize/?response_type=code&client_id=`, a slot, `&redirect_uri=`, and a slot |
| EveApi.AccessTokenEndpointShape | eve_sso/java/org/scribe/builder/api/EVEApi.java:20-23 | each token endpoint is the provider's origin followed by `/oauth/token` |
| EveApi.FixedTextHasNoPercent | eve_sso/java/org/scribe/builder/api/EVEApi.java:13 | the fixed text of the templates contains no `%`, so only the slots consume arguments |
| EveApi.PathFollowsOrigin | eve_sso/java/org/scribe/builder/api/EVEApi.java:13 | the authorize prefix is the origin followed by a path and fixed query that both providers share |
| EveApi.AuthorizeTemplateFormats | eve_sso/java/org/scribe/builder/api/EVEApi.java:42 | formatting the two-slot template with (key, callback) puts the key after `client_id=` and the callback after `&redirect_uri=` |
| EveApi.ScopedTemplateFormats | eve_sso/java/org/scribe/builder/api/EVEApi.java:40 | formatting the scoped template with (key, callback, scope) also puts the scope after `&scope=` |
| EveApi.AuthorizeTemplateNeedsTwoArguments | eve_sso/java/org/scribe/builder/api/EVEApi.java:12-14 | the two-slot template formatted with only one argument fails |
| EveApi.ScopedTemplateNeedsThreeArguments | eve_sso/java/org/scribe/builder/api/EVEApi.java:16-18 | the scoped template formatted with only two arguments fails |
| EveApi.AuthorizationUrl | eve_sso/java/org/scribe/builder/api/EVEApi.java:36-44 | without a scope: the prefix, the raw API key, `&redirect_uri=`, the encoded callback; with a scope: additionally `&scope=` and the encoded scope |
| EveApi.AuthorizationUrlSplits | eve_sso/java/org/scribe/builder/api/EVEApi.java:39-43 | every authorization URL is the provider's prefix followed by a query that does not depend on the provider |
| EveApi.AuthorizationUrlStartsWithPrefix | eve_sso/java/org/scribe/builder/api/EVEApi.java:13 | every authorization URL begins with the authorize endpoint and `?response_type=code&client_id=` |
| EveApi.ProductionUrlWithoutScope | eve_sso/java/org/scribe/builder/api/EVEApi.java:41-42 | without a scope, the production URL is `https://login.eveonline.com/oauth/authorize/?response_type=code&client_id=` + key + `&redirect_uri=` + encoded callback |
| EveApi.ScopeAppendsParameter | eve_sso/java/org/scribe/builder/api/EVEApi.java:39-42 | configuring a scope appends exactly `&scope=` and the encoded scope to the unscoped URL |
| EveApi.SandboxSwapsOrigin | eve_sso/java/org/scribe/builder/api/EVETestApi.java:5-8 | the sandbox URL is the production URL with its origin replaced; path, query and arguments are unchanged |
| EveApi.SandboxScopedTemplate | eve_sso/java/org/scribe/builder/api/EVETestApi.java:6-8 | through the inherited scoped getter, the sandbox's scoped template is the sandbox template followed by `&scope=%s` |
| EveApi.SandboxOverridesOnlyHosts | eve_sso/java/org/scribe/builder/api/EVETestApi.java:3-15 | both providers use POST for the token request; the token endpoints are `/oauth/token` on each provider's host |
| Decimal.NatToDecimal | eve_sso/java/org/evekit/examples/sso/EVESSOAuthorizationHandler.java:55 | the decimal spelling of a number is non-empty, made only of digits, and has a leading zero only for 0 |
| Decimal.DecimalRoundTrip | eve_sso/java/org/evekit/examples/sso/EVESSOAuthorizationHandler.java:55 | reading the decimal spelling back gives the number |
| Decimal.NatToDecimalInjective | eve_sso/java/org/evekit/examples/sso/EVESSOAuthorizationHandler.java:55 | different numbers have different spellings |
| AuthorizationHandler.ErrorMessage | eve_sso/java/org/evekit/examples/sso/EVESSOAuthorizationHandler.java:57 | the human-readable error message around the exception text; stated by `ErrorMessageCarriesException` |
| AuthorizationHandler.ErrorMessageCarriesException | eve_sso/java/org/evekit/examples/sso/EVESSOAuthorizationHandler.java:57 | the error message is the fixed prefix, the exception text and the fixed suffix, so the exception text can be recovered from it |
| AuthorizationHandler.PortPart | eve_sso/java/org/evekit/examples/sso/EVESSOAuthorizationHandler.java:55 | empty for a port <= 0; otherwise a colon followed by digits that read back as the port |
| AuthorizationHandler.ErrorRedirectUrl | eve_sso/java/org/evekit/examples/sso/EVESSOAuthorizationHandler.java:52-58 | the error redirect starts with `protocol://host` and ends with the URL-encoded error message |
| AuthorizationHandler.DoGet | eve_sso/java/org/evekit/examples/sso/EVESSOAuthorizationHandler.java:39-60 | a request-URL failure escapes unchanged; otherwise exactly one redirect, to the authorization URL when it is built, or to the error URL carrying the exception when building throws |
| AuthorizationHandler.NonPositivePortOmitted | eve_sso/java/org/evekit/examples/sso/EVESSOAuthorizationHandler.java:55 | an absent (-1) or zero port leaves the error redirect as `protocol://host/?auth_error=` + encoded message |
| AuthorizationHandler.PositivePortIncluded | eve_sso/java/org/evekit/examples/sso/EVESSOAuthorizationHandler.java:52-58 | a positive port gives `protocol://host:` + decimal port + `/?auth_error=` + encoded message; the port has no leading zero and reads back as itself |
| AuthorizationHandler.PathAndQueryDropped | eve_sso/java/org/evekit/examples/sso/EVESSOAuthorizationHandler.java:52-56 | the request's path and query do not affect the error redirect |
| AuthorizationHandler.ErrorRedirectDeterminesPort | eve_sso/java/org/evekit/examples/sso/EVESSOAuthorizationHandler.java:55 | two positive ports that give the same error redirect are equal |
| AuthorizationHandler.SignInRedirectsToEve | eve_sso/java/org/evekit/examples/sso/EVESSOAuthorizationHandler.java:45-49 | with the production provider, the redirect goes to the production authorize URL with the placeholder client ID, the encoded fixed callback, and no scope |
| CallbackHandler.VerifyURL | eve_sso/java/org/evekit/examples/sso/EVESSOCallbackHandler.java:27-31 | `getVerifyURL`: the production verify endpoint; stated by `VerifyOnProductionHost` |
| CallbackHandler.VerifyOnProductionHost | eve_sso/java/org/evekit/examples/sso/EVESSOCallbackHandler.java:27-31 | the verify URL is `/oauth/verify` on the production provider's origin |
| CallbackHandler.SkipSpaces | eve_sso/java/org/evekit/examples/sso/EVESSOCallbackHandler.java:51 | `\s*` consumes the maximal run of Java whitespace |
| CallbackHandler.QuotedValue | eve_sso/java/org/evekit/examples/sso/EVESSOCallbackHandler.java:51 | `(\S*?)"` yields a run with no whitespace and no quote that is followed by a quote; it fails only when no quote can close such a run |
| CallbackHandler.MatchAt | eve_sso/java/org/evekit/examples/sso/EVESSOCallbackHandler.java:51-52 | one attempt of the matcher at a start position; a reported group has no whitespace and no quote; `MatchAtSound` and `MatchAtComplete` tie it to the pattern |
| CallbackHandler.MatchAtSound | eve_sso/java/org/evekit/examples/sso/EVESSOCallbackHandler.java:51 | a match the matcher reports at a position is an instance of the pattern there |
| CallbackHandler.QuotedValueStopsAtFirstQuote | eve_sso/java/org/evekit/examples/sso/EVESSOCallbackHandler.java:51 | if only non-whitespace precedes a quote, the lazy group succeeds and stops at the first quote |
| CallbackHandler.MatchAtComplete | eve_sso/java/org/evekit/examples/sso/EVESSOCallbackHandler.java:51 | wherever the pattern can match, the matcher reports a match there, with the shortest group |
| CallbackHandler.LeftmostMatch | eve_sso/java/org/evekit/examples/sso/EVESSOCallbackHandler.java:52-54 | `find()` reports the least start position with a match, or none if no position has one |
| CallbackHandler.CharacterName | eve_sso/java/org/evekit/examples/sso/EVESSOCallbackHandler.java:51-54 | the name has no whitespace and no quote; it is group 1 of the leftmost match, or `ERROR` when no position matches |
| CallbackHandler.CharacterNameIsLeftmostMatch | eve_sso/java/org/evekit/examples/sso/EVESSOCallbackHandler.java:51-54 | at the leftmost position where the pattern can match, the name is the quote-free, whitespace-free value there |
| CallbackHandler.CharacterNameIsACapture | eve_sso/java/org/evekit/examples/sso/EVESSOCallbackHandler.java:51-54 | when the pattern matches somewhere, the name is a value the pattern captures at that position or an earlier one |
| CallbackHandler.NoOpeningQuoteYieldsSentinel | eve_sso/java/org/evekit/examples/sso/EVESSOCallbackHandler.java:51-54 | without `"CharacterName":`, optional whitespace and a quote, the result is `ERROR` |
| CallbackHandler.TwoWordNameYieldsSentinel | eve_sso/java/org/evekit/examples/sso/EVESSOCallbackHandler.java:51 | for `"CharacterName": "Jane Doe"` the result is `ERROR`: a value with whitespace is never captured |
| CallbackHandler.EmptyValueYieldsEmptyName | eve_sso/java/org/evekit/examples/sso/EVESSOCallbackHandler.java:51-54 | `"CharacterName":""` yields the empty name, not `ERROR` |
| CallbackHandler.LowerCaseKeyYieldsSentinel | eve_sso/java/org/evekit/examples/sso/EVESSOCallbackHandler.java:51 | the key is matched case-sensitively |
| CallbackHandler.SpaceBeforeColonYieldsSentinel | eve_sso/java/org/evekit/examples/sso/EVESSOCallbackHandler.java:51 | whitespace between the key's closing quote and the colon prevents a match |
| CallbackHandler.DoGet | eve_sso/java/org/evekit/examples/sso/EVESSOCallbackHandler.java:34-54 | a name results only if the token exchange and the verify request succeed and the response is successful; a failed exchange or a failed verify request escapes with its own exception, and an unsuccessful response raises `credential request was not successful!` |

## Left out

- Servlet I/O is not modelled: `sendRedirect`, `getRequestURL`, `getParameter` and the servlet lifecycle. A redirect is modelled as its target URL. `sendRedirect` itself throwing inside the `try` is not modelled.
- `AuthorizationHandler.DoGet`: a `Failure` from the authorization step stands for an `Exception`, which the `catch` turns into the error redirect. A `java.lang.Error` thrown there escapes without a redirect, and the model does not represent it.
- `serialVersionUID` is not modelled. It is serialization metadata.
- Scribe's `ServiceBuilder`, `getAccessToken`, `signRequest` and `OAuthRequest.send` are foreign or network calls. The model takes their outcomes as `Result` inputs. `AuthorizationHandler.DoGet` receives the whole "build the service and get the authorization URL" step as a parameter. `SignInRedirectsToEve` instantiates that parameter with the modelled `getAuthorizationUrl`.
- `EVEOAuthServiceImpl` (`createService`) and `JsonTokenExtractor` (`getAccessTokenExtractor`) are not part of this model. Their source is not available.
- `OAuthEncoder.encode` and `URLEncoder.encode` are library code. Each is an arbitrary `string -> string` parameter, so every property holds for any encoder.
- `java.net.URL` parsing is not modelled: protocol, host, port, path and query arrive already split. The port is an unbounded integer, not a Java `int`.
- `OAuthConfig.hasScope()` is not available. A configured scope is modelled as `Some(scope)`, and `hasScope()` as "a scope is present".
- Only the `%s` and `%%` conversions of `String.format` are modelled. Every other conversion is treated as a failure; the templates use none.
- Only the one `CharacterName` pattern is modelled, not a general regex engine. `\s` is Java's default ASCII class: space, tab, newline, vertical tab, form feed, carriage return.
- The callback handler's `code` request parameter, including an absent one, is folded into the outcome of the token exchange.
- The callback handler does nothing with the scraped name; the model returns it as the result.
