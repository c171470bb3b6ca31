/**
 * The callback servlet `EVESSOCallbackHandler`. After the token exchange and
 * the verify request, it scrapes the character name out of the verify
 * response with the pattern `"CharacterName":\s*"(\S*?)"`, taking group 1 of
 * the leftmost match, or `"ERROR"` when there is none. The pattern is
 * modelled directly, as a search over start positions.
 */
module CallbackHandler {
  import opened Wrappers
  import opened EveApi

  /** `getVerifyURL`: the production verify endpoint is selected. */
  function VerifyURL(): string {
    "https://" + "login.eveonline.com" + "/oauth/verify"
  }

  /** The verify endpoint sits on the same host as the selected provider's token endpoint. */
  lemma VerifyOnProductionHost()
    ensures VerifyURL() == Origin(EVEApi) + "/oauth/verify"
  {
  }

  /** The literal part of the pattern: the key, its quotes and the colon, with nothing between them. */
  const Key := "\"CharacterName\":"

  /** What the scrape yields when the pattern does not occur. */
  const Sentinel := "ERROR"

  /** Java's `\s` without UNICODE_CHARACTER_CLASS: space, tab, newline, vertical tab, form feed, carriage return. */
  predicate IsSpace(c: char) {
    c == ' ' || c == '\t' || c == '\n' || c == '\U{000B}' || c == '\U{000C}' || c == '\r'
  }

  /** A string `(\S*?)` can capture before its closing quote: no whitespace and no `"`. */
  predicate Capturable(v: string) {
    forall i :: 0 <= i < |v| ==> !IsSpace(v[i]) && v[i] != '"'
  }

  /** The key occurs in `body` at `i`. */
  predicate KeyAt(body: string, i: nat) {
    i + |Key| <= |body| && body[i..i + |Key|] == Key
  }

  /** `"CharacterName":\s*"` occurs at `i`, its opening quote at `j`. */
  predicate OpensValue(body: string, i: nat, j: nat) {
    && KeyAt(body, i)
    && i + |Key| <= j < |body|
    && (forall m :: i + |Key| <= m < j ==> IsSpace(body[m]))
    && body[j] == '"'
  }

  /**
   * The ways the pattern can match from start `i`: the key, whitespace up to
   * an opening quote at `j`, a run `v` of non-whitespace, a closing quote.
   * This is the pattern's meaning before the lazy quantifier chooses.
   */
  predicate PatternMatches(body: string, i: nat, j: nat, v: string) {
    && OpensValue(body, i, j)
    && j + 1 + |v| < |body|
    && body[j + 1..j + 1 + |v|] == v
    && (forall m :: 0 <= m < |v| ==> !IsSpace(v[m]))
    && body[j + 1 + |v|] == '"'
  }

  /** `\s*`: the end of the whitespace run starting at `k`. */
  function SkipSpaces(body: string, k: nat): (j: nat)
    requires k <= |body|
    ensures k <= j <= |body|
    ensures forall m :: k <= m < j ==> IsSpace(body[m])
    ensures j < |body| ==> !IsSpace(body[j])
    decreases |body| - k
  {
    if k < |body| && IsSpace(body[k]) then SkipSpaces(body, k + 1) else k
  }

  /** `(\S*?)"`: the text from `k` up to the first quote, failing at whitespace or the end of the body. */
  function QuotedValue(body: string, k: nat): (r: Option<string>)
    requires k <= |body|
    ensures r.Some? ==> k + |r.value| < |body| && body[k..k + |r.value|] == r.value
                        && body[k + |r.value|] == '"' && Capturable(r.value)
    ensures r.None? ==> forall e :: k <= e < |body| && body[e] == '"' ==> !Capturable(body[k..e])
    decreases |body| - k
  {
    if k == |body| || IsSpace(body[k]) then None
    else if body[k] == '"' then Some("")
    else
      match QuotedValue(body, k + 1)
      case None => None
      case Some(v) => Some([body[k]] + v)
  }

  /** The match Java's matcher finds when it tries start position `i`, with its group 1. */
  function MatchAt(body: string, i: nat): (r: Option<string>)
    ensures r.Some? ==> Capturable(r.value)
  {
    if KeyAt(body, i) then
      var j := SkipSpaces(body, i + |Key|);
      if j < |body| && body[j] == '"' then QuotedValue(body, j + 1) else None
    else None
  }

  /** A match found at `i` is one of the pattern's matches there. */
  lemma MatchAtSound(body: string, i: nat)
    requires MatchAt(body, i).Some?
    ensures KeyAt(body, i)
    ensures PatternMatches(body, i, SkipSpaces(body, i + |Key|), MatchAt(body, i).value)
    ensures Capturable(MatchAt(body, i).value)
  {
  }

  /**
   * When only non-whitespace precedes a quote at `e`, `(\S*?)"` succeeds
   * from `k` and stops at the first quote.
   */
  lemma QuotedValueStopsAtFirstQuote(body: string, k: nat, e: nat)
    requires k <= e < |body| && body[e] == '"'
    requires forall m :: k <= m < e ==> !IsSpace(body[m])
    ensures QuotedValue(body, k).Some?
    ensures k + |QuotedValue(body, k).value| == FirstQuote(body, k, e)
  {
    var f := FirstQuote(body, k, e);
    assert Capturable(body[k..f]) by {
      assert forall m :: k <= m < f ==> body[k..f][m - k] == body[m];
    }
    var w := QuotedValue(body, k).value;
    assert forall m :: k <= m < k + |w| ==> body[m] == w[m - k];
  }

  /** Before the end of a quote-free run, the first quote is the one closing it. */
  lemma FirstQuoteClosesRun(body: string, k: nat, v: string)
    requires k + |v| < |body| && body[k..k + |v|] == v && body[k + |v|] == '"'
    requires Capturable(v)
    ensures FirstQuote(body, k, k + |v|) == k + |v|
  {
    assert forall m :: k <= m < k + |v| ==> body[m] == v[m - k];
  }

  /**
   * Whenever the pattern can match at `i`, the matcher finds a match there,
   * and the lazy group takes the shortest run: the one ending at the first quote.
   */
  lemma MatchAtComplete(body: string, i: nat, j: nat, v: string)
    requires PatternMatches(body, i, j, v)
    ensures MatchAt(body, i).Some?
    ensures |MatchAt(body, i).value| <= |v|
    ensures Capturable(v) ==> MatchAt(body, i) == Some(v)
  {
    assert SkipSpaces(body, i + |Key|) == j;
    var e := j + 1 + |v|;
    assert forall m :: j + 1 <= m < e ==> body[m] == v[m - (j + 1)];
    QuotedValueStopsAtFirstQuote(body, j + 1, e);
    if Capturable(v) {
      FirstQuoteClosesRun(body, j + 1, v);
    }
  }

  /** The first quote at or after `k`, given that there is one at `e`; before it the text is quote-free. */
  function FirstQuote(body: string, k: nat, e: nat): (f: nat)
    requires k <= e < |body| && body[e] == '"'
    ensures k <= f <= e && body[f] == '"'
    ensures forall m :: k <= m < f ==> body[m] != '"'
    decreases e - k
  {
    if body[k] == '"' then k else FirstQuote(body, k + 1, e)
  }

  /** `Matcher.find()`: the leftmost start position, at or after `from`, where a match exists. */
  function LeftmostMatch(body: string, from: nat): (r: Option<nat>)
    requires from <= |body|
    ensures r.Some? ==> from <= r.value <= |body| && MatchAt(body, r.value).Some?
                        && forall k :: from <= k < r.value ==> MatchAt(body, k).None?
    ensures r.None? ==> forall k :: from <= k <= |body| ==> MatchAt(body, k).None?
    decreases |body| - from
  {
    if MatchAt(body, from).Some? then Some(from)
    else if from == |body| then None
    else LeftmostMatch(body, from + 1)
  }

  /** The scraped character name: group 1 of the leftmost match, or the sentinel. */
  function CharacterName(body: string): (name: string)
    ensures Capturable(name)
    ensures (forall i :: 0 <= i <= |body| ==> MatchAt(body, i).None?) ==> name == Sentinel
    ensures forall i :: 0 <= i <= |body| && MatchAt(body, i).Some? && (forall k :: 0 <= k < i ==> MatchAt(body, k).None?)
                        ==> name == MatchAt(body, i).value
  {
    match LeftmostMatch(body, 0)
    case Some(i) => MatchAt(body, i).value
    case None => Sentinel
  }

  /**
   * Where the pattern can match, the name is the shortest capture at the
   * leftmost start position where it can.
   */
  lemma CharacterNameIsLeftmostMatch(body: string, i: nat, j: nat, v: string)
    requires PatternMatches(body, i, j, v) && Capturable(v)
    requires forall k: nat, j': nat, v' :: k < i ==> !PatternMatches(body, k, j', v')
    ensures CharacterName(body) == v
  {
    MatchAtComplete(body, i, j, v);
    forall k | 0 <= k < i
      ensures MatchAt(body, k).None?
    {
      if MatchAt(body, k).Some? {
        MatchAtSound(body, k);
      }
    }
  }

  /** When the pattern matches somewhere, the name is a capture at that position or an earlier one. */
  lemma CharacterNameIsACapture(body: string, i: nat, j: nat, v: string)
    requires PatternMatches(body, i, j, v)
    ensures exists i': nat, j': nat :: i' <= i && PatternMatches(body, i', j', CharacterName(body))
  {
    MatchAtComplete(body, i, j, v);
    var first := LeftmostMatch(body, 0).value;
    MatchAtSound(body, first);
    assert first <= i;
    assert PatternMatches(body, first, SkipSpaces(body, first + |Key|), CharacterName(body));
  }

  /**
   * Without `"CharacterName":` followed by optional whitespace and a quote,
   * the scrape yields the sentinel.
   */
  lemma NoOpeningQuoteYieldsSentinel(body: string)
    requires forall i: nat, j: nat :: !OpensValue(body, i, j)
    ensures CharacterName(body) == Sentinel
  {
    forall i | 0 <= i <= |body|
      ensures MatchAt(body, i).None?
    {
      if MatchAt(body, i).Some? {
        MatchAtSound(body, i);
      }
    }
  }

  lemma KeyBeginsWithQuote(body: string, i: nat)
    ensures KeyAt(body, i) ==> i + |Key| <= |body| && body[i] == '"' && body[i + 1] == 'C' && body[i + 15] == ':'
  {
    if KeyAt(body, i) {
      assert body[i..i + |Key|][0] == '"' && body[i..i + |Key|][1] == 'C' && body[i..i + |Key|][15] == ':';
    }
  }

  /** A profile whose only key holds a two-word name. */
  const TwoWordBody := "\"CharacterName\": \"Jane Doe\""

  /** At the key, the lazy group meets the space in `Jane Doe` before any closing quote. */
  lemma TwoWordNoMatchAtKey()
    ensures MatchAt(TwoWordBody, 0).None?
  {
    var body := TwoWordBody;
    assert |body| == 27 && body[16] == ' ' && body[17] == '"';
    assert SkipSpaces(body, 16) == 17;
    TwoWordValueStopsAtSpace();
  }

  /** After the opening quote, `Jane` is followed by whitespace, not by a quote. */
  lemma TwoWordValueStopsAtSpace()
    ensures |TwoWordBody| == 27 && QuotedValue(TwoWordBody, 18).None?
  {
    var body := TwoWordBody;
    assert body[18] == 'J' && body[19] == 'a' && body[20] == 'n' && body[21] == 'e' && body[22] == ' ';
    assert QuotedValue(body, 22).None?;
  }

  /** No other position starts with the key. */
  lemma TwoWordNoLaterKey()
    ensures forall i | 1 <= i <= |TwoWordBody| :: MatchAt(TwoWordBody, i).None?
  {
    var body := TwoWordBody;
    assert |body| == 27;
    assert forall i | 1 <= i <= 11 :: body[i] != '"';
    forall i | 1 <= i <= |body|
      ensures MatchAt(body, i).None?
    {
      KeyBeginsWithQuote(body, i);
    }
  }

  /** A value containing a space is never captured: the only key holding `Jane Doe` yields the sentinel. */
  lemma TwoWordNameYieldsSentinel()
    ensures CharacterName(TwoWordBody) == Sentinel
  {
    TwoWordNoMatchAtKey();
    TwoWordNoLaterKey();
  }

  /** An empty value is captured as the empty name, not replaced by the sentinel. */
  lemma EmptyValueYieldsEmptyName()
    ensures CharacterName("\"CharacterName\":\"\"") == ""
  {
    var body := "\"CharacterName\":\"\"";
    assert body[..16] == Key;
    assert PatternMatches(body, 0, 16, "");
    CharacterNameIsLeftmostMatch(body, 0, 16, "");
  }

  /** The key is matched case-sensitively. */
  lemma LowerCaseKeyYieldsSentinel()
    ensures CharacterName("\"charactername\":\"x\"") == Sentinel
  {
    var body := "\"charactername\":\"x\"";
    assert |body| == 19;
    assert body[1] == 'c';
    forall i | 0 <= i <= |body|
      ensures MatchAt(body, i).None?
    {
      KeyBeginsWithQuote(body, i);
    }
  }

  /** The colon must follow the key's closing quote directly. */
  lemma SpaceBeforeColonYieldsSentinel()
    ensures CharacterName("\"CharacterName\" :\"x\"") == Sentinel
  {
    var body := "\"CharacterName\" :\"x\"";
    assert |body| == 20;
    assert body[15] == ' ';
    forall i | 0 <= i <= |body|
      ensures MatchAt(body, i).None?
    {
      KeyBeginsWithQuote(body, i);
    }
  }

  /** The verify response as the handler sees it. */
  datatype VerifyResponse = VerifyResponse(successful: bool, body: string)

  const UnsuccessfulVerify := "credential request was not successful!"

  /**
   * The steps of `doGet` after the service is built: the token exchange
   * (which may throw), the signed verify request (whose sending may throw),
   * the success check, then the scrape. An exception escapes unchanged;
   * otherwise the result is the scraped name.
   */
  function DoGet(tokenExchange: Result<string>, verify: Result<VerifyResponse>): (r: Result<string>)
    ensures r.Success? <==> tokenExchange.Success? && verify.Success? && verify.value.successful
    ensures r.Success? ==> r.value == CharacterName(verify.value.body)
    ensures tokenExchange.Failure? ==> r == Failure(tokenExchange.error)
    ensures tokenExchange.Success? && verify.Failure? ==> r == Failure(verify.error)
    ensures tokenExchange.Success? && verify.Success? && !verify.value.successful ==> r == Failure(UnsuccessfulVerify)
  {
    if tokenExchange.Failure? then Failure(tokenExchange.error)
    else if verify.Failure? then Failure(verify.error)
    else if !verify.value.successful then Failure(UnsuccessfulVerify)
    else Success(CharacterName(verify.value.body))
  }
}
