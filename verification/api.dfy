/** What the remote GraphQL catalog answers, reduced to the cases the sync job
    tells apart, with the rate-limit classifier and the token decision of
    `get_token`. The HTTP transport itself is not modelled: a response is an
    input. */
module Api {
  import opened Common

  /** One element of `data.products.edges`: its barcodes and
      `supplies.availability` (None when the key is missing). */
  datatype Edge = Edge(barcodes: seq<string>, availability: Option<string>)

  /** The outcome of one products query. */
  datatype PageResponse =
      /** `graphql_request` gave a falsy value: transport failure or an
          undecodable body. */
    | NoResponse
      /** The decoded response has `errors`; `json` is their `json_encode`. */
    | ApiErrors(json: string)
      /** Anything else: `data.products.edges`, [] when absent. */
    | Page(edges: seq<Edge>)

  /** The outcome of the token mutation; `token` is
      `data.requestToken.token`, None when absent. */
  datatype TokenResponse =
    | TokenNoResponse
    | TokenErrors(json: string)
    | TokenData(token: Option<string>)

  /** `needle` occurs in `text` starting at index `i`. */
  predicate OccursAt(text: string, needle: string, i: int) {
    0 <= i && i + |needle| <= |text| && text[i..i + |needle|] == needle
  }

  lemma OccursShifted(text: string, needle: string)
    requires |text| > 0 && !OccursAt(text, needle, 0)
    ensures (exists i :: OccursAt(text, needle, i)) <==> (exists i :: OccursAt(text[1..], needle, i))
  {
    if exists i :: OccursAt(text, needle, i) {
      var i :| OccursAt(text, needle, i);
      assert text[1..][i - 1..i - 1 + |needle|] == text[i..i + |needle|];
      assert OccursAt(text[1..], needle, i - 1);
    }
    if exists i :: OccursAt(text[1..], needle, i) {
      var i :| OccursAt(text[1..], needle, i);
      assert text[1..][i..i + |needle|] == text[i + 1..i + 1 + |needle|];
      assert OccursAt(text, needle, i + 1);
    }
  }

  /** PHP's `strpos($text, $needle) !== false`: a case-sensitive substring
      search from the left. */
  function Contains(text: string, needle: string): bool
    decreases |text|
  {
    if |text| < |needle| then false
    else if text[..|needle|] == needle then true
    else Contains(text[1..], needle)
  }

  /** The search finds `needle` exactly when it occurs somewhere in `text`. */
  lemma {:induction false} ContainsIsSubstring(text: string, needle: string)
    ensures Contains(text, needle) <==> exists i :: OccursAt(text, needle, i)
    decreases |text|
  {
    if |text| < |needle| {
    } else if text[..|needle|] == needle {
      assert OccursAt(text, needle, 0);
    } else {
      OccursShifted(text, needle);
      ContainsIsSubstring(text[1..], needle);
    }
  }

  /** An `errors` payload means the API throttled the job when its JSON text
      contains "rate limit" or "too many requests", exactly as written. */
  predicate IsRateLimited(json: string) {
    Contains(json, "rate limit") || Contains(json, "too many requests")
  }

  /** An error text that carries either phrase, in lower case, anywhere is
      a rate limit. */
  lemma RateLimitRecognised(before: string, phrase: string, after: string)
    requires phrase == "rate limit" || phrase == "too many requests"
    ensures IsRateLimited(before + phrase + after)
  {
    var text := before + phrase + after;
    assert text[|before|..|before| + |phrase|] == phrase;
    assert OccursAt(text, phrase, |before|);
    ContainsIsSubstring(text, phrase);
  }

  /** The test is case-sensitive: a capitalised phrase is not a rate limit. */
  lemma RateLimitIsCaseSensitive()
    ensures !IsRateLimited("Rate limit")
  {
    var upper := "Rate limit";
    assert upper[0] != "rate limit"[0];
    assert !Contains(upper[1..], "rate limit");
  }

  /** PHP's `if ($token)` on the token read from the response. */
  predicate HasToken(token: Option<string>) {
    token.Some? && Truthy(token.value)
  }

  /** What one `get_token` call does: whether it sends the request, what it
      returns and the one line it logs. */
  datatype TokenAttempt = TokenAttempt(sent: bool, token: Option<string>, message: Message)

  function TokenStep(secureKey: string, response: TokenResponse): (r: TokenAttempt)
    ensures r.sent <==> Truthy(secureKey)
    ensures HasToken(r.token) <==> r.sent && response.TokenData? && HasToken(response.token)
    ensures HasToken(r.token) ==> r.token == response.token
    ensures IsError(r.message) <==> !HasToken(r.token)
    ensures r.message == TokenObtained <==> HasToken(r.token)
    ensures !HasToken(r.token) ==> r.token == (if r.sent && response.TokenData? then response.token else None)
    ensures !r.sent ==> r.message == SecureKeyMissing
    ensures r.sent && response.TokenNoResponse? ==> r.message == TokenConnectFailed
    ensures r.sent && response.TokenErrors? ==> r.message == TokenApiError(response.json)
    ensures r.sent && response.TokenData? && !HasToken(r.token) ==> r.message == TokenNotReturned
  {
    if !Truthy(secureKey) then TokenAttempt(false, None, SecureKeyMissing)
    else
      match response
      case TokenNoResponse => TokenAttempt(true, None, TokenConnectFailed)
      case TokenErrors(json) => TokenAttempt(true, None, TokenApiError(json))
      case TokenData(token) =>
        TokenAttempt(true, token, if HasToken(token) then TokenObtained else TokenNotReturned)
  }
}
