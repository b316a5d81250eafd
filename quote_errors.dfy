/** How the quote hook (src/hooks/useOpenAI.ts) turns a failed attempt into an
    advisory: the thrown value's message, a chain of keyword tests on it, and the
    provider-prefixed advisory text. */
module QuoteErrors {
  import opened Wrappers
  import opened Types
  import opened Text

  const API_ERROR: string := " API error: "
  const FAILED_TO_GENERATE: string := "Failed to generate quote"

  /** `err instanceof Error ? err.message : 'Failed to generate quote'`. */
  function ThrownMessage(e: JsError): (msg: string)
    ensures e.IsErrorObject() ==> msg == e.message
    ensures !e.IsErrorObject() ==> msg == FAILED_TO_GENERATE
  {
    if e.IsErrorObject() then e.message else FAILED_TO_GENERATE
  }

  /** The four advisories of the catch block. */
  datatype Advice = KeyInvalid | QuotaExceeded | Unavailable | OtherFailure

  /** The catch block's chain of `includes` tests; the first that matches wins. */
  function Classify(msg: string): (a: Advice)
    ensures a == KeyInvalid <==> Contains(msg, "401") || Contains(msg, "not valid") || Contains(msg, "unauthorized")
    ensures a == QuotaExceeded <==>
      a != KeyInvalid && (Contains(msg, "403") || Contains(msg, "quota") || Contains(msg, "limit"))
    ensures a == Unavailable <==>
      a !in {KeyInvalid, QuotaExceeded} && (Contains(msg, "fetch") || Contains(msg, "network"))
  {
    if Contains(msg, "401") || Contains(msg, "not valid") || Contains(msg, "unauthorized") then KeyInvalid
    else if Contains(msg, "403") || Contains(msg, "quota") || Contains(msg, "limit") then QuotaExceeded
    else if Contains(msg, "fetch") || Contains(msg, "network") then Unavailable
    else OtherFailure
  }

  const KEY_MISSING: string := " API key missing. Using free quotes."
  const KEY_INVALID: string := " API key invalid. Using free quotes."
  const QUOTA: string := " quota exceeded. Using free quotes."
  const UNAVAILABLE: string := " temporarily unavailable. Using free quotes."
  const OTHER_ERROR: string := " error. Using free quotes."

  /** The advisory when no usable key is there. */
  function KeyMissing(p: AiProvider): (text: string)
    ensures StartsWith(text, p.Id())
  {
    var text := p.Id() + KEY_MISSING;
    assert text[..|p.Id()|] == p.Id();
    text
  }

  /** The advisory text for a provider. */
  function Advisory(p: AiProvider, a: Advice): (text: string)
    ensures StartsWith(text, p.Id())
  {
    var suffix := match a
      case KeyInvalid => KEY_INVALID
      case QuotaExceeded => QUOTA
      case Unavailable => UNAVAILABLE
      case OtherFailure => OTHER_ERROR;
    var text := p.Id() + suffix;
    assert text[..|p.Id()|] == p.Id();
    text
  }

  /** The status message of a reply that is not ok. */
  function StatusMessage(p: AiProvider, status: nat): string {
    p.Id() + API_ERROR + NatToString(status)
  }

  /** The providers that get as far as sending a request. */
  predicate SendsRequests(p: AiProvider) {
    p == OpenAi || p == Anthropic || p == Google || p == Azure
  }

  /** The letters 'v', 'd', 'q', 'm', 'f' and 'w', one from each of "not valid",
      "unauthorized", "quota", "limit", "fetch" and "network". */
  predicate KeywordLetter(c: char) {
    c == 'v' || c == 'd' || c == 'q' || c == 'm' || c == 'f' || c == 'w'
  }

  /** A character from which neither a keyword nor a "4.." status code can start. */
  predicate Harmless(c: char) {
    c != '4' && !KeywordLetter(c)
  }

  /** The text before the status digits holds only harmless characters. */
  lemma StatusHeadHarmless(p: AiProvider)
    requires SendsRequests(p)
    ensures forall i | 0 <= i < |p.Id() + API_ERROR| :: Harmless((p.Id() + API_ERROR)[i])
  {
    var id := p.Id();
    assert forall i | 0 <= i < |id| :: Harmless(id[i]);
    assert forall i | 0 <= i < |API_ERROR| :: Harmless(API_ERROR[i]);
  }

  /** A status message is classified by its digits alone: a status whose digits
      hold "401" is an invalid key, then one holding "403" an exceeded quota, and
      every other status an unspecified error (never "unavailable"). */
  lemma StatusClassification(p: AiProvider, status: nat)
    requires SendsRequests(p)
    ensures var digits := NatToString(status);
      Classify(StatusMessage(p, status)) ==
        if Contains(digits, "401") then KeyInvalid
        else if Contains(digits, "403") then QuotaExceeded
        else OtherFailure
  {
    var head := p.Id() + API_ERROR;
    var digits := NatToString(status);
    var msg := StatusMessage(p, status);
    assert msg == head + digits;
    StatusHeadHarmless(p);
    forall i | 0 <= i < |msg| ensures !KeywordLetter(msg[i]) {
      if i >= |head| {
        assert msg[i] == digits[i - |head|];
      }
    }
    LacksChar(msg, "not valid", 4);
    LacksChar(msg, "unauthorized", 11);
    LacksChar(msg, "quota", 0);
    LacksChar(msg, "limit", 2);
    LacksChar(msg, "fetch", 0);
    LacksChar(msg, "network", 3);
    FourthStatus(head, digits, "401");
    FourthStatus(head, digits, "403");
  }

  /** An occurrence of a "4.." code in a status message is one in its digits. */
  lemma FourthStatus(head: string, digits: string, code: string)
    requires |code| == 3 && code[0] == '4'
    requires forall i | 0 <= i < |head| :: Harmless(head[i])
    ensures Contains(head + digits, code) <==> Contains(digits, code)
  {
    if Contains(head + digits, code) {
      ContainsSkipsPrefix(head, digits, code);
    }
    if Contains(digits, code) {
      ContainsInSuffix(head, digits, code);
    }
  }

  /** So 401 and 403 replies are reported as an invalid key and an exceeded quota. */
  lemma Status401And403(p: AiProvider)
    requires SendsRequests(p)
    ensures Classify(StatusMessage(p, 401)) == KeyInvalid
    ensures Classify(StatusMessage(p, 403)) == QuotaExceeded
  {
    assert NatToString(4) == "4";
    assert NatToString(40) == "40";
    assert NatToString(401) == "401" && NatToString(403) == "403";
    ContainsAt("401", "401", 0);
    LacksChar("403", "401", 2);
    ContainsAt("403", "403", 0);
    StatusClassification(p, 401);
    StatusClassification(p, 403);
  }
}
