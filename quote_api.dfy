/** Quote resolution (src/hooks/useOpenAI.ts): the free tier, the key check, one
    request to the chosen AI provider, extraction of the quote from its JSON
    reply, classification of any failure into an advisory, and the static quotes
    every failure falls back to. The reply and the random draw are inputs. */
module QuoteApi {
  import opened Wrappers
  import opened Types
  import opened Text
  import opened StaticQuotes
  import opened QuoteErrors

  // ---------------------------------------------------------------------
  // The request table

  const HAPPY_PROMPT: string := "Generate a short, uplifting quote about happiness, joy, or positivity. Keep it under 50 words."
  const SAD_PROMPT: string := "Generate a short, comforting quote about finding peace in difficult times or gentle reflection. Keep it under 50 words."
  const MOTIVATED_PROMPT: string := "Generate a short, inspiring quote about achievement, success, or motivation. Keep it under 50 words."

  /** `moodPrompts[mood]`: only happy, sad and motivated have a prompt; for the
      other moods the message content is `undefined`, which `JSON.stringify` drops. */
  function MoodPrompt(m: Mood): (prompt: Option<string>)
    ensures prompt.Some? <==> IsImageMood(m)
  {
    match m
    case Happy => Some(HAPPY_PROMPT)
    case Sad => Some(SAD_PROMPT)
    case Motivated => Some(MOTIVATED_PROMPT)
    case _ => None
  }

  /** The JSON body of a request, kept abstract: which provider's layout it uses
      and the mood whose prompt, `MoodPrompt(mood)`, it carries. The numeric
      parameters are not modelled. */
  datatype BodyFormat = OpenAiChat | AnthropicMessages | GeminiContents | AzureChat
  datatype RequestBody = RequestBody(format: BodyFormat, mood: Mood)

  /** One `fetch` call: method, endpoint, headers in insertion order, body. */
  datatype HttpRequest = HttpRequest(verb: string, endpoint: string, headers: seq<(string, string)>, body: RequestBody)

  const POST: string := "POST"
  const CONTENT_TYPE: (string, string) := ("Content-Type", "application/json")
  const OPENAI_ENDPOINT: string := "https://api.openai.com/v1/chat/completions"
  const BEARER: string := "Bearer "
  const ANTHROPIC_ENDPOINT: string := "https://api.anthropic.com/v1/messages"
  const ANTHROPIC_VERSION: (string, string) := ("anthropic-version", "2023-06-01")
  const GOOGLE_ENDPOINT: string := "https://generativelanguage.googleapis.com/v1/models/gemini-1.5-flash:generateContent?key="
  const AZURE_PATH: string := "/openai/deployments/gpt-35-turbo/chat/completions?api-version=2023-05-15"
  const AZURE_ENDPOINT_REQUIRED: string := "Azure endpoint is required"
  const UNSUPPORTED_PROVIDER: string := "Unsupported provider: "

  /** The message of the error thrown for a provider without a table entry. */
  function Unsupported(p: AiProvider): string { UNSUPPORTED_PROVIDER + p.Id() }

  /** The `switch (provider)` that fills in endpoint, headers and body: a request
      for openai, anthropic, google and (with an endpoint) azure; the message of
      the error it throws otherwise. */
  function BuildRequest(p: AiProvider, key: string, azureEndpoint: Option<string>, m: Mood): (req: Result<HttpRequest>)
    ensures req.Ok? <==> p in {OpenAi, Anthropic, Google} || (p == Azure && TruthyKey(azureEndpoint))
    ensures p == Azure && !TruthyKey(azureEndpoint) ==> req == Err(AZURE_ENDPOINT_REQUIRED)
    ensures p in {Free, Meta, Groq} ==> req == Err(Unsupported(p))
    ensures req.Ok? ==> req.value.verb == POST && |req.value.headers| >= 1 && req.value.headers[0] == CONTENT_TYPE
    ensures req.Ok? ==> req.value.body.mood == m
  {
    match p
    case OpenAi => Ok(HttpRequest(POST, OPENAI_ENDPOINT, [CONTENT_TYPE, ("Authorization", BEARER + key)],
      RequestBody(OpenAiChat, m)))
    case Anthropic => Ok(HttpRequest(POST, ANTHROPIC_ENDPOINT, [CONTENT_TYPE, ("x-api-key", key), ANTHROPIC_VERSION],
      RequestBody(AnthropicMessages, m)))
    case Google => Ok(HttpRequest(POST, GOOGLE_ENDPOINT + key, [CONTENT_TYPE], RequestBody(GeminiContents, m)))
    case Azure =>
      if !TruthyKey(azureEndpoint) then Err(AZURE_ENDPOINT_REQUIRED)
      else Ok(HttpRequest(POST, azureEndpoint.value + AZURE_PATH, [CONTENT_TYPE, ("api-key", key)],
        RequestBody(AzureChat, m)))
    case _ => Err(Unsupported(p))
  }

  /** Every request carries the key: google in the URL, right after the endpoint,
      the others in the header that provider expects. */
  lemma RequestCarriesKey(p: AiProvider, key: string, azureEndpoint: Option<string>, m: Mood)
    requires BuildRequest(p, key, azureEndpoint, m).Ok?
    ensures var req := BuildRequest(p, key, azureEndpoint, m).value;
      && (p == OpenAi ==> ("Authorization", BEARER + key) in req.headers)
      && (p == Anthropic ==> ("x-api-key", key) in req.headers && ANTHROPIC_VERSION in req.headers)
      && (p == Google ==> StartsWith(req.endpoint, GOOGLE_ENDPOINT) && req.endpoint[|GOOGLE_ENDPOINT|..] == key)
      && (p == Azure ==> ("api-key", key) in req.headers && StartsWith(req.endpoint, azureEndpoint.value))
  {
    var req := BuildRequest(p, key, azureEndpoint, m).value;
    if p == Google {
      assert req.endpoint[..|GOOGLE_ENDPOINT|] == GOOGLE_ENDPOINT;
    } else if p == Azure {
      assert req.endpoint[..|azureEndpoint.value|] == azureEndpoint.value;
    }
  }

  // ---------------------------------------------------------------------
  // Reading the quote out of the reply

  /** A JSON value as `response.json()` returns it. */
  datatype Val = Null | Bool(b: bool) | Num(n: int) | Str(s: string) | Arr(items: seq<Val>) | Obj(fields: map<string, Val>)

  /** One access of an optional chain: `.key` or `[0]`, optional (`?.`) or not. */
  datatype Step = Prop(key: string) | First
  datatype Link = Link(optional: bool, step: Step)

  /** The value of a chain so far: a value, `undefined` (`None`), or a
      `TypeError` because a non-optional access hit `null` or `undefined`. */
  datatype Lookup = Found(v: Option<Val>) | TypeFault

  predicate IsNullish(v: Option<Val>) {
    v.None? || v == Some(Null)
  }

  /** One access on a value that is neither `null` nor `undefined`; whatever is
      not there is `undefined`. Indexing a string gives its first character. */
  function Access(v: Val, step: Step): Option<Val> {
    match step
    case Prop(key) =>
      if v.Obj? && key in v.fields then Some(v.fields[key]) else None
    case First =>
      match v
      case Arr(items) => if items != [] then Some(items[0]) else None
      case Str(s) => if s != [] then Some(Str([s[0]])) else None
      case Obj(fields) => if "0" in fields then Some(fields["0"]) else None
      case _ => None
  }

  /** Evaluates a chain: a non-optional access on `null`/`undefined` throws, an
      optional one ends the whole chain with `undefined`. */
  function Walk(v: Option<Val>, links: seq<Link>): (l: Lookup)
    ensures links == [] ==> l == Found(v)
    decreases |links|
  {
    if links == [] then Found(v)
    else if IsNullish(v) then (if links[0].optional then Found(None) else TypeFault)
    else Walk(Access(v.value, links[0].step), links[1..])
  }

  /** The chain each provider reads: `data.choices[0]?.message?.content`,
      `data.content[0]?.text` and `data.candidates[0]?.content?.parts[0]?.text`. */
  function ReplyPath(p: AiProvider): seq<Link> {
    match p
    case OpenAi => [Link(false, Prop("choices")), Link(false, First), Link(true, Prop("message")), Link(true, Prop("content"))]
    case Azure => [Link(false, Prop("choices")), Link(false, First), Link(true, Prop("message")), Link(true, Prop("content"))]
    case Anthropic => [Link(false, Prop("content")), Link(false, First), Link(true, Prop("text"))]
    case Google => [Link(false, Prop("candidates")), Link(false, First), Link(true, Prop("content")),
      Link(true, Prop("parts")), Link(false, First), Link(true, Prop("text"))]
    case _ => []
  }

  /** What the parse step ends with: the trimmed text, nothing (`undefined` or a
      provider without a parse case, both falsy), or a `TypeError`. */
  datatype Extracted = Text(text: string) | NoText | Fault

  /** The chain followed by `?.trim()`: `undefined` stays `undefined`, a string is
      trimmed, and any other value has no `trim` method to call, so it throws. */
  function Extract(p: AiProvider, data: Val): (e: Extracted)
    ensures e.Text? ==> e.text == Trim(e.text)
  {
    if ReplyPath(p) == [] then NoText
    else match Walk(Some(data), ReplyPath(p))
      case TypeFault => Fault
      case Found(v) =>
        if IsNullish(v) then NoText
        else if v.value.Str? then (TrimIdempotent(v.value.s); Text(Trim(v.value.s)))
        else Fault
  }

  /** The reply each provider documents, holding `text` where the chain looks. */
  function WellFormedReply(p: AiProvider, text: string): Val {
    match p
    case Anthropic => Obj(map["content" := Arr([Obj(map["text" := Str(text)])])])
    case Google => Obj(map["candidates" := Arr([Obj(map["content" := Obj(map["parts" := Arr([Obj(map["text" := Str(text)])])])])])])
    case _ => Obj(map["choices" := Arr([Obj(map["message" := Obj(map["content" := Str(text)])])])])
  }

  /** Reading a well-formed reply gives back its text, trimmed. */
  lemma ExtractWellFormed(p: AiProvider, text: string)
    requires p in {OpenAi, Anthropic, Google, Azure}
    ensures Extract(p, WellFormedReply(p, text)) == Text(Trim(text))
  {
    var path := ReplyPath(p);
    var data := WellFormedReply(p, text);
    assert Walk(Some(data), path) == Found(Some(Str(text))) by {
      if p == Google {
        WalkGoogle(text);
      } else if p == Anthropic {
        WalkAnthropic(text);
      } else {
        WalkChoices(p, text);
      }
    }
  }

  /** The OpenAI and Azure path walks a well-formed reply down to its text. */
  lemma WalkChoices(p: AiProvider, text: string)
    requires p == OpenAi || p == Azure
    ensures Walk(Some(WellFormedReply(p, text)), ReplyPath(p)) == Found(Some(Str(text)))
  {
    var path := ReplyPath(p);
    var c0 := Obj(map["message" := Obj(map["content" := Str(text)])]);
    assert Walk(Some(WellFormedReply(p, text)), path) == Walk(Some(Arr([c0])), path[1..]);
    assert Walk(Some(Arr([c0])), path[1..]) == Walk(Some(c0), path[2..]);
    assert Walk(Some(c0), path[2..]) == Walk(Some(Obj(map["content" := Str(text)])), path[3..]);
    assert Walk(Some(Obj(map["content" := Str(text)])), path[3..]) == Walk(Some(Str(text)), path[4..]);
  }

  /** The Anthropic path walks a well-formed reply down to its text. */
  lemma WalkAnthropic(text: string)
    ensures Walk(Some(WellFormedReply(Anthropic, text)), ReplyPath(Anthropic)) == Found(Some(Str(text)))
  {
    var path := ReplyPath(Anthropic);
    var c0 := Obj(map["text" := Str(text)]);
    assert Walk(Some(WellFormedReply(Anthropic, text)), path) == Walk(Some(Arr([c0])), path[1..]);
    assert Walk(Some(Arr([c0])), path[1..]) == Walk(Some(c0), path[2..]);
    assert Walk(Some(c0), path[2..]) == Walk(Some(Str(text)), path[3..]);
  }

  /** The Google path walks a well-formed reply down to its text. */
  lemma WalkGoogle(text: string)
    ensures Walk(Some(WellFormedReply(Google, text)), ReplyPath(Google)) == Found(Some(Str(text)))
  {
    var path := ReplyPath(Google);
    var parts0 := Obj(map["text" := Str(text)]);
    var content := Obj(map["parts" := Arr([parts0])]);
    var c0 := Obj(map["content" := content]);
    assert Walk(Some(WellFormedReply(Google, text)), path) == Walk(Some(Arr([c0])), path[1..]);
    assert Walk(Some(Arr([c0])), path[1..]) == Walk(Some(c0), path[2..]);
    assert Walk(Some(c0), path[2..]) == Walk(Some(content), path[3..]);
    assert Walk(Some(content), path[3..]) == Walk(Some(Arr([parts0])), path[4..]);
    assert Walk(Some(Arr([parts0])), path[4..]) == Walk(Some(parts0), path[5..]);
    assert Walk(Some(parts0), path[5..]) == Walk(Some(Str(text)), path[6..]);
  }

  /** A reply without the list the chain starts from throws (the `[0]` is not
      optional); an empty list gives no text, because the next access is optional. */
  lemma ExtractMissingOrEmptyList(p: AiProvider)
    requires p in {OpenAi, Anthropic, Google, Azure}
    ensures Extract(p, Obj(map[])) == Fault
    ensures Extract(p, Obj(map[ReplyPath(p)[0].step.key := Arr([])])) == NoText
  {
    var path := ReplyPath(p);
    assert Walk(Some(Obj(map[])), path) == Walk(None, path[1..]);
    var key := path[0].step.key;
    assert Walk(Some(Obj(map[key := Arr([])])), path) == Walk(Some(Arr([])), path[1..]);
    assert Walk(Some(Arr([])), path[1..]) == Walk(None, path[2..]);
  }

  // ---------------------------------------------------------------------
  // One attempt and its failures

  const NO_QUOTE: string := "No quote generated"
  const AI_GENERATED: string := "AI Generated"

  /** How the `try` block ends: with a quote, or with a thrown value. */
  datatype AttemptOutcome = Succeeded(quote: GeneratedQuote) | Threw(error: JsError)

  /** The request sent, if the table built one, and how the block ended. The
      wording of a `TypeError` raised by the parse step is the engine's and is
      not fixed by the language, so it is the input `engineMessage`. */
  datatype Attempt = Attempt(request: Option<HttpRequest>, outcome: AttemptOutcome)

  /** The `try` block of `generateQuote` with key `key`. */
  function TryBlock(p: AiProvider, key: string, azureEndpoint: Option<string>, m: Mood,
                    reply: Reply<Val>, engineMessage: string): (a: Attempt)
    ensures a.request.Some? <==> BuildRequest(p, key, azureEndpoint, m).Ok?
    ensures a.outcome.Succeeded? ==> a.request.Some? && reply.Delivered?
    ensures a.outcome.Succeeded? ==>
      Extract(p, reply.body) == Text(a.outcome.quote.text) && a.outcome.quote.text != [] &&
      a.outcome.quote.author == Some(AI_GENERATED)
  {
    match BuildRequest(p, key, azureEndpoint, m)
    case Err(msg) => Attempt(None, Threw(Error(msg)))
    case Ok(req) =>
      var outcome := match reply
        case Rejected(e) => Threw(e)
        case NotOk(s) => Threw(Error(StatusMessage(p, s)))
        case Delivered(data) =>
          match Extract(p, data)
          case Fault => Threw(TypeError(engineMessage))
          case NoText => Threw(Error(NO_QUOTE))
          case Text(t) => if t == [] then Threw(Error(NO_QUOTE)) else Succeeded(GeneratedQuote(t, Some(AI_GENERATED)));
      Attempt(Some(req), outcome)
  }

  // ---------------------------------------------------------------------
  // The whole call

  /** Where the returned quote comes from: the provider's reply, or the mood's
      static list (`FallbackQuote`). */
  datatype QuoteSource = AiReply(quote: GeneratedQuote) | StaticList

  /** What one call of `generateQuote` ends with: where the quote comes from, the
      `error` advisory, the request sent (if any) and whether `loading` was raised. */
  datatype QuoteOutcome = QuoteOutcome(source: QuoteSource, error: Option<string>, request: Option<HttpRequest>, attempted: bool)

  /** The quote a source stands for, `r` drawing the static one. */
  function QuoteOf(source: QuoteSource, m: Mood, r: real): (q: GeneratedQuote)
    requires 0.0 <= r < 1.0
    ensures source.StaticList? ==> q in FallbackQuotes(m)
    ensures source.AiReply? ==> q == source.quote
  {
    match source
    case AiReply(q) => q
    case StaticList => FallbackQuote(m, r)
  }

  /** How an attempted call ends: the provider's quote with `error` cleared, or,
      from the `catch` block, the static list and the classified advisory. */
  function Conclude(p: AiProvider, a: Attempt): (o: QuoteOutcome)
    ensures o.request == a.request && o.attempted
    ensures a.outcome.Succeeded? <==> o.error.None?
    ensures a.outcome.Succeeded? ==> o.source == AiReply(a.outcome.quote)
    ensures a.outcome.Threw? ==> o.source == StaticList && o.error == Some(Advisory(p, Classify(ThrownMessage(a.outcome.error))))
  {
    match a.outcome
    case Succeeded(q) => QuoteOutcome(AiReply(q), None, a.request, true)
    case Threw(e) => QuoteOutcome(StaticList, Some(Advisory(p, Classify(ThrownMessage(e)))), a.request, true)
  }

  /** `generateQuote(mood)` for provider `p`, argument key `apiKey`, build-time key
      `envKey` and endpoint `azureEndpoint`; `error` is the value before the call. */
  function Generate(p: AiProvider, apiKey: Option<string>, envKey: Option<string>, azureEndpoint: Option<string>,
                    error: Option<string>, m: Mood, reply: Reply<Val>, engineMessage: string): (o: QuoteOutcome)
  {
    if p == Free then QuoteOutcome(StaticList, error, None, false)
    else
      var key := OrElse(apiKey, envKey);
      if !HasUsableKey(key) then QuoteOutcome(StaticList, Some(KeyMissing(p)), None, false)
      else
        Conclude(p, TryBlock(p, key.value, azureEndpoint, m, reply, engineMessage))
  }

  /** The free tier and a missing key answer from the static list without any
      request; the free tier leaves `error` as it was. */
  lemma NoRequestPaths(p: AiProvider, apiKey: Option<string>, envKey: Option<string>, azureEndpoint: Option<string>,
                       error: Option<string>, m: Mood, reply: Reply<Val>, engineMessage: string)
    requires p == Free || !HasUsableKey(OrElse(apiKey, envKey))
    ensures var o := Generate(p, apiKey, envKey, azureEndpoint, error, m, reply, engineMessage);
      && o.request.None? && !o.attempted && o.source == StaticList
      && (p == Free ==> o.error == error)
      && (p != Free ==> o.error == Some(KeyMissing(p)))
  {
  }

  /** Azure without an endpoint and providers without a table entry throw before
      any request and answer from the static list. */
  lemma FailsBeforeRequest(p: AiProvider, apiKey: Option<string>, envKey: Option<string>, azureEndpoint: Option<string>,
                           error: Option<string>, m: Mood, reply: Reply<Val>, engineMessage: string)
    requires p in {Meta, Groq} || (p == Azure && !TruthyKey(azureEndpoint))
    ensures var o := Generate(p, apiKey, envKey, azureEndpoint, error, m, reply, engineMessage);
      o.request.None? && o.source == StaticList && o.error.Some?
  {
  }

  /** `generateQuote` never rejects and never returns `null`: a successful reply
      gives its trimmed, non-empty text credited to "AI Generated", and every
      other path one of the mood's static quotes. An advisory is set exactly when
      a static quote stands in for the provider. */
  lemma AlwaysAQuote(p: AiProvider, apiKey: Option<string>, envKey: Option<string>, azureEndpoint: Option<string>,
                     error: Option<string>, m: Mood, reply: Reply<Val>, engineMessage: string)
    requires p != Free
    ensures var o := Generate(p, apiKey, envKey, azureEndpoint, error, m, reply, engineMessage);
      && (o.error.None? <==> o.source.AiReply?)
      && (o.source.AiReply? ==>
            && o.request.Some? && reply.Delivered?
            && Extract(p, reply.body) == Text(o.source.quote.text) && o.source.quote.text != []
            && o.source.quote.text == Trim(o.source.quote.text) && o.source.quote.author == Some(AI_GENERATED))
  {
  }

  /** A reply that is not ok reaches the classifier only as its status digits. */
  lemma StatusAdvisories(p: AiProvider, apiKey: Option<string>, envKey: Option<string>, azureEndpoint: Option<string>,
                         error: Option<string>, m: Mood, status: nat, engineMessage: string)
    requires p != Free && HasUsableKey(OrElse(apiKey, envKey))
    requires BuildRequest(p, OrElse(apiKey, envKey).value, azureEndpoint, m).Ok?
    ensures var digits := NatToString(status);
      Generate(p, apiKey, envKey, azureEndpoint, error, m, NotOk(status), engineMessage).error ==
        Some(Advisory(p, if Contains(digits, "401") then KeyInvalid
                         else if Contains(digits, "403") then QuotaExceeded
                         else OtherFailure))
  {
    StatusClassification(p, status);
  }

  /** The state of one `useOpenAI(apiKey, provider, azureEndpoint)` hook;
      `envKey` is the build-time key. */
  class QuoteApiHook {
    const apiKey: Option<string>
    const provider: AiProvider
    const azureEndpoint: Option<string>
    const envKey: Option<string>
    var loading: bool
    var error: Option<string>

    /** An omitted provider is the free tier; nothing is loading and there is no error. */
    constructor (apiKey: Option<string>, provider: Option<AiProvider>, azureEndpoint: Option<string>, envKey: Option<string>)
      ensures this.apiKey == apiKey && this.provider == provider.GetOr(Free)
      ensures this.azureEndpoint == azureEndpoint && this.envKey == envKey
      ensures !loading && error == None
    {
      this.apiKey := apiKey;
      this.provider := provider.GetOr(Free);
      this.azureEndpoint := azureEndpoint;
      this.envKey := envKey;
      loading := false;
      error := None;
    }

    /** The `try` block and the `catch` block's advisory for a usable key: `error`
        cleared, the request sent and its reply read, and on failure the
        classified advisory; `loading` is raised and lowered around it. */
    method Attempt(key: string, m: Mood, reply: Reply<Val>, engineMessage: string)
      returns (source: QuoteSource, request: Option<HttpRequest>)
      modifies this
      ensures var o := Conclude(provider, TryBlock(provider, key, azureEndpoint, m, reply, engineMessage));
        source == o.source && error == o.error && request == o.request
      ensures !loading
    {
      loading := true;
      error := None;
      var attempt := TryBlock(provider, key, azureEndpoint, m, reply, engineMessage);
      request := attempt.request;
      match attempt.outcome {
        case Succeeded(q) =>
          source := AiReply(q);
        case Threw(e) =>
          error := Some(Advisory(provider, Classify(ThrownMessage(e))));
          source := StaticList;
      }
      loading := false;
    }

    /** `generateQuote(mood)`: the free tier and the key check first, then the
        attempt; every path that does not end with the provider's quote returns a
        static quote drawn by `r`. `loading` is false after every attempted request. */
    method GenerateQuote(m: Mood, r: real, reply: Reply<Val>, engineMessage: string)
      returns (quote: GeneratedQuote, request: Option<HttpRequest>)
      requires 0.0 <= r < 1.0
      modifies this
      ensures var o := Generate(provider, apiKey, envKey, azureEndpoint, old(error), m, reply, engineMessage);
        quote == QuoteOf(o.source, m, r) && error == o.error && request == o.request
      ensures if Generate(provider, apiKey, envKey, azureEndpoint, old(error), m, reply, engineMessage).attempted
        then !loading else loading == old(loading)
    {
      var source := StaticList;
      request := None;
      if provider != Free {
        var key := OrElse(apiKey, envKey);
        if !HasUsableKey(key) {
          error := Some(KeyMissing(provider));
        } else {
          source, request := Attempt(key.value, m, reply, engineMessage);
        }
      }
      quote := QuoteOf(source, m, r);
    }
  }
}
