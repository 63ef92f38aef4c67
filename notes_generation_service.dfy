/**
 * The Node notes dispatcher: a switch on the provider tag, the credential
 * checks of each handler, the endpoint each handler posts to, the extraction
 * of the text from the response, and the mock notes used by the local and
 * Ollama providers.
 *
 * The HTTP client is an oracle from request to outcome. `JSON.stringify`
 * is a parameter. The value a call resolves to is a JSON value or
 * `undefined`, since handlers return a response field without checking it.
 */
module NotesGenerationService {
  import opened Wrappers
  import opened Strings
  import opened Json

  /** The options object; `None` is an absent (undefined) property, which gets the destructuring default. */
  datatype Options = Options(
    apiProvider: Option<string>,
    model: Option<string>,
    apiKey: Option<string>,
    apiEndpoint: Option<string>,
    apiModelName: Option<string>,
    title: Option<string>)

  /** The three environment variables the defaults read. */
  datatype Env = Env(apiModel: Option<string>, apiKey: Option<string>, apiBaseUrl: Option<string>)

  /** How a request authenticates. */
  datatype Auth = Bearer(key: string) | ApiKeyHeader(key: string, version: string) | NoAuth

  /** The parts of a request the handlers vary; the prompt wording around title and transcription is fixed. */
  datatype Request = Request(url: string, model: string, auth: Auth, title: string, transcription: string)

  /** What `axios.post` does: resolve with a response body, or reject with a message and maybe a response body. */
  datatype HttpOutcome = Response(data: Json) | HttpError(message: string, body: Option<Json>)

  /** What `generateNotes` settles to. */
  datatype Outcome = Fulfilled(value: Option<Json>) | Rejected(message: string)

  const GoogleEndpoint: string := "https://generativelanguage.googleapis.com/v1beta/openai/"
  const OpenAIUrl: string := "https://api.openai.com/v1/chat/completions"
  const AnthropicUrl: string := "https://api.anthropic.com/v1/messages"
  const OllamaUrl: string := "http://localhost:11434/api/generate"
  const AnthropicVersion: string := "2023-06-01"

  /** The options after the destructuring defaults: each default applies only to an undefined property. */
  datatype Settings = Settings(provider: string, model: string, apiKey: Option<string>, apiEndpoint: string,
                               apiModelName: string, title: string)

  function Defaults(o: Options, env: Env): (s: Settings)
    ensures o.apiProvider.Some? ==> s.provider == o.apiProvider.value
    ensures o.apiProvider.None? ==> s.provider == "default"
    ensures o.model.Some? ==> s.model == o.model.value
    ensures o.model.None? ==> s.model == OrDefault(env.apiModel, "gemini-2.0-flash")
    ensures s.apiKey == if o.apiKey.Some? then o.apiKey else env.apiKey
    ensures o.apiEndpoint.Some? ==> s.apiEndpoint == o.apiEndpoint.value
    ensures o.apiEndpoint.None? ==> s.apiEndpoint == OrDefault(env.apiBaseUrl, GoogleEndpoint)
    ensures s.apiModelName == o.apiModelName.GetOr("") && s.title == o.title.GetOr("Lecture Notes")
  {
    Settings(
      o.apiProvider.GetOr("default"),
      if o.model.Some? then o.model.value else OrDefault(env.apiModel, "gemini-2.0-flash"),
      if o.apiKey.Some? then o.apiKey else env.apiKey,
      if o.apiEndpoint.Some? then o.apiEndpoint.value else OrDefault(env.apiBaseUrl, GoogleEndpoint),
      o.apiModelName.GetOr(""),
      o.title.GetOr("Lecture Notes"))
  }

  // ------------------------------------------------------------ endpoints

  const CompletionsPath: string := "chat/completions"

  /** The default handler's URL: a `/` is added unless the endpoint ends with one, then `chat/completions`. */
  function DefaultUrl(endpoint: string): string
  {
    (if EndsWith(endpoint, "/") then endpoint else endpoint + "/") + CompletionsPath
  }

  /** The URL extends the endpoint and ends with `/chat/completions`, whether or not the endpoint had the slash. */
  lemma DefaultUrlShape(endpoint: string)
    ensures StartsWith(DefaultUrl(endpoint), endpoint)
    ensures EndsWith(DefaultUrl(endpoint), "/" + CompletionsPath)
  {
    SlashJoinShape(endpoint, CompletionsPath);
  }

  /** Joining with one slash: the result extends the base and ends with the slash and the tail. */
  lemma SlashJoinShape(base: string, tail: string)
    ensures var u := (if EndsWith(base, "/") then base else base + "/") + tail;
      StartsWith(u, base) && EndsWith(u, "/" + tail)
  {
    if EndsWith(base, "/") {
      StartsWithAppend(base, tail);
      var stem := base[..|base| - 1];
      assert base == stem + "/";
      assert base + tail == stem + ("/" + tail);
      EndsWithAppend(stem, "/" + tail);
    } else {
      assert (base + "/") + tail == base + ("/" + tail);
      StartsWithAppend(base, "/" + tail);
      EndsWithAppend(base, "/" + tail);
    }
  }

  /** Adding the missing slash to the endpoint yields the same URL. */
  lemma DefaultUrlSlash(endpoint: string)
    ensures !EndsWith(endpoint, "/") ==> DefaultUrl(endpoint + "/") == DefaultUrl(endpoint)
  {
    if !EndsWith(endpoint, "/") {
      EndsWithAppend(endpoint, "/");
    }
  }

  // ----------------------------------------------------------- responses

  /** The message of a rejected handler call: the provider's `error.message` from the response body if truthy, else the client's message. */
  function ErrorDetail(e: HttpOutcome): string
    requires e.HttpError?
  {
    var m := JsOptGet(JsOptGet(e.body, "error"), "message");
    if JsTruthy(m) then JsToString(m) else e.message
  }

  /** `response.data.choices[0].message.content`, each step a TypeError on undefined or null. */
  function ChoicesContent(data: Json): (r: Result<Option<Json>, string>)
    ensures (data.JObj? && "choices" in data.fields && data.fields["choices"].JArr? &&
             |data.fields["choices"].items| > 0 && data.fields["choices"].items[0].JObj? &&
             "message" in data.fields["choices"].items[0].fields &&
             data.fields["choices"].items[0].fields["message"].JObj?) ==>
        r == Success(JsOptGet(Some(data.fields["choices"].items[0].fields["message"]), "content"))
    ensures data.JNull? ==> r.Failure?
  {
    var choices :- JsGet(Some(data), "choices");
    var first :- JsIndex(choices, 0);
    var message :- JsGet(first, "message");
    JsGet(message, "content")
  }

  /** `response.data.content[0].text`. */
  function AnthropicText(data: Json): (r: Result<Option<Json>, string>)
    ensures (data.JObj? && "content" in data.fields && data.fields["content"].JArr? &&
             |data.fields["content"].items| > 0 && data.fields["content"].items[0].JObj?) ==>
        r == Success(JsOptGet(Some(data.fields["content"].items[0]), "text"))
  {
    var content :- JsGet(Some(data), "content");
    var first :- JsIndex(content, 0);
    JsGet(first, "text")
  }

  /**
   * The custom handler's extraction: `choices[0].message.content` when
   * `choices` and `choices[0].message` are truthy, else the first truthy of
   * `content`, `response` and `text`, else the serialised body.
   */
  function CustomExtract(data: Json, stringify: Json -> string): (r: Result<Option<Json>, string>)
  {
    var choices :- JsGet(Some(data), "choices");
    if JsTruthy(choices) then
      var first := JsIndex(choices, 0).value;
      var message :- JsGet(first, "message");
      if JsTruthy(message) then JsGet(message, "content") else Success(OtherShapes(data, stringify))
    else Success(OtherShapes(data, stringify))
  }

  /** The fallbacks after `choices`: `content`, `response`, `text`, else the serialised body. */
  function OtherShapes(data: Json, stringify: Json -> string): Option<Json>
  {
    if JsTruthy(JsOptGet(Some(data), "content")) then JsOptGet(Some(data), "content")
    else if JsTruthy(JsOptGet(Some(data), "response")) then JsOptGet(Some(data), "response")
    else if JsTruthy(JsOptGet(Some(data), "text")) then JsOptGet(Some(data), "text")
    else Some(JStr(stringify(data)))
  }

  /** A field of an object body, `undefined` when missing. */
  function Field(fields: map<string, Json>, k: string): Option<Json>
  {
    if k in fields then Some(fields[k]) else None
  }

  /**
   * The extraction precedence on an object body: each later source is used
   * only when every earlier one is falsy, and the body is serialised only when
   * all four are. A falsy `choices`, and a first choice whose `message` is
   * falsy, both fall through to the same chain.
   */
  lemma CustomExtractPrecedence(fields: map<string, Json>, stringify: Json -> string)
    ensures var r := CustomExtract(JObj(fields), stringify);
      var choices := Field(fields, "choices");
      var firstIsObject := JsTruthy(choices) && choices.value.JArr? && |choices.value.items| > 0 &&
                           choices.value.items[0].JObj?;
      var viaChoices := firstIsObject && JsTruthy(Field(choices.value.items[0].fields, "message"));
      var fallback :=
        if JsTruthy(Field(fields, "content")) then Field(fields, "content")
        else if JsTruthy(Field(fields, "response")) then Field(fields, "response")
        else if JsTruthy(Field(fields, "text")) then Field(fields, "text")
        else Some(JStr(stringify(JObj(fields))));
      (!JsTruthy(choices) ==> r == Success(fallback)) &&
      (firstIsObject && !viaChoices ==> r == Success(fallback)) &&
      (viaChoices ==> r == JsGet(Field(choices.value.items[0].fields, "message"), "content") && r.Success?) &&
      (JsTruthy(choices) && choices.value.JArr? && |choices.value.items| == 0 ==>
        r == Failure(ReadError(None, "message")))
  {
    var data := JObj(fields);
    assert JsGet(Some(data), "choices") == Success(Field(fields, "choices"));
    assert forall k :: JsOptGet(Some(data), k) == Field(fields, k);
  }

  // ------------------------------------------------------------- handlers

  /** The body of every `catch` in a handler: the handler's prefix and the detail. */
  function Rethrow(prefix: string, e: HttpOutcome): Outcome
    requires e.HttpError?
  {
    Rejected(prefix + ErrorDetail(e))
  }

  /** A `TypeError` thrown while reading the response: the handler's prefix and the TypeError's message. */
  function Settle(prefix: string, r: Result<Option<Json>, string>): (o: Outcome)
    ensures r.Success? ==> o == Fulfilled(r.value)
    ensures r.Failure? ==> o == Rejected(prefix + r.error)
  {
    match r
    case Success(v) => Fulfilled(v)
    case Failure(m) => Rejected(prefix + m)
  }

  function Prompt(url: string, model: string, auth: Auth, title: string, transcription: string): Request
  {
    Request(url, model, auth, title, transcription)
  }

  function WithDefault(transcription: string, apiKey: Option<string>, endpoint: string, model: string, title: string,
                       post: Request -> HttpOutcome): Outcome
  {
    if !Truthy(apiKey) then Rejected(DefaultKeyMessage)
    else match post(Request(DefaultUrl(endpoint), model, Bearer(apiKey.value), title, transcription))
      case Response(data) => Settle("Default API error: ", ChoicesContent(data))
      case e => Rethrow("Default API error: ", e)
  }

  function WithCustom(transcription: string, apiKey: Option<string>, endpoint: string, modelName: string,
                      title: string, post: Request -> HttpOutcome, stringify: Json -> string): Outcome
  {
    if !Truthy(apiKey) then Rejected(CustomKeyMessage)
    else if endpoint == "" then Rejected(CustomEndpointMessage)
    else match post(Request(endpoint, modelName, Bearer(apiKey.value), title, transcription))
      case Response(data) => Settle("Custom API error: ", CustomExtract(data, stringify))
      case e => Rethrow("Custom API error: ", e)
  }

  function WithOpenAI(transcription: string, model: string, apiKey: Option<string>, title: string,
                      post: Request -> HttpOutcome): Outcome
  {
    if !Truthy(apiKey) then Rejected("OpenAI API key is required")
    else match post(Request(OpenAIUrl, model, Bearer(apiKey.value), title, transcription))
      case Response(data) => Settle("OpenAI API error: ", ChoicesContent(data))
      case e => Rethrow("OpenAI API error: ", e)
  }

  function WithAnthropic(transcription: string, model: string, apiKey: Option<string>, title: string,
                         post: Request -> HttpOutcome): Outcome
  {
    if !Truthy(apiKey) then Rejected("Anthropic API key is required")
    else match post(Request(AnthropicUrl, model, ApiKeyHeader(apiKey.value, AnthropicVersion), title, transcription))
      case Response(data) => Settle("Anthropic API error: ", AnthropicText(data))
      case e => Rethrow("Anthropic API error: ", e)
  }

  /** The local provider is a placeholder that returns the mock notes. */
  function WithLocalModel(transcription: string, model: string, title: string): Outcome
  {
    Fulfilled(Some(JStr(MockNotes(title, transcription))))
  }

  /** Ollama: `response.data.response`, or the mock notes on any failure. */
  function WithOllama(transcription: string, model: string, title: string, post: Request -> HttpOutcome): Outcome
  {
    match post(Request(OllamaUrl, model, NoAuth, title, transcription))
    case Response(data) =>
      (match JsGet(Some(data), "response")
       case Success(v) => Fulfilled(v)
       case Failure(_) => Fulfilled(Some(JStr(MockNotes(title, transcription)))))
    case HttpError(_, _) => Fulfilled(Some(JStr(MockNotes(title, transcription))))
  }

  const UnsupportedPrefix: string := "Notes generation failed: Unsupported API provider: "

  predicate Supported(p: string) {
    p == "default" || p == "custom" || p == "openai" || p == "anthropic" || p == "local" || p == "ollama"
  }

  /**
   * `generateNotes(transcription, options)`. Handler promises are returned
   * without `await`, so only the synchronous unsupported-provider error passes
   * through the wrapping `catch`.
   */
  function GenerateNotes(transcription: string, o: Options, env: Env, post: Request -> HttpOutcome,
                         stringify: Json -> string): Outcome
  {
    var s := Defaults(o, env);
    match s.provider
    case "default" => WithDefault(transcription, s.apiKey, s.apiEndpoint, s.model, s.title, post)
    case "custom" =>
      WithCustom(transcription, s.apiKey, s.apiEndpoint, if s.apiModelName != "" then s.apiModelName else s.model,
                 s.title, post, stringify)
    case "openai" => WithOpenAI(transcription, s.model, s.apiKey, s.title, post)
    case "anthropic" => WithAnthropic(transcription, s.model, s.apiKey, s.title, post)
    case "local" => WithLocalModel(transcription, s.model, s.title)
    case "ollama" => WithOllama(transcription, s.model, s.title, post)
    case _ => Rejected(UnsupportedPrefix + s.provider)
  }

  /** Any tag outside the six is rejected, with the wrapping prefix, before any request. */
  lemma UnsupportedProvider(transcription: string, o: Options, env: Env, post: Request -> HttpOutcome,
                            stringify: Json -> string)
    requires !Supported(Defaults(o, env).provider)
    ensures GenerateNotes(transcription, o, env, post, stringify) == Rejected(UnsupportedPrefix + o.apiProvider.value)
  {
  }

  const KeyRequired: string := "API key is required"
  const EndpointRequired: string := "API endpoint URL is required"
  const DefaultKeyMessage: string := KeyRequired + " in .env file (API_KEY)"
  const CustomKeyMessage: string := KeyRequired + " for custom provider"
  const CustomEndpointMessage: string := EndpointRequired + " for custom provider"

  /** The messages a handler may reject with: its credential messages or its own error prefix. */
  predicate HandlerMessage(m: string) {
    StartsWith(m, KeyRequired) || StartsWith(m, EndpointRequired) ||
    m == "OpenAI API key is required" || m == "Anthropic API key is required" ||
    StartsWith(m, "Default API error: ") || StartsWith(m, "Custom API error: ") ||
    StartsWith(m, "OpenAI API error: ") || StartsWith(m, "Anthropic API error: ")
  }

  /** No handler message starts like the wrapped one. */
  lemma HandlerMessageUnwrapped(m: string)
    requires HandlerMessage(m)
    ensures !StartsWith(m, "Notes generation failed: ")
  {
    var w := "Notes generation failed: ";
    if m == "OpenAI API key is required" {
      assert m[0] == 'O';
    } else if m == "Anthropic API key is required" {
      assert m[0] == 'A';
    } else if StartsWith(m, KeyRequired) {
      PrefixesDiffer(m, KeyRequired, w);
    } else if StartsWith(m, EndpointRequired) {
      PrefixesDiffer(m, EndpointRequired, w);
    } else if StartsWith(m, "Default API error: ") {
      PrefixesDiffer(m, "Default API error: ", w);
    } else if StartsWith(m, "Custom API error: ") {
      PrefixesDiffer(m, "Custom API error: ", w);
    } else if StartsWith(m, "OpenAI API error: ") {
      PrefixesDiffer(m, "OpenAI API error: ", w);
    } else {
      PrefixesDiffer(m, "Anthropic API error: ", w);
    }
  }

  /** Handler rejections keep their own messages: the prefix `Notes generation failed:` marks only the unsupported-provider error. */
  lemma OnlyUnsupportedWrapped(transcription: string, o: Options, env: Env, post: Request -> HttpOutcome,
                               stringify: Json -> string)
    requires GenerateNotes(transcription, o, env, post, stringify).Rejected?
    ensures var m := GenerateNotes(transcription, o, env, post, stringify).message;
      if Supported(Defaults(o, env).provider) then HandlerMessage(m) && !StartsWith(m, "Notes generation failed: ")
      else m == UnsupportedPrefix + Defaults(o, env).provider
  {
    var m := GenerateNotes(transcription, o, env, post, stringify).message;
    StartsWithAppend(KeyRequired, " in .env file (API_KEY)");
    StartsWithAppend(KeyRequired, " for custom provider");
    StartsWithAppend(EndpointRequired, " for custom provider");
    if Supported(Defaults(o, env).provider) {
      assert HandlerMessage(m);
      HandlerMessageUnwrapped(m);
    }
  }

  /** A falsy key is rejected by the four keyed handlers before any request: the HTTP outcome cannot matter. */
  lemma FalsyKeyRejected(transcription: string, o: Options, env: Env, post1: Request -> HttpOutcome,
                         post2: Request -> HttpOutcome, stringify: Json -> string)
    requires var s := Defaults(o, env);
      (s.provider == "default" || s.provider == "custom" || s.provider == "openai" || s.provider == "anthropic") &&
      !Truthy(s.apiKey)
    ensures GenerateNotes(transcription, o, env, post1, stringify).Rejected?
    ensures GenerateNotes(transcription, o, env, post1, stringify) == GenerateNotes(transcription, o, env, post2, stringify)
  {
  }

  /** The custom provider also rejects an empty endpoint before any request. */
  lemma CustomNeedsEndpoint(transcription: string, o: Options, env: Env, post: Request -> HttpOutcome,
                            stringify: Json -> string)
    requires o.apiProvider == Some("custom") && Truthy(Defaults(o, env).apiKey) && o.apiEndpoint == Some("")
    ensures GenerateNotes(transcription, o, env, post, stringify) == Rejected(CustomEndpointMessage)
  {
  }

  /** The default provider posts to the normalised endpoint with the model from the options, the environment, or `gemini-2.0-flash`. */
  lemma DefaultRequest(transcription: string, o: Options, env: Env, post: Request -> HttpOutcome,
                       stringify: Json -> string)
    requires o.apiProvider.None? || o.apiProvider == Some("default")
    requires Truthy(Defaults(o, env).apiKey)
    ensures var s := Defaults(o, env);
      var req := Request(DefaultUrl(s.apiEndpoint), s.model, Bearer(s.apiKey.value), s.title, transcription);
      GenerateNotes(transcription, o, env, post, stringify) ==
        match post(req)
        case Response(data) => Settle("Default API error: ", ChoicesContent(data))
        case e => Rethrow("Default API error: ", e)
  {
  }

  /** The custom provider's model is the model name when it is non-empty, else the model. */
  lemma CustomModelName(transcription: string, o: Options, env: Env, post: Request -> HttpOutcome,
                        stringify: Json -> string)
    requires o.apiProvider == Some("custom") && Truthy(Defaults(o, env).apiKey)
    requires Defaults(o, env).apiEndpoint != ""
    ensures var s := Defaults(o, env);
      var name := if Truthy(o.apiModelName) then o.apiModelName.value else s.model;
      var req := Request(s.apiEndpoint, name, Bearer(s.apiKey.value), s.title, transcription);
      GenerateNotes(transcription, o, env, post, stringify) ==
        match post(req)
        case Response(data) => Settle("Custom API error: ", CustomExtract(data, stringify))
        case e => Rethrow("Custom API error: ", e)
  {
  }

  /** `local` always, and `ollama` whenever its call fails, fulfil with the mock notes; neither rejects. */
  lemma LocalAndOllamaNeverReject(transcription: string, o: Options, env: Env, post: Request -> HttpOutcome,
                                  stringify: Json -> string)
    requires o.apiProvider == Some("local") || o.apiProvider == Some("ollama")
    ensures GenerateNotes(transcription, o, env, post, stringify).Fulfilled?
    ensures o.apiProvider == Some("local") ==>
      GenerateNotes(transcription, o, env, post, stringify) == Fulfilled(Some(JStr(MockNotes(Defaults(o, env).title, transcription))))
    ensures (o.apiProvider == Some("ollama") &&
             post(Request(OllamaUrl, Defaults(o, env).model, NoAuth, Defaults(o, env).title, transcription)).HttpError?) ==>
      GenerateNotes(transcription, o, env, post, stringify) == Fulfilled(Some(JStr(MockNotes(Defaults(o, env).title, transcription))))
  {
  }

  // ----------------------------------------------------------- mock notes


  /** The first 20 space-separated words of the transcription, rejoined, and an ellipsis. */
  function Excerpt(transcription: string): string
  {
    var words := Split(transcription, ' ');
    Join(words[..Min(20, |words|)], " ") + "..."
  }

  /** The excerpt is a prefix of the transcription followed by `...`; with at most 20 words it is the whole transcription. */
  lemma ExcerptIsPrefix(transcription: string)
    ensures EndsWith(Excerpt(transcription), "...")
    ensures StartsWith(transcription, Excerpt(transcription)[..|Excerpt(transcription)| - 3])
    ensures |Split(transcription, ' ')| <= 20 ==> Excerpt(transcription) == transcription + "..."
  {
    var words := Split(transcription, ' ');
    var k := Min(20, |words|);
    var j := Join(words[..k], " ");
    JoinSplitPrefix(transcription, ' ', k);
    var e := Excerpt(transcription);
    assert e == j + "...";
    assert e[..|e| - 3] == j;
    assert e[|e| - 3..] == "...";
    if |words| <= 20 {
      assert words[..k] == words;
      JoinSplit(transcription, ' ');
    }
  }

  const IntroHeading: string := "\n\n## Introduction\n"
  const IntroText: string := "- This lecture covers important concepts in the field\n- The speaker begins by introducing the topic: \""
  const MockIntro: string := IntroHeading + IntroText
  const MockBody: string := "\"\n- We'll explore key ideas and their applications\n\n## Main Concepts\n### First Key Concept\n- Detailed explanation of the concept\n- Examples and applications\n- Connection to previous material\n\n### Second Key Concept\n- Analysis of the second concept\n- Step-by-step breakdown\n- Important formulas and equations\n\n## Case Studies\n1. **Real-world Application**: How these concepts apply in practice\n   - Results and outcomes\n   - Lessons learned\n\n2. **Alternative Approaches**: Different perspectives on the topic\n   - Comparative analysis\n   - Advantages and limitations\n\n## Summary\n- The lecture covered several important concepts\n- These ideas form the foundation for future topics\n- Key takeaways include understanding the relationship between concepts\n\n## References\n1. Referenced works mentioned in the lecture\n2. Additional resources for further study\n\n---\n*Notes generated by Lectura - AI-powered Lecture Notes Generator*"

  /** `generateMockNotes(title, transcription)`. */
  function MockNotes(title: string, transcription: string): string
  {
    "# " + title + MockIntro + Excerpt(transcription) + MockBody
  }

  /** The mock notes open with the title heading. */
  lemma MockNotesHeading(title: string, transcription: string)
    ensures StartsWith(MockNotes(title, transcription), "# " + title + IntroHeading)
  {
    MockShape(title, transcription, MockBody);
  }

  /** The mock notes quote the excerpt right after the fixed introduction, and the excerpt is a prefix of the transcription. */
  lemma MockNotesQuote(title: string, transcription: string)
    ensures var n := MockNotes(title, transcription);
      var at := |"# " + title + MockIntro|;
      n[at..at + |Excerpt(transcription)|] == Excerpt(transcription) &&
      StartsWith(transcription, n[at..at + |Excerpt(transcription)| - 3])
  {
    MockShape(title, transcription, MockBody);
  }

  /** The shape of the mock notes, whatever fixed text follows the excerpt. */
  lemma MockShape(title: string, transcription: string, body: string)
    ensures var n := "# " + title + MockIntro + Excerpt(transcription) + body;
      var at := |"# " + title + MockIntro|;
      StartsWith(n, "# " + title + IntroHeading) &&
      n[at..at + |Excerpt(transcription)|] == Excerpt(transcription) &&
      StartsWith(transcription, n[at..at + |Excerpt(transcription)| - 3])
  {
    var n := "# " + title + MockIntro + Excerpt(transcription) + body;
    var h := "# " + title + MockIntro;
    var e := Excerpt(transcription);
    Regroup("# " + title, IntroHeading, IntroText, e, body);
    StartsWithAppend("# " + title + IntroHeading, IntroText + e + body);
    SliceMiddle(h, e, body);
    ExcerptIsPrefix(transcription);
    assert n[|h|..|h| + |e| - 3] == e[..|e| - 3];
  }

  lemma Regroup(a: string, c: string, d: string, e: string, f: string)
    ensures a + (c + d) + e + f == (a + c) + (d + e + f)
  {
  }
}
