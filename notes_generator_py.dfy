/**
 * The Python notes generator run by the processing pipeline: it fills in
 * the `default` provider's settings from the environment, dispatches on the
 * provider, and never raises: every failure yields the mock notes. Every
 * result starts with `# {title}`. Provider calls are oracles.
 */
module NotesGeneratorPy {
  import opened Wrappers
  import opened Strings
  import opened Json
  import opened NodePath

  /** The arguments of `generate_notes` after the transcription and title. */
  datatype Args = Args(provider: string, model: Option<string>, apiKey: Option<string>,
                       apiEndpoint: Option<string>, apiModelName: Option<string>)

  /** `API_KEY`, `API_MODEL` and `API_BASE_URL`; `None` when the variable is not set. */
  datatype Env = Env(apiKey: Option<string>, apiModel: Option<string>, apiBaseUrl: Option<string>)

  /** One argument filled from the environment: a falsy argument is replaced by a variable that is set. */
  function Fill(arg: Option<string>, env: Option<string>): Option<string>
  {
    if !Truthy(arg) && env.Some? then env else arg
  }

  /** The environment step of `generate_notes`. */
  function FillFromEnv(a: Args, env: Env): (r: Args)
    ensures a.provider != "default" ==> r == a
    ensures r.provider == a.provider && r.apiModelName == a.apiModelName
    ensures Truthy(a.apiKey) ==> r.apiKey == a.apiKey
    ensures Truthy(a.model) ==> r.model == a.model
    ensures Truthy(a.apiEndpoint) ==> r.apiEndpoint == a.apiEndpoint
    ensures a.provider == "default" && !Truthy(a.apiKey) && env.apiKey.Some? ==> r.apiKey == env.apiKey
    ensures a.provider == "default" && !Truthy(a.model) && env.apiModel.Some? ==> r.model == env.apiModel
    ensures a.provider == "default" && !Truthy(a.apiEndpoint) && env.apiBaseUrl.Some? ==> r.apiEndpoint == env.apiBaseUrl
  {
    if a.provider == "default" then
      a.(apiKey := Fill(a.apiKey, env.apiKey), model := Fill(a.model, env.apiModel),
         apiEndpoint := Fill(a.apiEndpoint, env.apiBaseUrl))
    else a
  }

  // ---------------------------------------------------------- provider calls

  /** A POST to an OpenAI-compatible endpoint (or to Ollama, with no key). */
  datatype HttpCall = HttpCall(endpoint: string, model: string, apiKey: Option<string>, title: string, transcription: string)

  /** The POST raised, or it answered a status and a body that parses as JSON (`None` when it does not). */
  datatype HttpReply = HttpRaised(message: string) | HttpReplied(status: int, body: Option<Json>)

  datatype SdkCall =
    | OpenAICall(model: string, apiKey: Option<string>, title: string, transcription: string)
    | AnthropicCall(model: string, apiKey: Option<string>, title: string, transcription: string)

  /** The SDK call raised, or it returned a message whose text is `None` when it is not a string. */
  datatype SdkReply = SdkRaised(message: string) | SdkText(content: Option<string>)

  const GoogleEndpoint: string := "https://generativelanguage.googleapis.com/v1beta/openai/"
  const ChatSuffix: string := "/chat/completions"
  const OllamaEndpoint: string := "http://localhost:11434/api/generate"

  /** `api_endpoint.rstrip('/')`, then `/chat/completions` appended unless already there. */
  function NormalizeEndpoint(e: string): (r: string)
    ensures EndsWith(r, ChatSuffix)
    ensures StartsWith(r, TrimRight(e, IsSlash))
  {
    var stripped := TrimRight(e, IsSlash);
    if EndsWith(stripped, ChatSuffix) then stripped
    else
      StartsWithAppend(stripped, ChatSuffix);
      EndsWithAppend(stripped, ChatSuffix);
      stripped + ChatSuffix
  }

  /** Normalising a normalised endpoint changes nothing. */
  lemma NormalizeEndpointIdempotent(e: string)
    ensures NormalizeEndpoint(NormalizeEndpoint(e)) == NormalizeEndpoint(e)
  {
    var r := NormalizeEndpoint(e);
    assert r[|r| - 1] == 's' by {
      assert r[|r| - |ChatSuffix|..] == ChatSuffix;
      assert r[|r| - 1] == r[|r| - |ChatSuffix|..][|ChatSuffix| - 1];
    }
    assert TrimRight(r, IsSlash) == r;
  }

  /** The title rule: `# {title}\n\n` is put in front unless the notes already start with `# {title}`. */
  function TitleRule(notes: string, title: string): (r: string)
    ensures StartsWith(r, "# " + title)
    ensures StartsWith(notes, "# " + title) ==> r == notes
    ensures !StartsWith(notes, "# " + title) ==> EndsWith(r, notes)
  {
    if StartsWith(notes, "# " + title) then notes
    else
      StartsWithAppend("# " + title, "\n\n" + notes);
      EndsWithAppend("# " + title + "\n\n", notes);
      assert "# " + title + "\n\n" + notes == ("# " + title) + ("\n\n" + notes);
      "# " + title + "\n\n" + notes
  }

  lemma TitleRuleIdempotent(notes: string, title: string)
    ensures TitleRule(TitleRule(notes, title), title) == TitleRule(notes, title)
  {
  }

  // ---------------------------------------------------------- mock notes

  /** `transcription.split('.')[:5]`. */
  function SummaryPieces(transcription: string): seq<string>
  {
    var pieces := Split(transcription, '.');
    pieces[..Min(5, |pieces|)]
  }

  /** `'. '.join(sentences) + '.'`. */
  function MockSummary(transcription: string): string
  {
    Join(SummaryPieces(transcription), ". ") + "."
  }

  /**
   * The summary re-spaces at most five leading sentences of the
   * transcription: the pieces contain no `.`, and joined with `.` they are a
   * prefix of the transcription; a transcription without `.` is quoted whole.
   */
  lemma MockSummaryShape(transcription: string)
    ensures 1 <= |SummaryPieces(transcription)| <= 5
    ensures forall i :: 0 <= i < |SummaryPieces(transcription)| ==> '.' !in SummaryPieces(transcription)[i]
    ensures StartsWith(transcription, Join(SummaryPieces(transcription), "."))
    ensures EndsWith(MockSummary(transcription), ".")
    ensures '.' !in transcription ==> MockSummary(transcription) == transcription + "."
  {
    var pieces := Split(transcription, '.');
    JoinSplitPrefix(transcription, '.', Min(5, |pieces|));
    EndsWithAppend(Join(SummaryPieces(transcription), ". "), ".");
    if '.' !in transcription {
      SplitNoSeparator(transcription, '.');
      assert SummaryPieces(transcription) == [transcription];
    }
  }

  const IntroPy: string := "\n\n## Introduction\n"
  const KeyPointsPy: string := "\n\n## Key Points\n- First important concept from the lecture\n- Second key point discussed\n- Third significant idea presented\n\n## Details\n\n### Topic 1\n- Detail about the first topic\n- Supporting information\n- Examples mentioned\n\n### Topic 2\n- Analysis of the second topic\n- Related concepts\n- Practical applications\n\n## Summary\n\nThis lecture covered several important concepts related to "
  const ClosingPy: string := ". The main takeaways include understanding the core principles, their applications, and how they relate to the broader field.\n\n---\n*Notes generated by Lectura*\n"

  /** Everything after the summary. */
  function MockTail(title: string): string
  {
    KeyPointsPy + title + ClosingPy
  }

  /** `mock_notes(transcription, title)`. */
  function MockNotes(transcription: string, title: string): string
  {
    "# " + title + IntroPy + MockSummary(transcription) + MockTail(title)
  }

  /** The mock notes open with the title and the introduction heading, with the summary right below. */
  lemma MockNotesShape(transcription: string, title: string)
    ensures StartsWith(MockNotes(transcription, title), "# " + title + IntroPy)
    ensures StartsWith(MockNotes(transcription, title), "# " + title)
    ensures var at := |"# " + title + IntroPy|;
      MockNotes(transcription, title)[at..at + |MockSummary(transcription)|] == MockSummary(transcription)
  {
    var head := "# " + title + IntroPy;
    var n := MockNotes(transcription, title);
    assert n == head + (MockSummary(transcription) + MockTail(title));
    StartsWithAppend(head, MockSummary(transcription) + MockTail(title));
    StartsWithAppend("# " + title, IntroPy);
    StartsWithTrans(n, head, "# " + title);
    SliceMiddle(head, MockSummary(transcription), MockTail(title));
  }

  // ---------------------------------------------------------- handlers

  /** What the chat-completions reply yields: `data.get("choices", [{}])[0].get("message", {}).get("content", "")`,
    * kept only when it is a non-empty string (anything else either raises or is falsy). */
  function ChatContent(data: Json): (r: Option<string>)
    ensures r.Some? ==> r.value != ""
    ensures data.JObj? && "choices" !in data.fields ==> r == None
  {
    match data
    case JObj(f) =>
      var choices := if "choices" in f then f["choices"] else JArr([JObj(map[])]);
      (match choices
       case JArr(items) =>
         if |items| == 0 then None
         else
           (match items[0]
            case JObj(g) =>
              var message := if "message" in g then g["message"] else JObj(map[]);
              (match message
               case JObj(h) =>
                 if "content" in h && h["content"].JStr? && h["content"].s != "" then Some(h["content"].s) else None
               case _ => None)
            case _ => None)
       case _ => None)
    case _ => None
  }

  lemma ChatContentStandard(content: string)
    requires content != ""
    ensures ChatContent(JObj(map["choices" := JArr([JObj(map["message" := JObj(map["content" := JStr(content)])])])])) == Some(content)
  {
  }

  /** `generate_with_custom_api`. */
  function WithCustomApi(transcription: string, title: string, apiKey: Option<string>, endpoint: string,
                         modelName: string, post: HttpCall -> HttpReply): string
  {
    match post(HttpCall(NormalizeEndpoint(endpoint), modelName, apiKey, title, transcription))
    case HttpRaised(_) => MockNotes(transcription, title)
    case HttpReplied(status, body) =>
      if status != 200 || body.None? then MockNotes(transcription, title)
      else
        match ChatContent(body.value)
        case None => MockNotes(transcription, title)
        case Some(notes) => TitleRule(notes, title)
  }

  /** `generate_with_openai` and `generate_with_anthropic`: the stripped text under the title rule, mock notes on any failure. */
  function WithSdk(transcription: string, title: string, call: SdkCall, sdk: SdkCall -> SdkReply): string
  {
    match sdk(call)
    case SdkText(Some(content)) => TitleRule(StripPy(content), title)
    case _ => MockNotes(transcription, title)
  }

  /** `generate_with_ollama`, which no provider reaches. */
  function WithOllama(transcription: string, title: string, model: string, post: HttpCall -> HttpReply): string
  {
    match post(HttpCall(OllamaEndpoint, model, None, title, transcription))
    case HttpReplied(200, Some(JObj(f))) =>
      if "response" !in f then TitleRule("", title)
      else if f["response"].JStr? then TitleRule(StripPy(f["response"].s), title)
      else MockNotes(transcription, title)
    case _ => MockNotes(transcription, title)
  }

  /** The unreachable Ollama handler would also always produce notes under the title heading. */
  lemma OllamaTitled(transcription: string, title: string, model: string, post: HttpCall -> HttpReply)
    ensures StartsWith(WithOllama(transcription, title, model, post), "# " + title)
  {
    MockNotesShape(transcription, title);
  }

  /** `generate_notes(transcription, title, ...)`. */
  function GenerateNotes(transcription: string, title: string, args: Args, env: Env,
                         post: HttpCall -> HttpReply, sdk: SdkCall -> SdkReply): string
  {
    var a := FillFromEnv(args, env);
    if a.provider == "default" || a.provider == "custom" then
      WithCustomApi(transcription, title, a.apiKey, OrDefault(a.apiEndpoint, GoogleEndpoint),
                    OrDefault(OrElse(a.model, a.apiModelName), "gemini-2.0-flash"), post)
    else if a.provider == "openai" then
      WithSdk(transcription, title, OpenAICall(OrDefault(a.model, "gpt-4o"), a.apiKey, title, transcription), sdk)
    else if a.provider == "anthropic" then
      WithSdk(transcription, title, AnthropicCall(OrDefault(a.model, "claude-3.7-sonnet"), a.apiKey, title, transcription), sdk)
    else
      // `local` (its `mixtral-8x7b` model is never used) and every other tag, `ollama` included.
      MockNotes(transcription, title)
  }

  /** Whatever the provider and whatever the calls return, the notes start with `# {title}`. */
  lemma AlwaysTitled(transcription: string, title: string, args: Args, env: Env,
                     post: HttpCall -> HttpReply, sdk: SdkCall -> SdkReply)
    ensures StartsWith(GenerateNotes(transcription, title, args, env, post, sdk), "# " + title)
  {
    MockNotesShape(transcription, title);
  }

  /** `default` and `custom` post to the normalised endpoint (Google's by default) with the first truthy model name. */
  lemma CustomRouting(transcription: string, title: string, args: Args, env: Env,
                      post: HttpCall -> HttpReply, sdk: SdkCall -> SdkReply)
    requires args.provider == "custom"
    ensures var endpoint := if Truthy(args.apiEndpoint) then args.apiEndpoint.value else GoogleEndpoint;
      var model := if Truthy(args.model) then args.model.value
                   else if Truthy(args.apiModelName) then args.apiModelName.value else "gemini-2.0-flash";
      GenerateNotes(transcription, title, args, env, post, sdk) ==
        WithCustomApi(transcription, title, args.apiKey, endpoint, model, post)
  {
  }

  /** `openai` and `anthropic` default their models; `local`, `ollama` and unknown tags give the mock notes. */
  lemma OtherRouting(transcription: string, title: string, args: Args, env: Env,
                     post: HttpCall -> HttpReply, sdk: SdkCall -> SdkReply)
    ensures args.provider == "openai" && !Truthy(args.model) ==>
      GenerateNotes(transcription, title, args, env, post, sdk) ==
        WithSdk(transcription, title, OpenAICall("gpt-4o", args.apiKey, title, transcription), sdk)
    ensures args.provider == "anthropic" && !Truthy(args.model) ==>
      GenerateNotes(transcription, title, args, env, post, sdk) ==
        WithSdk(transcription, title, AnthropicCall("claude-3.7-sonnet", args.apiKey, title, transcription), sdk)
    ensures args.provider !in {"default", "custom", "openai", "anthropic"} ==>
      GenerateNotes(transcription, title, args, env, post, sdk) == MockNotes(transcription, title)
  {
  }

  /** The environment matters only to `default`. */
  lemma EnvOnlyForDefault(transcription: string, title: string, args: Args, env1: Env, env2: Env,
                          post: HttpCall -> HttpReply, sdk: SdkCall -> SdkReply)
    requires args.provider != "default"
    ensures GenerateNotes(transcription, title, args, env1, post, sdk) == GenerateNotes(transcription, title, args, env2, post, sdk)
  {
  }

  /** A raised POST, a status other than 200, a body that is not JSON or a reply without content text gives the mock notes. */
  lemma CustomApiFallback(transcription: string, title: string, apiKey: Option<string>, endpoint: string,
                          modelName: string, post: HttpCall -> HttpReply)
    ensures var reply := post(HttpCall(NormalizeEndpoint(endpoint), modelName, apiKey, title, transcription));
      (reply.HttpRaised? || reply.status != 200 || reply.body.None? || ChatContent(reply.body.value).None?) ==>
        WithCustomApi(transcription, title, apiKey, endpoint, modelName, post) == MockNotes(transcription, title)
    ensures var reply := post(HttpCall(NormalizeEndpoint(endpoint), modelName, apiKey, title, transcription));
      (reply.HttpReplied? && reply.status == 200 && reply.body.Some? && ChatContent(reply.body.value).Some?) ==>
        WithCustomApi(transcription, title, apiKey, endpoint, modelName, post) == TitleRule(ChatContent(reply.body.value).value, title)
  {
  }
}
