/**
 * The second chat-model note generator: the same prompt and error text as
 * the first, a lower temperature, and a built-in default model name.
 */
module GeneratorsNoteGenerator {
  import opened Wrappers
  import opened Json
  import NG = NoteGenerator

  const DefaultModel: string := "meta-llama/Llama-3.2-3B-Instruct"

  datatype Config = Config(apiKey: Option<string>, model: string, baseUrl: Option<string>)

  /**
   * The constructor's settings: each argument, else its environment
   * variable; the model falls back to the built-in name only when
   * `API_MODEL` is not set at all.
   */
  function Configure(apiKey: Option<string>, model: Option<string>, baseUrl: Option<string>, env: NG.EnvVars): (c: Config)
    ensures Truthy(model) ==> c.model == model.value
    ensures !Truthy(model) && env.apiModel.Some? ==> c.model == env.apiModel.value
    ensures !Truthy(model) && env.apiModel.None? ==> c.model == DefaultModel
    ensures Truthy(apiKey) ==> c.apiKey == apiKey
    ensures !Truthy(apiKey) ==> c.apiKey == env.apiKey
    ensures Truthy(baseUrl) ==> c.baseUrl == baseUrl
    ensures !Truthy(baseUrl) ==> c.baseUrl == env.apiBaseUrl
  {
    Config(OrElse(apiKey, env.apiKey), OrDefault(model, env.apiModel.GetOr(DefaultModel)), OrElse(baseUrl, env.apiBaseUrl))
  }

  /** Key and base URL are chosen as by the first generator; the model differs only where it falls back to the built-in name. */
  lemma SameSettingsAsFirst(apiKey: Option<string>, model: Option<string>, baseUrl: Option<string>, env: NG.EnvVars)
    ensures var c := Configure(apiKey, model, baseUrl, env);
      var d := NG.Configure(apiKey, model, baseUrl, env);
      c.apiKey == d.apiKey && c.baseUrl == d.baseUrl &&
      (d.model.Some? ==> c.model == d.model.value) && (d.model.None? ==> c.model == DefaultModel)
  {
  }

  class Generator {
    const config: Config

    /** `NoteGenerator(api_key, model, base_url)`. */
    constructor(apiKey: Option<string>, model: Option<string>, baseUrl: Option<string>, env: NG.EnvVars)
      ensures config == Configure(apiKey, model, baseUrl, env)
    {
      config := Configure(apiKey, model, baseUrl, env);
    }

    /** `generate_notes(transcript, slides)`: the shared prompt sent at temperature 0.3; a raised call gives the error text. */
    method GenerateNotes(transcript: Json, slides: Option<seq<map<string, Json>>>, repr: Json -> string,
                         chat: NG.ChatRequest -> NG.ChatReply) returns (notes: Option<string>)
      ensures notes == NG.NotesFor(chat(NG.ChatRequest(Some(config.model), config.baseUrl,
                                        NG.Prompt(NG.SlidesContent(slides, repr), NG.TranscriptText(transcript, repr)), 0.3)))
    {
      var text := NG.TranscriptText(transcript, repr);
      var slidesContent := NG.Generator.BuildSlidesContent(slides, repr);
      var prompt := NG.Prompt(slidesContent, text);
      var reply := chat(NG.ChatRequest(Some(config.model), config.baseUrl, prompt, 0.3));
      notes := NG.NotesFor(reply);
    }
  }
}
