/**
 * The chat-model note generator: it takes its settings from its arguments
 * or the environment, builds a prompt from the slides and the transcript
 * text, returns the model's reply or an error text, and aligns transcript
 * segments with the slides they fall in.
 */
module NoteGenerator {
  import opened Wrappers
  import opened Strings
  import opened Json
  import LP = LectureProcessor

  // ------------------------------------------------------------ settings

  /** `API_KEY`, `API_MODEL` and `API_BASE_URL`; `None` when not set. */
  datatype EnvVars = EnvVars(apiKey: Option<string>, apiModel: Option<string>, apiBaseUrl: Option<string>)

  datatype Config = Config(apiKey: Option<string>, model: Option<string>, baseUrl: Option<string>)

  /** The constructor's settings: each argument, or the environment variable when the argument is falsy. */
  function Configure(apiKey: Option<string>, model: Option<string>, baseUrl: Option<string>, env: EnvVars): (c: Config)
    ensures Truthy(apiKey) ==> c.apiKey == apiKey
    ensures Truthy(model) ==> c.model == model
    ensures Truthy(baseUrl) ==> c.baseUrl == baseUrl
    ensures !Truthy(apiKey) ==> c.apiKey == env.apiKey
    ensures !Truthy(model) ==> c.model == env.apiModel
    ensures !Truthy(baseUrl) ==> c.baseUrl == env.apiBaseUrl
  {
    Config(OrElse(apiKey, env.apiKey), OrElse(model, env.apiModel), OrElse(baseUrl, env.apiBaseUrl))
  }

  // ------------------------------------------------------------ prompt

  /** Python's `str()` of a JSON value; the rendering of lists and dicts is a parameter. */
  function PyFormat(v: Json, repr: Json -> string): string
  {
    match v
    case JStr(s) => s
    case JNum(n) => IntToString(n)
    case JBool(b) => if b then "True" else "False"
    case JNull => "None"
    case _ => repr(v)
  }

  /** The transcript text: the `text` entry of a dict that has one, otherwise the whole transcript as a string. */
  function TranscriptText(transcript: Json, repr: Json -> string): (r: string)
    ensures transcript.JObj? && "text" in transcript.fields && transcript.fields["text"].JStr? ==>
      r == transcript.fields["text"].s
    ensures transcript.JStr? ==> r == transcript.s
  {
    if transcript.JObj? && "text" in transcript.fields then PyFormat(transcript.fields["text"], repr)
    else PyFormat(transcript, repr)
  }

  function Get(slide: map<string, Json>, key: string, default: Json): Json
  {
    if key in slide then slide[key] else default
  }

  /** `Slide {n}: {content}` and a blank line. */
  function SlideLine(slide: map<string, Json>, repr: Json -> string): string
  {
    "Slide " + PyFormat(Get(slide, "slide_number", JStr("unknown")), repr) + ": " +
      PyFormat(Get(slide, "content", JStr("")), repr) + "\n\n"
  }

  function SlideLines(slides: seq<map<string, Json>>, repr: Json -> string): string
    decreases |slides|
  {
    if |slides| == 0 then "" else SlideLines(slides[..|slides| - 1], repr) + SlideLine(slides[|slides| - 1], repr)
  }

  lemma SlideLinesSnoc(slides: seq<map<string, Json>>, i: nat, repr: Json -> string)
    requires i < |slides|
    ensures SlideLines(slides[..i + 1], repr) == SlideLines(slides[..i], repr) + SlideLine(slides[i], repr)
  {
    assert slides[..i + 1][..i] == slides[..i];
  }

  lemma AppendStep(start: string, content: string, slides: seq<map<string, Json>>, i: nat, repr: Json -> string)
    requires i < |slides| && content == start + SlideLines(slides[..i], repr)
    ensures content + SlideLine(slides[i], repr) == start + SlideLines(slides[..i + 1], repr)
  {
    SlideLinesSnoc(slides, i, repr);
    AppendAssoc(start, SlideLines(slides[..i], repr), SlideLine(slides[i], repr));
  }

  const SlidesHeader: string := "Slide information:\n"

  /** The slides part of the prompt: nothing without slides, else the header and one line per slide in order. */
  function SlidesContent(slides: Option<seq<map<string, Json>>>, repr: Json -> string): string
  {
    if slides.None? || |slides.value| == 0 then "" else SlidesHeader + SlideLines(slides.value, repr)
  }

  /** Every slide line ends with a blank line, and a slide without a number or content reads `Slide unknown: `. */
  lemma SlideLineDefaults(slide: map<string, Json>, repr: Json -> string)
    ensures EndsWith(SlideLine(slide, repr), "\n\n")
    ensures "slide_number" !in slide && "content" !in slide ==> SlideLine(slide, repr) == "Slide unknown: \n\n"
  {
    var a := "Slide " + PyFormat(Get(slide, "slide_number", JStr("unknown")), repr) + ": " +
      PyFormat(Get(slide, "content", JStr("")), repr);
    EndsWithAppend(a, "\n\n");
  }

  /** The slides part is empty exactly when there are no slides; otherwise it is the header, then the slides' lines in order. */
  lemma {:induction false} SlidesContentShape(slides: seq<map<string, Json>>, repr: Json -> string)
    ensures SlidesContent(Some(slides), repr) == "" <==> |slides| == 0
    ensures |slides| > 0 ==> StartsWith(SlidesContent(Some(slides), repr), SlidesHeader)
    ensures |slides| > 0 ==> EndsWith(SlidesContent(Some(slides), repr), SlideLine(slides[|slides| - 1], repr))
    ensures |slides| > 0 ==> (SlidesContent(Some(slides), repr) ==
      SlidesContent(Some(slides[..|slides| - 1]), repr) + (if |slides| == 1 then SlidesHeader else "") + SlideLine(slides[|slides| - 1], repr))
  {
    if |slides| > 0 {
      var n := |slides| - 1;
      var last := SlideLine(slides[n], repr);
      var before := SlideLines(slides[..n], repr);
      SlideLinesSnoc(slides, n, repr);
      assert slides[..n + 1] == slides;
      assert SlidesContent(Some(slides), repr) == SlidesHeader + (before + last);
      HeaderJoin(SlidesHeader, before, last);
      if n == 0 {
        assert before == "";
        assert SlidesContent(Some(slides[..n]), repr) == "";
      } else {
        assert SlidesContent(Some(slides[..n]), repr) == SlidesHeader + before;
      }
    }
  }

  /** A header followed by some text and a last piece starts with the header and ends with the piece. */
  lemma HeaderJoin(header: string, before: string, last: string)
    ensures StartsWith(header + (before + last), header)
    ensures EndsWith(header + (before + last), last)
    ensures header + (before + last) == (header + before) + last
  {
    StartsWithAppend(header, before + last);
    AppendAssoc(header, before, last);
    EndsWithAppend(header + before, last);
  }

  const PromptHead: string := "\n        You are an expert note-taker. Create comprehensive, well-structured notes from the following lecture transcript.\n        \n        "
  const PromptMiddle: string := "\n        \n        Transcript:\n        "
  const PromptTail: string := "\n        \n        Please organize the notes with:\n        1. A clear title\n        2. Main topics with headings\n        3. Key points under each topic\n        4. Important definitions or concepts\n        5. A brief summary at the end\n        \n        Format the notes in Markdown.\n        "

  function Prompt(slidesContent: string, transcriptText: string): string
  {
    PromptHead + slidesContent + PromptMiddle + transcriptText + PromptTail
  }

  /** The prompt holds the slides part right after its opening and the transcript text after that. */
  lemma PromptOrder(slidesContent: string, transcriptText: string)
    ensures var p := Prompt(slidesContent, transcriptText);
      var s := |PromptHead|;
      var t := s + |slidesContent| + |PromptMiddle|;
      t + |transcriptText| <= |p| &&
      p[s..s + |slidesContent|] == slidesContent && p[t..t + |transcriptText|] == transcriptText
  {
    FiveParts(PromptHead, slidesContent, PromptMiddle, transcriptText, PromptTail);
  }

  /** Where the second and fourth of five joined texts sit. */
  lemma FiveParts(a: string, b: string, c: string, d: string, e: string)
    ensures var p := a + b + c + d + e;
      var t := |a| + |b| + |c|;
      t + |d| <= |p| && p[|a|..|a| + |b|] == b && p[t..t + |d|] == d
  {
    var p := a + b + c + d + e;
    SliceMiddle(a, b, c + d + e);
    AppendAssoc(a + b, c + d, e);
    assert p == a + b + (c + d + e);
    SliceMiddle(a + b + c, d, e);
  }

  // ------------------------------------------------------------ the model call

  datatype ChatRequest = ChatRequest(model: Option<string>, baseUrl: Option<string>, prompt: string, temperature: real)

  /** The call raised, or it returned a message whose content may be `None`. */
  datatype ChatReply = ChatRaised(message: string) | ChatContent(content: Option<string>)

  const ErrorPrefix: string := "Error generating notes: "

  /** The notes returned for a reply: its content as it is, or an error text; nothing is raised. */
  function NotesFor(reply: ChatReply): (r: Option<string>)
    ensures reply.ChatRaised? ==> r.Some? && StartsWith(r.value, ErrorPrefix) && r.value[|ErrorPrefix|..] == reply.message
    ensures reply.ChatContent? ==> r == reply.content
  {
    match reply
    case ChatRaised(m) =>
      StartsWithAppend(ErrorPrefix, m);
      Some(ErrorPrefix + m)
    case ChatContent(c) => c
  }

  class Generator {
    const config: Config

    /** `NoteGenerator(api_key, model, base_url)`. */
    constructor(apiKey: Option<string>, model: Option<string>, baseUrl: Option<string>, env: EnvVars)
      ensures config == Configure(apiKey, model, baseUrl, env)
    {
      config := Configure(apiKey, model, baseUrl, env);
    }

    /** The slides part of the prompt, accumulated slide by slide. */
    static method BuildSlidesContent(slides: Option<seq<map<string, Json>>>, repr: Json -> string) returns (content: string)
      ensures content == SlidesContent(slides, repr)
    {
      content := "";
      if slides.Some? && |slides.value| > 0 {
        content := AppendSlideLines(SlidesHeader, slides.value, repr);
      }
    }

    /** `content += f"Slide {n}: {content}\n\n"` for each slide in turn. */
    static method AppendSlideLines(start: string, slides: seq<map<string, Json>>, repr: Json -> string) returns (content: string)
      ensures content == start + SlideLines(slides, repr)
    {
      content := start;
      var i := 0;
      assert slides[..0] == [];
      while i < |slides|
        invariant 0 <= i <= |slides|
        invariant content == start + SlideLines(slides[..i], repr)
      {
        AppendStep(start, content, slides, i, repr);
        content := content + SlideLine(slides[i], repr);
        i := i + 1;
      }
      assert slides[..i] == slides;
    }

    /** `generate_notes(transcript, slides)`, with the chat call as a parameter. */
    method GenerateNotes(transcript: Json, slides: Option<seq<map<string, Json>>>, repr: Json -> string,
                         chat: ChatRequest -> ChatReply) returns (notes: Option<string>)
      ensures notes == NotesFor(chat(ChatRequest(config.model, config.baseUrl,
                                                 Prompt(SlidesContent(slides, repr), TranscriptText(transcript, repr)), 0.5)))
    {
      var text := TranscriptText(transcript, repr);
      var slidesContent := BuildSlidesContent(slides, repr);
      var prompt := Prompt(slidesContent, text);
      var reply := chat(ChatRequest(config.model, config.baseUrl, prompt, 0.5));
      notes := NotesFor(reply);
    }
  }

  // ------------------------------------------------------------ alignment

  datatype TimedText = TimedText(start: real, text: string)

  /** One item of the combined content. */
  datatype Item = Item(time: real, text: string, slideContext: string)

  /** The slide index after skipping, from `idx`, every slide that ended by `start`. */
  function Advance(slides: seq<LP.Slide>, idx: nat, start: real): (r: nat)
    requires idx <= |slides|
    ensures idx <= r <= |slides|
    ensures forall k :: idx <= k < r ==> slides[k].endTime <= start
    ensures r < |slides| ==> slides[r].endTime > start
    decreases |slides| - idx
  {
    if idx < |slides| && start >= slides[idx].endTime then Advance(slides, idx + 1, start) else idx
  }

  function Context(slides: seq<LP.Slide>, idx: nat): string
  {
    if idx < |slides| then slides[idx].content else ""
  }

  /** The items for `segments` when the slide index stands at `idx`. */
  function CombineFrom(segments: seq<TimedText>, slides: seq<LP.Slide>, idx: nat): seq<Item>
    requires idx <= |slides|
    decreases |segments|
  {
    if |segments| == 0 then []
    else
      var j := Advance(slides, idx, segments[0].start);
      [Item(segments[0].start, segments[0].text, Context(slides, j))] + CombineFrom(segments[1..], slides, j)
  }

  /** `_combine_content(transcript, slides)` over the transcript's segments. */
  function Combine(segments: seq<TimedText>, slides: seq<LP.Slide>): seq<Item>
  {
    CombineFrom(segments, slides, 0)
  }

  /** One item per segment, in order, carrying the segment's start and text; no slides means no context. */
  lemma {:induction false} CombineShape(segments: seq<TimedText>, slides: seq<LP.Slide>, idx: nat)
    requires idx <= |slides|
    ensures |CombineFrom(segments, slides, idx)| == |segments|
    ensures forall k :: 0 <= k < |segments| ==>
      CombineFrom(segments, slides, idx)[k].time == segments[k].start &&
      CombineFrom(segments, slides, idx)[k].text == segments[k].text
    ensures |slides| == 0 ==> forall k :: 0 <= k < |segments| ==> CombineFrom(segments, slides, idx)[k].slideContext == ""
    decreases |segments|
  {
    if |segments| > 0 {
      var j := Advance(slides, idx, segments[0].start);
      CombineShape(segments[1..], slides, j);
      var r := CombineFrom(segments, slides, idx);
      forall k | 1 <= k < |segments|
        ensures r[k] == CombineFrom(segments[1..], slides, j)[k - 1] && segments[k] == segments[1..][k - 1]
      {
      }
    }
  }

  /** The first slide that ends after `t`, or `|slides|` when there is none. */
  function FirstEndingAfter(slides: seq<LP.Slide>, t: real): nat
  {
    Advance(slides, 0, t)
  }

  /** When every slide before `idx` ended by `t`, advancing from `idx` finds the first slide ending after `t`. */
  lemma AdvanceFromPassed(slides: seq<LP.Slide>, idx: nat, t: real)
    requires idx <= |slides|
    requires forall k :: 0 <= k < idx ==> slides[k].endTime <= t
    ensures Advance(slides, idx, t) == FirstEndingAfter(slides, t)
  {
    var r := Advance(slides, idx, t);
    assert forall k :: 0 <= k < r ==> slides[k].endTime <= t;
  }

  predicate Chronological(segments: seq<TimedText>) {
    forall i, j :: 0 <= i <= j < |segments| ==> segments[i].start <= segments[j].start
  }

  /**
   * With segments in chronological order, the single forward pass gives
   * each segment the context of the first slide that ends after the segment
   * starts, exactly as a search from the first slide would.
   */
  lemma {:induction false} CombineFindsFirstSlide(segments: seq<TimedText>, slides: seq<LP.Slide>, idx: nat)
    requires idx <= |slides| && Chronological(segments)
    requires |segments| > 0 ==> forall k :: 0 <= k < idx ==> slides[k].endTime <= segments[0].start
    ensures |CombineFrom(segments, slides, idx)| == |segments|
    ensures forall k :: 0 <= k < |segments| ==>
      CombineFrom(segments, slides, idx)[k].slideContext == Context(slides, FirstEndingAfter(slides, segments[k].start))
    decreases |segments|
  {
    CombineShape(segments, slides, idx);
    if |segments| > 0 {
      var t := segments[0].start;
      var j := Advance(slides, idx, t);
      AdvanceFromPassed(slides, idx, t);
      var rest := segments[1..];
      assert Chronological(rest) by {
        forall a, b | 0 <= a <= b < |rest| ensures rest[a].start <= rest[b].start {
          assert rest[a] == segments[a + 1] && rest[b] == segments[b + 1];
        }
      }
      if |rest| > 0 {
        assert t <= rest[0].start by {
          assert rest[0] == segments[1];
        }
      }
      CombineFindsFirstSlide(rest, slides, j);
      var r := CombineFrom(segments, slides, idx);
      forall k | 1 <= k < |segments|
        ensures r[k].slideContext == Context(slides, FirstEndingAfter(slides, segments[k].start))
      {
        assert r[k] == CombineFrom(rest, slides, j)[k - 1];
        assert segments[k] == rest[k - 1];
      }
    }
  }

  lemma CombineFromHead(segments: seq<TimedText>, slides: seq<LP.Slide>, idx: nat)
    requires idx <= |slides| && |segments| > 0
    ensures var j := Advance(slides, idx, segments[0].start);
      CombineFrom(segments, slides, idx) ==
        [Item(segments[0].start, segments[0].text, Context(slides, j))] + CombineFrom(segments[1..], slides, j)
  {
  }

  /** `_combine_content`: the slide index only moves forward over one pass of the segments. */
  method CombineContent(segments: seq<TimedText>, slides: seq<LP.Slide>) returns (combined: seq<Item>)
    ensures combined == Combine(segments, slides)
  {
    combined := [];
    var idx := 0;
    var i := 0;
    while i < |segments|
      invariant 0 <= i <= |segments| && idx <= |slides|
      invariant combined + CombineFrom(segments[i..], slides, idx) == Combine(segments, slides)
    {
      var seg := segments[i];
      var j := idx;
      while j < |slides| && seg.start >= slides[j].endTime
        invariant idx <= j <= |slides|
        invariant Advance(slides, j, seg.start) == Advance(slides, idx, seg.start)
      {
        j := j + 1;
      }
      assert segments[i..][1..] == segments[i + 1..];
      CombineFromHead(segments[i..], slides, idx);
      var context := if j < |slides| then slides[j].content else "";
      combined := combined + [Item(seg.start, seg.text, context)];
      idx := j;
      i := i + 1;
    }
  }
}
