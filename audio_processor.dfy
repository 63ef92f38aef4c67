/**
 * The Whisper front end that reshapes the speech-recognition pipeline's
 * output into a transcript with numbered segments. The pipeline is an
 * oracle; whether the audio file exists is a parameter.
 */
module AudioProcessor {
  import opened Wrappers
  import opened Json

  /** The Python exceptions the transcribers raise, by class. */
  datatype PyError = FileNotFound(message: string) | RuntimeFailure(message: string) | Raised(message: string)

  /** A pipeline chunk: its `timestamp` pair and its `text`, each absent or present. */
  datatype Chunk = Chunk(timestamp: Option<seq<Json>>, text: Option<Json>)

  /** The pipeline's result: its `text` and `chunks` entries, each absent or present. */
  datatype PipeResult = PipeResult(text: Option<Json>, chunks: Option<seq<Chunk>>)

  /** The pipeline is called on a path, with a language for this transcriber and none for the other. */
  datatype PipeCall = PipeCall(path: string, language: Option<string>)

  datatype PipeOutput = PipeRaised(message: string) | PipeReturned(result: PipeResult)

  datatype Segment = Segment(id: nat, start: Json, end: Json, text: Json)

  datatype Transcript = Transcript(text: Json, language: string, segments: seq<Segment>)

  const FailedPrefix: string := "Audio transcription failed: "

  function NotFound(path: string): string { "Audio file not found: " + path }

  /** The message of the `KeyError` for a missing key. */
  function KeyError(key: string): string { "'" + key + "'" }

  /** Python's type name of a value. */
  function PyTypeName(v: Json): string
  {
    match v
    case JNull => "NoneType"
    case JBool(_) => "bool"
    case JNum(_) => "int"
    case JStr(_) => "str"
    case JArr(_) => "list"
    case JObj(_) => "dict"
  }

  /** The `TypeError` that `len(v)` raises, or `None` for strings, lists and dicts. */
  function LenError(v: Json): (r: Option<string>)
    ensures r.None? <==> v.JStr? || v.JArr? || v.JObj?
  {
    if v.JStr? || v.JArr? || v.JObj? then None
    else Some("object of type '" + PyTypeName(v) + "' has no len()")
  }

  /** `chunk.get("timestamp", [0, 0])[k]`. */
  function TimeAt(timestamp: Option<seq<Json>>, k: nat): (r: Result<Json, string>)
    ensures timestamp.None? ==> r == Success(JNum(0))
    ensures timestamp.Some? && k < |timestamp.value| ==> r == Success(timestamp.value[k])
  {
    match timestamp
    case None => Success(JNum(0))
    case Some(t) => if k < |t| then Success(t[k]) else Failure("tuple index out of range")
  }

  /** The segment built from chunk number `i`: its times are the timestamp's pair, 0 and 0 when it has none. */
  function SegmentFor(i: nat, c: Chunk): (r: Result<Segment, string>)
    ensures r.Success? <==> TimestampOk(c)
    ensures r.Success? ==> r.value.id == i && r.value.text == c.text.GetOr(JStr(""))
    ensures r.Success? && c.timestamp.None? ==> r.value.start == JNum(0) && r.value.end == JNum(0)
    ensures r.Success? && c.timestamp.Some? ==> r.value.start == c.timestamp.value[0] && r.value.end == c.timestamp.value[1]
  {
    var start :- TimeAt(c.timestamp, 0);
    var end :- TimeAt(c.timestamp, 1);
    Success(Segment(i, start, end, c.text.GetOr(JStr(""))))
  }

  /** The segments of the chunks, in order, stopping at the first chunk whose timestamp is too short. */
  function Segments(chunks: seq<Chunk>): Result<seq<Segment>, string>
    decreases |chunks|
  {
    if |chunks| == 0 then Success([])
    else
      var before :- Segments(chunks[..|chunks| - 1]);
      var last :- SegmentFor(|chunks| - 1, chunks[|chunks| - 1]);
      Success(before + [last])
  }

  predicate TimestampOk(c: Chunk) { c.timestamp.None? || |c.timestamp.value| >= 2 }

  /**
   * Chunks whose timestamps are absent or pairs always give one segment per
   * chunk, in order, numbered from 0, with the chunk's times (0 when absent)
   * and text ("" when absent).
   */
  lemma {:induction false} SegmentsShape(chunks: seq<Chunk>)
    requires forall i :: 0 <= i < |chunks| ==> TimestampOk(chunks[i])
    ensures Segments(chunks).Success?
    ensures |Segments(chunks).value| == |chunks|
    ensures forall i :: 0 <= i < |chunks| ==> SegmentFor(i, chunks[i]) == Success(Segments(chunks).value[i])
    decreases |chunks|
  {
    if |chunks| > 0 {
      var n := |chunks| - 1;
      SegmentsShape(chunks[..n]);
      var before := Segments(chunks[..n]).value;
      var r := Segments(chunks).value;
      assert r == before + [SegmentFor(n, chunks[n]).value];
      forall i | 0 <= i < n
        ensures SegmentFor(i, chunks[i]) == Success(r[i])
      {
        assert r[i] == before[i] && chunks[..n][i] == chunks[i];
      }
    }
  }

  /** `transcribe_audio(audio_path, language)`. */
  function Transcribe(path: string, language: string, present: bool, pipe: PipeCall -> PipeOutput): (r: Result<Transcript, PyError>)
    ensures !present ==> r == Failure(FileNotFound(NotFound(path)))
    ensures r.Success? ==> r.value.language == language
    ensures r.Success? ==> pipe(PipeCall(path, Some("en"))).PipeReturned?
    ensures r.Success? ==> Some(r.value.text) == pipe(PipeCall(path, Some("en"))).result.text
    ensures r.Failure? && present ==> (r.error.Raised? && |r.error.message| >= |FailedPrefix| &&
      r.error.message[..|FailedPrefix|] == FailedPrefix)
  {
    if !present then Failure(FileNotFound(NotFound(path)))
    else
      match pipe(PipeCall(path, Some("en")))
      case PipeRaised(m) => Failure(Raised(FailedPrefix + m))
      case PipeReturned(res) =>
        match res.text
        case None => Failure(Raised(FailedPrefix + KeyError("text")))
        case Some(text) =>
          match (if res.chunks.None? then Success([]) else Segments(res.chunks.value))
          case Failure(e) => Failure(Raised(FailedPrefix + e))
          case Success(segments) =>
            match LenError(text)
            case Some(e) => Failure(Raised(FailedPrefix + e))
            case None => Success(Transcript(text, language, segments))
  }

  /** The pipeline is always asked for English: the language argument only labels the result. */
  lemma LanguageOnlyLabels(path: string, l1: string, l2: string, present: bool, pipe: PipeCall -> PipeOutput)
    ensures Transcribe(path, l1, present, pipe).Success? <==> Transcribe(path, l2, present, pipe).Success?
    ensures Transcribe(path, l1, present, pipe).Success? ==>
      Transcribe(path, l2, present, pipe).value == Transcribe(path, l1, present, pipe).value.(language := l2)
  {
  }

  /** With no `chunks` in the pipeline's result there are no segments. */
  lemma NoChunksNoSegments(path: string, language: string, present: bool, pipe: PipeCall -> PipeOutput)
    requires Transcribe(path, language, present, pipe).Success?
    requires pipe(PipeCall(path, Some("en"))).result.chunks.None?
    ensures Transcribe(path, language, present, pipe).value.segments == []
    ensures Some(Transcribe(path, language, present, pipe).value.text) == pipe(PipeCall(path, Some("en"))).result.text
  {
  }

  /** The segments of a successful transcription are those of the pipeline's chunks. */
  lemma ChunksBecomeSegments(path: string, language: string, present: bool, pipe: PipeCall -> PipeOutput)
    requires Transcribe(path, language, present, pipe).Success?
    requires pipe(PipeCall(path, Some("en"))).result.chunks.Some?
    ensures Segments(pipe(PipeCall(path, Some("en"))).result.chunks.value) ==
      Success(Transcribe(path, language, present, pipe).value.segments)
  {
  }

  lemma {:induction false} SegmentsFailureStays(chunks: seq<Chunk>, k: nat)
    requires k <= |chunks| && Segments(chunks[..k]).Failure?
    ensures Segments(chunks) == Segments(chunks[..k])
    decreases |chunks| - k
  {
    if k < |chunks| {
      assert chunks[..k + 1][..k] == chunks[..k];
      SegmentsFailureStays(chunks, k + 1);
    } else {
      assert chunks[..k] == chunks;
    }
  }

  /** The loop of `transcribe_audio`: one segment appended per chunk, numbered by its position. */
  method ChunksToSegments(chunks: seq<Chunk>) returns (r: Result<seq<Segment>, string>)
    ensures r == Segments(chunks)
  {
    var segments: seq<Segment> := [];
    var i := 0;
    while i < |chunks|
      invariant 0 <= i <= |chunks|
      invariant Segments(chunks[..i]) == Success(segments)
    {
      var chunk := chunks[i];
      assert chunks[..i + 1][..i] == chunks[..i];
      var start := TimeAt(chunk.timestamp, 0);
      var end := TimeAt(chunk.timestamp, 1);
      if start.Failure? || end.Failure? {
        SegmentsFailureStays(chunks, i + 1);
        return Failure("tuple index out of range");
      }
      segments := segments + [Segment(i, start.value, end.value, chunk.text.GetOr(JStr("")))];
      i := i + 1;
    }
    assert chunks[..i] == chunks;
    r := Success(segments);
  }

  /** `transcribe_audio`, step by step. */
  method TranscribeAudio(path: string, language: string, present: bool, pipe: PipeCall -> PipeOutput)
    returns (r: Result<Transcript, PyError>)
    ensures r == Transcribe(path, language, present, pipe)
  {
    if !present {
      return Failure(FileNotFound(NotFound(path)));
    }
    var output := pipe(PipeCall(path, Some("en")));
    if output.PipeRaised? {
      return Failure(Raised(FailedPrefix + output.message));
    }
    var result := output.result;
    if result.text.None? {
      return Failure(Raised(FailedPrefix + KeyError("text")));
    }
    var segments: seq<Segment> := [];
    if result.chunks.Some? {
      var s := ChunksToSegments(result.chunks.value);
      if s.Failure? {
        return Failure(Raised(FailedPrefix + s.error));
      }
      segments := s.value;
    }
    var lenError := LenError(result.text.value);
    if lenError.Some? {
      return Failure(Raised(FailedPrefix + lenError.value));
    }
    r := Success(Transcript(result.text.value, language, segments));
  }
}
