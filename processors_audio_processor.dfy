/**
 * The second Whisper front end: it refuses to run without a loaded model,
 * and passes the pipeline's chunks through, inventing a single chunk
 * covering the whole text when the pipeline gives none.
 */
module ProcessorsAudioProcessor {
  import opened Wrappers
  import opened Json
  import AP = AudioProcessor

  datatype Transcript = Transcript(text: Json, language: string, chunks: seq<AP.Chunk>)

  const NotLoaded: string := "Model not loaded. Cannot transcribe audio."

  /** The chunk put in when the pipeline returns none: times 0 and 0, and the whole text. */
  function WholeTextChunk(text: Json): AP.Chunk
  {
    AP.Chunk(Some([JNum(0), JNum(0)]), Some(text))
  }

  /** `transcribe_audio(audio_path, language)` of a processor whose model is loaded or not. */
  function Transcribe(modelLoaded: bool, path: string, language: string, present: bool,
                      pipe: AP.PipeCall -> AP.PipeOutput): (r: Result<Transcript, AP.PyError>)
    ensures !modelLoaded ==> r == Failure(AP.RuntimeFailure(NotLoaded))
    ensures modelLoaded && !present ==> r == Failure(AP.FileNotFound(AP.NotFound(path)))
    ensures r.Success? ==> r.value.language == language
    ensures r.Success? ==> (pipe(AP.PipeCall(path, None)).PipeReturned? &&
      Some(r.value.text) == pipe(AP.PipeCall(path, None)).result.text)
    ensures r.Success? && pipe(AP.PipeCall(path, None)).result.chunks.Some? ==>
      r.value.chunks == pipe(AP.PipeCall(path, None)).result.chunks.value
    ensures r.Success? && pipe(AP.PipeCall(path, None)).result.chunks.None? ==>
      r.value.chunks == [WholeTextChunk(r.value.text)]
  {
    if !modelLoaded then Failure(AP.RuntimeFailure(NotLoaded))
    else if !present then Failure(AP.FileNotFound(AP.NotFound(path)))
    else
      match pipe(AP.PipeCall(path, None))
      case PipeRaised(m) => Failure(AP.Raised(AP.FailedPrefix + m))
      case PipeReturned(res) =>
        match res.text
        case None => Failure(AP.Raised(AP.FailedPrefix + AP.KeyError("text")))
        case Some(text) =>
          var chunks := if res.chunks.Some? then res.chunks.value else [WholeTextChunk(text)];
          match AP.LenError(text)
          case Some(e) => Failure(AP.Raised(AP.FailedPrefix + e))
          case None => Success(Transcript(text, language, chunks))
  }

  /**
   * The invented chunk reshapes, under the first transcriber's rules, into
   * one segment from 0 to 0 holding the whole text: a transcript whose
   * pipeline gave no chunks still has one segment.
   */
  lemma WholeTextSegment(text: Json)
    ensures AP.Segments([WholeTextChunk(text)]) == Success([AP.Segment(0, JNum(0), JNum(0), text)])
  {
    var c := WholeTextChunk(text);
    assert [c][..0] == [];
    assert AP.SegmentFor(0, c) == Success(AP.Segment(0, JNum(0), JNum(0), text));
    assert AP.Segments([c]) == Success([] + [AP.Segment(0, JNum(0), JNum(0), text)]);
    assert [] + [AP.Segment(0, JNum(0), JNum(0), text)] == [AP.Segment(0, JNum(0), JNum(0), text)];
    assert AP.Segments([WholeTextChunk(text)]) == Success([AP.Segment(0, JNum(0), JNum(0), text)]);
  }

  /** Both transcribers fail alike on a missing file once a model is loaded, and the model check comes first. */
  lemma GuardsOrder(path: string, language: string, pipe: AP.PipeCall -> AP.PipeOutput, pipe2: AP.PipeCall -> AP.PipeOutput)
    ensures Transcribe(true, path, language, false, pipe) == Failure(AP.FileNotFound(AP.NotFound(path)))
    ensures AP.Transcribe(path, language, false, pipe2) == Failure(AP.FileNotFound(AP.NotFound(path)))
    ensures Transcribe(false, path, language, false, pipe) == Failure(AP.RuntimeFailure(NotLoaded))
  {
  }
}
