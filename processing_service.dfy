/**
 * The orchestrator: transcribe, take the text, derive the title from the
 * audio file name, then run the Python notes generator through a temporary
 * script. Once the transcription text is written to its temporary file,
 * every failure degrades to fixed fallback notes instead of being thrown.
 */
module ProcessingService {
  import opened Wrappers
  import opened Strings
  import opened Json
  import opened NodePath
  import TS = TranscriptionService

  /** The request options; `None` stands for an absent property. */
  datatype Options = Options(
    apiProvider: Option<string>,
    model: Option<string>,
    apiKey: Option<string>,
    apiEndpoint: Option<string>,
    apiModelName: Option<string>,
    whisperModel: Option<string>)

  /** The arguments the generated script passes to `notes_generator.generate_notes`; `None` is Python's `None`. */
  datatype NotesCall = NotesCall(
    transcription: string,
    title: string,
    apiProvider: string,
    model: Option<string>,
    apiKey: Option<string>,
    apiEndpoint: Option<string>,
    apiModelName: Option<string>)

  /** What `processAudio` resolves to. */
  datatype Processed = Processed(transcription: string, notes: string)

  /** What `processAudioAndPdf` resolves to. */
  datatype ProcessedWithPdf = ProcessedWithPdf(transcription: string, pdfContent: string, notes: string)

  /** How the notes step went, after the transcription text was obtained. */
  datatype NotesRun =
    | TextWriteFailed(message: string)     // writing the temporary transcription file rejected
    | ScriptWriteFailed(message: string)   // writing the temporary script rejected
    | ExecFailed(message: string)          // the subprocess rejected
    | Completed(stdout: string, stderr: string)

  /** One notes step with the two temporary paths its clock readings gave. */
  datatype NotesAttempt = NotesAttempt(textPath: string, scriptPath: string, run: NotesRun)

  const EmptyTextError: string := "Transcription failed or returned empty text"
  const NotAStringError: string := "transcriptionText.substring is not a function"

  /** A JavaScript value in the script text: a truthy string is passed, anything else becomes `None`. */
  function PyArg(v: Option<string>): (r: Option<string>)
    ensures r.Some? <==> (v.Some? && v.value != "")
    ensures r.Some? ==> r == v
  {
    if v.Some? && v.value != "" then v else None
  }

  /** The whisper model handed to the transcriber: `'default'` means the transcriber's own default. */
  function WhisperArg(o: Options): (r: Option<string>)
    ensures o.whisperModel == Some("default") ==> r == None
    ensures o.whisperModel != Some("default") ==> r == o.whisperModel
  {
    if o.whisperModel == Some("default") then None else o.whisperModel
  }

  /** `transcriptionResult.text || ''`, the emptiness test, and the `substring` call only strings survive. */
  function TranscriptionText(result: Option<Json>): (r: Result<string, string>)
    ensures r.Success? <==> (result.Some? && result.value.JObj? && "text" in result.value.fields &&
                             result.value.fields["text"].JStr? && result.value.fields["text"].s != "")
    ensures r.Success? ==> r.value == result.value.fields["text"].s
    ensures (result.Some? && result.value.JObj? && !JsTruthy(JsOptGet(result, "text"))) ==> r == Failure(EmptyTextError)
  {
    match JsGet(result, "text")
    case Failure(e) => Failure(e)
    case Success(v) =>
      if !JsTruthy(v) then Failure(EmptyTextError)
      else if v.value.JStr? then Success(v.value.s)
      else Failure(NotAStringError)
  }

  /** The arguments of the notes call. */
  function NotesCallFor(text: string, title: string, o: Options): (c: NotesCall)
    ensures c.transcription == text && c.title == title
    ensures c.apiProvider == (if PyArg(o.apiProvider).Some? then o.apiProvider.value else "default")
    ensures c.model == PyArg(o.model) && c.apiKey == PyArg(o.apiKey)
    ensures c.apiEndpoint == PyArg(o.apiEndpoint) && c.apiModelName == PyArg(o.apiModelName)
  {
    NotesCall(text, title, PyArg(o.apiProvider).GetOr("default"), PyArg(o.model), PyArg(o.apiKey),
              PyArg(o.apiEndpoint), PyArg(o.apiModelName))
  }


  const FallbackTail: string := "...\n\n(Note: Automated note generation failed. This is the raw transcription.)"

  /** The fallback notes: a heading with the title, then the first 500 characters of the text. */
  function FallbackNotes(title: string, text: string): string
  {
    "# Notes: " + title + "\n\n## Transcription\n\n" + text[..Min(500, |text|)] + FallbackTail
  }

  /** The fallback notes carry the title, the first 500 characters of the text and the fixed closing remark. */
  lemma FallbackNotesShape(title: string, text: string)
    ensures var f := FallbackNotes(title, text);
      var head := "# Notes: " + title + "\n\n## Transcription\n\n";
      StartsWith(f, head) && EndsWith(f, FallbackTail) &&
      f[|head|..|f| - |FallbackTail|] == text[..Min(500, |text|)] &&
      (|text| <= 500 ==> Contains(f, text))
  {
    var f := FallbackNotes(title, text);
    var head := "# Notes: " + title + "\n\n## Transcription\n\n";
    assert f == head + text[..Min(500, |text|)] + FallbackTail;
    if |text| <= 500 {
      assert text[..Min(500, |text|)] == text;
      ContainsAt(f, text, |head|);
    }
  }

  /** The notes step, from the written transcription on. */
  function NotesStep(text: string, title: string, a: NotesAttempt): (r: Result<Processed, string>)
    ensures r.Failure? <==> a.run.TextWriteFailed?
    ensures r.Success? ==> r.value.transcription == text
  {
    match a.run
    case TextWriteFailed(m) => Failure(m)
    case ScriptWriteFailed(_) => Success(Processed(text, FallbackNotes(title, text)))
    case ExecFailed(_) => Success(Processed(text, FallbackNotes(title, text)))
    case Completed(stdout, stderr) =>
      if Contains(stderr, "Error:") then Success(Processed(text, FallbackNotes(title, text)))
      else Success(Processed(text, TrimJs(stdout)))
  }

  /** The temporary files after the notes step. */
  function FilesAfterNotes(files: set<string>, a: NotesAttempt): set<string>
  {
    match a.run
    case TextWriteFailed(_) => files
    case ScriptWriteFailed(_) => files + {a.textPath} - {a.textPath}
    case ExecFailed(_) => files + {a.textPath} + {a.scriptPath} - {a.textPath}
    case Completed(_, stderr) =>
      if Contains(stderr, "Error:") then files + {a.textPath} + {a.scriptPath} - {a.textPath}
      else files + {a.textPath} + {a.scriptPath} - {a.scriptPath} - {a.textPath}
  }

  /** `processAudio(audioFilePath, options)`, with the transcriber's default of three retries. */
  function Process(audioPath: string, o: Options, run: (TS.Calls, nat) -> TS.Attempt,
                   notes: NotesCall -> NotesAttempt): Result<Processed, string>
  {
    match TS.Transcribe(TS.ScriptCalls(audioPath, WhisperArg(o)), 3, run)
    case Failure(e) => Failure(e)
    case Success(result) => ProcessFrom(result, audioPath, o, notes)
  }

  /** The part of `processAudio` after the transcriber resolved with `result`. */
  function ProcessFrom(result: Option<Json>, audioPath: string, o: Options, notes: NotesCall -> NotesAttempt): Result<Processed, string>
  {
    match TranscriptionText(result)
    case Failure(e) => Failure(e)
    case Success(text) =>
      var title := Stem(audioPath);
      NotesStep(text, title, notes(NotesCallFor(text, title, o)))
  }

  function FilesAfterProcess(files: set<string>, audioPath: string, o: Options, run: (TS.Calls, nat) -> TS.Attempt,
                             notes: NotesCall -> NotesAttempt): set<string>
  {
    var calls := TS.ScriptCalls(audioPath, WhisperArg(o));
    var afterTranscription := TS.FilesAfter(files, calls, 3, run);
    match TS.Transcribe(calls, 3, run)
    case Failure(_) => afterTranscription
    case Success(result) => FilesFrom(afterTranscription, result, audioPath, o, notes)
  }

  function FilesFrom(files: set<string>, result: Option<Json>, audioPath: string, o: Options,
                     notes: NotesCall -> NotesAttempt): set<string>
  {
    match TranscriptionText(result)
    case Failure(_) => files
    case Success(text) =>
      var title := Stem(audioPath);
      FilesAfterNotes(files, notes(NotesCallFor(text, title, o)))
  }

  /** Transcription errors propagate unchanged: the outer catch rethrows them. */
  lemma TranscriptionErrorPropagates(audioPath: string, o: Options, run: (TS.Calls, nat) -> TS.Attempt,
                                     notes: NotesCall -> NotesAttempt)
    requires TS.Transcribe(TS.ScriptCalls(audioPath, WhisperArg(o)), 3, run).Failure?
    ensures Process(audioPath, o, run, notes) == Failure(TS.Transcribe(TS.ScriptCalls(audioPath, WhisperArg(o)), 3, run).error)
    ensures StartsWith(Process(audioPath, o, run, notes).error, TS.FailurePrefix)
  {
    var calls := TS.ScriptCalls(audioPath, WhisperArg(o));
    var j, m := TS.FailureWrappedOnce(calls, 3, run);
    assert (TS.FailurePrefix + m)[..|TS.FailurePrefix|] == TS.FailurePrefix;
  }

  /** An empty or missing text is rejected before any notes are generated: the notes oracle is never consulted. */
  lemma EmptyTextRejected(audioPath: string, o: Options, run: (TS.Calls, nat) -> TS.Attempt,
                          notes: NotesCall -> NotesAttempt, notes2: NotesCall -> NotesAttempt)
    requires TS.Transcribe(TS.ScriptCalls(audioPath, WhisperArg(o)), 3, run).Success?
    requires var result := TS.Transcribe(TS.ScriptCalls(audioPath, WhisperArg(o)), 3, run).value;
      result.Some? && result.value.JObj? && !JsTruthy(JsOptGet(result, "text"))
    ensures Process(audioPath, o, run, notes) == Failure(EmptyTextError)
    ensures Process(audioPath, o, run, notes2) == Process(audioPath, o, run, notes)
  {
  }

  /**
   * Once the text is written, nothing is thrown: the notes are the trimmed
   * stdout of a clean run and the fallback otherwise, and the transcription
   * returned is the transcriber's text.
   */
  lemma NoThrowAfterTextWritten(result: Option<Json>, audioPath: string, o: Options,
                                notes: NotesCall -> NotesAttempt, text: string)
    requires TranscriptionText(result) == Success(text)
    requires !notes(NotesCallFor(text, Stem(audioPath), o)).run.TextWriteFailed?
    ensures ProcessFrom(result, audioPath, o, notes).Success?
    ensures ProcessFrom(result, audioPath, o, notes).value.transcription == text && text != ""
    ensures var a := notes(NotesCallFor(text, Stem(audioPath), o));
      ProcessFrom(result, audioPath, o, notes).value.notes ==
        if a.run.Completed? && !Contains(a.run.stderr, "Error:") then TrimJs(a.run.stdout)
        else FallbackNotes(Stem(audioPath), text)
  {
    var title := Stem(audioPath);
    var a := notes(NotesCallFor(text, title, o));
    assert ProcessFrom(result, audioPath, o, notes) == NotesStep(text, title, a);
  }

  /** After a clean notes run both temporary files are gone; after a fallback the transcription file is gone. */
  lemma NotesStepCleansUp(files: set<string>, a: NotesAttempt)
    requires !a.run.TextWriteFailed?
    ensures a.textPath !in FilesAfterNotes(files, a)
    ensures a.run.Completed? && !Contains(a.run.stderr, "Error:") ==> a.scriptPath !in FilesAfterNotes(files, a)
    ensures FilesAfterNotes(files, a) - {a.scriptPath} == files - {a.textPath} - {a.scriptPath}
  {
  }

  /**
   * `processAudio`: transcribe, extract and check the text, write it to a
   * temporary file, then run the notes script with a fallback on any failure.
   */
  method ProcessAudio(disk: TS.TempFiles, audioPath: string, o: Options, run: (TS.Calls, nat) -> TS.Attempt,
                      notes: NotesCall -> NotesAttempt)
    returns (r: Result<Processed, string>)
    modifies disk
    ensures r == Process(audioPath, o, run, notes)
    ensures disk.files == FilesAfterProcess(old(disk.files), audioPath, o, run, notes)
  {
    var whisperModel := WhisperArg(o);
    var result := TS.TranscribeAudio(disk, audioPath, whisperModel, 3, run);
    if result.Failure? {
      return Failure(result.error);
    }
    r := GenerateFrom(disk, result.value, audioPath, o, notes);
  }

  /** The steps of `processAudio` after the transcriber resolved. */
  method GenerateFrom(disk: TS.TempFiles, result: Option<Json>, audioPath: string, o: Options,
                      notes: NotesCall -> NotesAttempt)
    returns (r: Result<Processed, string>)
    modifies disk
    ensures r == ProcessFrom(result, audioPath, o, notes)
    ensures disk.files == FilesFrom(old(disk.files), result, audioPath, o, notes)
  {
    var textResult := TranscriptionText(result);
    if textResult.Failure? {
      return Failure(textResult.error);
    }
    var text := textResult.value;
    var title := Stem(audioPath);
    var a := notes(NotesCallFor(text, title, o));
    r := RunNotes(disk, text, title, a);
  }

  /** The inner `try` of `processAudio` and its catch block, with the temporary transcription file written first. */
  method RunNotes(disk: TS.TempFiles, text: string, title: string, a: NotesAttempt)
    returns (r: Result<Processed, string>)
    modifies disk
    ensures r == NotesStep(text, title, a)
    ensures disk.files == FilesAfterNotes(old(disk.files), a)
  {
    match a.run {
      case TextWriteFailed(m) =>
        return Failure(m);
      case ScriptWriteFailed(_) =>
        disk.files := disk.files + {a.textPath};
        disk.files := disk.files - {a.textPath};
        r := Success(Processed(text, FallbackNotes(title, text)));
      case ExecFailed(_) =>
        disk.files := disk.files + {a.textPath};
        disk.files := disk.files + {a.scriptPath};
        disk.files := disk.files - {a.textPath};
        r := Success(Processed(text, FallbackNotes(title, text)));
      case Completed(stdout, stderr) =>
        disk.files := disk.files + {a.textPath};
        disk.files := disk.files + {a.scriptPath};
        if Contains(stderr, "Error:") {
          disk.files := disk.files - {a.textPath};
          r := Success(Processed(text, FallbackNotes(title, text)));
        } else {
          var trimmed := TrimJs(stdout);
          disk.files := disk.files - {a.scriptPath};
          disk.files := disk.files - {a.textPath};
          r := Success(Processed(text, trimmed));
        }
    }
  }

  const PdfPlaceholder: string := "PDF processing will be implemented in the future"
  const SlidesSuffix: string := "\n\n## From Slides\n\nSlide content will be integrated in future updates."

  /** `processAudioAndPdf`: the audio result with a fixed slides paragraph appended; the PDF is not read. */
  function ProcessWithPdf(audioResult: Result<Processed, string>): (r: Result<ProcessedWithPdf, string>)
    ensures r.Failure? <==> audioResult.Failure?
    ensures r.Failure? ==> r.error == audioResult.error
    ensures r.Success? ==> r.value.transcription == audioResult.value.transcription
    ensures r.Success? ==> r.value.pdfContent == PdfPlaceholder
    ensures r.Success? ==> StartsWith(r.value.notes, audioResult.value.notes) && EndsWith(r.value.notes, SlidesSuffix)
    ensures r.Success? ==> |r.value.notes| == |audioResult.value.notes| + |SlidesSuffix|
  {
    match audioResult
    case Failure(e) => Failure(e)
    case Success(p) => Success(ProcessedWithPdf(p.transcription, PdfPlaceholder, p.notes + SlidesSuffix))
  }

  method ProcessAudioAndPdf(disk: TS.TempFiles, audioPath: string, pdfPath: string, o: Options,
                            run: (TS.Calls, nat) -> TS.Attempt, notes: NotesCall -> NotesAttempt)
    returns (r: Result<ProcessedWithPdf, string>)
    modifies disk
    ensures r == ProcessWithPdf(Process(audioPath, o, run, notes))
    ensures disk.files == FilesAfterProcess(old(disk.files), audioPath, o, run, notes)
  {
    var audio := ProcessAudio(disk, audioPath, o, run, notes);
    if audio.Failure? {
      return Failure(audio.error);
    }
    r := Success(ProcessedWithPdf(audio.value.transcription, PdfPlaceholder, audio.value.notes + SlidesSuffix));
  }
}
