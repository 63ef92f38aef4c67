/**
 * The HTTP API: the upload filter and stored file name, and the decisions of
 * the `/transcribe`, `/generate-notes` and `/process` handlers. A reply is a
 * status and the JSON object sent back; a property whose value is
 * `undefined` is absent from the object, as `JSON.stringify` drops it.
 */
module ApiRoutes {
  import opened Wrappers
  import opened Strings
  import opened Json
  import opened MimeTypes
  import opened NodePath
  import TS = TranscriptionService
  import NGS = NotesGenerationService
  import PS = ProcessingService

  // ------------------------------------------------------------ uploads

  /** What the filter hands back to multer: keep the file, or fail the request with an error. */
  datatype Verdict = Accept | Reject(message: string)

  const AudioOnly: string := "Only audio files are allowed for audio uploads"
  const SlidesOnly: string := "Only PDF and PowerPoint files are allowed for slides"
  const UnexpectedField: string := "Unexpected file field"

  const OctetStream: string := "application/octet-stream"

  predicate AudioMime(mimetype: string) {
    StartsWith(mimetype, "audio/") || mimetype == OctetStream
  }

  predicate SlidesMime(mimetype: string) {
    mimetype == PdfType || mimetype == PptType || mimetype == PptxType
  }

  /** The upload filter: audio types for `audio`, PDF and PowerPoint for `slides`, nothing else. */
  function FileFilter(fieldname: string, mimetype: string): (r: Verdict)
    ensures r == Accept <==> (fieldname == "audio" && AudioMime(mimetype)) || (fieldname == "slides" && SlidesMime(mimetype))
    ensures r.Reject? && fieldname == "audio" ==> r.message == AudioOnly
    ensures r.Reject? && fieldname == "slides" ==> r.message == SlidesOnly
    ensures fieldname != "audio" && fieldname != "slides" ==> r == Reject(UnexpectedField)
  {
    if fieldname == "audio" then
      if AudioMime(mimetype) then Accept else Reject(AudioOnly)
    else if fieldname == "slides" then
      if SlidesMime(mimetype) then Accept else Reject(SlidesOnly)
    else
      Reject(UnexpectedField)
  }

  /** Only the two known fields can be accepted, and an accepted field name has no dot and no slash. */
  lemma AcceptedFields(fieldname: string, mimetype: string)
    requires FileFilter(fieldname, mimetype) == Accept
    ensures fieldname == "audio" || fieldname == "slides"
    ensures fieldname != [] && '.' !in fieldname && '/' !in fieldname
  {
    if fieldname == "audio" {
      assert fieldname == ['a', 'u', 'd', 'i', 'o'];
    } else {
      assert fieldname == ['s', 'l', 'i', 'd', 'e', 's'];
    }
  }

  /**
   * The stored name `{fieldname}-{Date.now()}-{Math.round(Math.random() * 1E9)}{extname(originalname)}`;
   * the clock reading and the rounded random number are parameters.
   */
  function StoredFilename(fieldname: string, now: nat, random: nat, originalname: string): (r: string)
    ensures StartsWith(r, fieldname + "-")
    ensures EndsWith(r, ExtName(originalname))
  {
    Dashed(fieldname, NatToString(now), NatToString(random), ExtName(originalname))
  }

  /** `{field}-{a}-{b}{ext}`. */
  function Dashed(field: string, a: string, b: string, ext: string): (r: string)
    ensures StartsWith(r, field + "-")
    ensures EndsWith(r, ext)
  {
    var head, mid := field + "-", a + "-" + b;
    StartsWithAppend(head, mid + ext);
    EndsWithAppend(head + mid, ext);
    assert head + mid + ext == head + (mid + ext);
    head + mid + ext
  }

  /** Joining dot-free and slash-free pieces with dashes adds no dot and no slash. */
  lemma DashedPlain(field: string, a: string, b: string)
    requires '.' !in field && '/' !in field
    requires forall i :: 0 <= i < |a| ==> IsDigit(a[i])
    requires forall i :: 0 <= i < |b| ==> IsDigit(b[i])
    ensures var name := field + "-" + a + "-" + b; '.' !in name && '/' !in name
  {
    var name := field + "-" + a + "-" + b;
    assert forall i :: 0 <= i < |a| ==> a[i] != '.' && a[i] != '/';
    assert forall i :: 0 <= i < |b| ==> b[i] != '.' && b[i] != '/';
    assert forall c :: c in name ==> c in field || c == '-' || c in a || c in b;
  }

  /** A dashed name of plain pieces followed by an extension has exactly that extension and no slash. */
  lemma DashedExt(field: string, a: string, b: string, e: string)
    requires field != [] && '.' !in field && '/' !in field
    requires forall i :: 0 <= i < |a| ==> IsDigit(a[i])
    requires forall i :: 0 <= i < |b| ==> IsDigit(b[i])
    requires e == "" || (e[0] == '.' && '.' !in e[1..])
    requires '/' !in e
    ensures ExtName(Dashed(field, a, b, e)) == e
    ensures '/' !in Dashed(field, a, b, e)
  {
    var name := field + "-" + a + "-" + b;
    DashedPlain(field, a, b);
    assert Dashed(field, a, b, e) == name + e;
    ExtOfSuffixed(name, e);
    assert forall c :: c in name + e ==> c in name || c in e;
  }

  /** Every accepted upload is stored under a name with the original file's extension, in the upload directory itself. */
  lemma StoredKeepsExtension(fieldname: string, mimetype: string, now: nat, random: nat, originalname: string)
    requires FileFilter(fieldname, mimetype) == Accept
    ensures ExtName(StoredFilename(fieldname, now, random, originalname)) == ExtName(originalname)
    ensures '/' !in StoredFilename(fieldname, now, random, originalname)
  {
    AcceptedFields(fieldname, mimetype);
    StemExt(originalname);
    DashedExt(fieldname, NatToString(now), NatToString(random), ExtName(originalname));
  }

  // ------------------------------------------------------------ replies

  datatype Reply = Reply(status: nat, body: map<string, Json>)

  /** The property `key` of the reply body is present and is `v`. */
  predicate Says(r: Reply, key: string, v: Json) {
    key in r.body && r.body[key] == v
  }

  function Fail(status: nat, message: string): (r: Reply)
    ensures r.status == status && Says(r, "success", JBool(false)) && Says(r, "message", JStr(message))
  {
    Reply(status, map["success" := JBool(false), "message" := JStr(message)])
  }

  /** `{ ...props, key: value }` where `value` may be `undefined`. */
  function WithOptional(props: map<string, Json>, key: string, value: Option<Json>): (r: map<string, Json>)
    ensures key in r <==> value.Some?
    ensures value.Some? ==> r[key] == value.value
    ensures forall k :: k in props && k != key ==> k in r && r[k] == props[k]
    ensures forall k :: k in r && k != key ==> k in props
  {
    if value.Some? then props[key := value.value] else props - {key}
  }

  // --------------------------------------------------------- /transcribe

  const PathRequired: string := "Audio path is required"
  const FileNotFound: string := "Audio file not found"
  const TranscriptionFailed: string := "Transcription failed"

  /** The model the handler passes on: `whisperModel || 'default'`. */
  function RouteModel(whisperModel: Option<string>): (r: string)
    ensures Truthy(whisperModel) ==> Some(r) == whisperModel
    ensures !Truthy(whisperModel) ==> r == "default"
  {
    OrDefault(whisperModel, "default")
  }

  /**
   * `POST /transcribe` with string fields `audioPath` and `whisperModel`;
   * `present` stands for `fs.existsSync` and `run` for the transcriber's attempts.
   */
  function TranscribeRoute(audioPath: Option<string>, whisperModel: Option<string>, present: string -> bool,
                           run: (TS.Calls, nat) -> TS.Attempt): (r: Reply)
    ensures r.status in {200, 400, 404, 500}
    ensures r.status == 400 <==> !Truthy(audioPath)
    ensures r.status == 404 <==> Truthy(audioPath) && !present(audioPath.value)
    ensures r.status == 200 ==> Says(r, "success", JBool(true)) && Says(r, "audioPath", JStr(audioPath.value))
    ensures r.status == 500 ==> Says(r, "success", JBool(false)) && Says(r, "message", JStr(TranscriptionFailed))
  {
    if !Truthy(audioPath) then Fail(400, PathRequired)
    else if !present(audioPath.value) then Fail(404, FileNotFound)
    else TranscribeReply(audioPath.value, TS.Transcribe(TS.ScriptCalls(audioPath.value, Some(RouteModel(whisperModel))), 3, run))
  }

  /** The reply once the transcriber settled: its result, or a 500 carrying its message under `error`. */
  function TranscribeReply(audioPath: string, out: Result<Option<Json>, string>): (r: Reply)
    ensures r.status == 200 <==> out.Success?
    ensures r.status == 200 ==> Says(r, "success", JBool(true)) && Says(r, "audioPath", JStr(audioPath))
                                && ("transcription" in r.body <==> out.value.Some?)
                                && (out.value.Some? ==> r.body["transcription"] == out.value.value)
    ensures r.status != 200 ==> r.status == 500 && Says(r, "success", JBool(false))
                                && Says(r, "message", JStr(TranscriptionFailed)) && Says(r, "error", JStr(out.error))
  {
    match out
    case Success(t) =>
      Reply(200, WithOptional(map["success" := JBool(true), "audioPath" := JStr(audioPath)], "transcription", t))
    case Failure(e) =>
      Reply(500, map["success" := JBool(false), "message" := JStr(TranscriptionFailed), "error" := JStr(e)])
  }

  /**
   * A request to `/transcribe` without a model asks the transcriber for a
   * model named `default`, passed to the script as an explicit argument;
   * the orchestrator passes no argument for the same choice.
   */
  lemma TranscribeDefaultModel(audioPath: string, whisperModel: Option<string>, o: PS.Options)
    requires !Truthy(whisperModel)
    requires o.whisperModel == Some("default")
    ensures TS.ScriptCalls(audioPath, Some(RouteModel(whisperModel))).transcribeArgs == [audioPath, "default"]
    ensures TS.ScriptCalls(audioPath, PS.WhisperArg(o)).transcribeArgs == [audioPath]
  {
  }

  /** The guards answer before the file system or the transcriber is consulted. */
  lemma TranscribeGuardsFirst(audioPath: Option<string>, whisperModel: Option<string>,
                              present1: string -> bool, present2: string -> bool,
                              run1: (TS.Calls, nat) -> TS.Attempt, run2: (TS.Calls, nat) -> TS.Attempt)
    requires !Truthy(audioPath)
    ensures TranscribeRoute(audioPath, whisperModel, present1, run1) == TranscribeRoute(audioPath, whisperModel, present2, run2)
  {
  }

  // ------------------------------------------------------ /generate-notes

  /** The string fields of a `/generate-notes` body. */
  datatype NotesRequest = NotesRequest(
    transcription: Option<string>,
    title: Option<string>,
    apiProvider: Option<string>,
    model: Option<string>,
    apiKey: Option<string>,
    apiEndpoint: Option<string>,
    apiModelName: Option<string>)

  const TranscriptionRequired: string := "Transcription is required"
  const NotesErrorPrefix: string := "Error generating notes: "
  const DefaultTitle: string := "Lecture Notes"

  /** The options object handed to the notes service; the title is always present. */
  function NotesOptions(req: NotesRequest): (o: NGS.Options)
    ensures o.title == Some(OrDefault(req.title, DefaultTitle))
    ensures o.apiProvider == req.apiProvider && o.model == req.model && o.apiKey == req.apiKey
    ensures o.apiEndpoint == req.apiEndpoint && o.apiModelName == req.apiModelName
  {
    NGS.Options(req.apiProvider, req.model, req.apiKey, req.apiEndpoint, req.apiModelName,
                Some(OrDefault(req.title, DefaultTitle)))
  }

  function GenerateNotesRoute(req: NotesRequest, env: NGS.Env, post: NGS.Request -> NGS.HttpOutcome,
                              stringify: Json -> string): (r: Reply)
    ensures r.status in {200, 400, 500}
    ensures r.status == 400 <==> !Truthy(req.transcription)
    ensures r.status == 400 ==> r == Fail(400, TranscriptionRequired)
    ensures r.status == 500 ==> exists m :: Says(r, "message", JStr(NotesErrorPrefix + m))
  {
    if !Truthy(req.transcription) then Fail(400, TranscriptionRequired)
    else NotesReply(NGS.GenerateNotes(req.transcription.value, NotesOptions(req), env, post, stringify))
  }

  /** The reply once the notes service settled. */
  function NotesReply(out: NGS.Outcome): (r: Reply)
    ensures out.Fulfilled? ==> r.status == 200 && Says(r, "success", JBool(true))
                               && ("notes" in r.body <==> out.value.Some?)
                               && (out.value.Some? ==> r.body["notes"] == out.value.value)
    ensures out.Rejected? ==> r == Fail(500, NotesErrorPrefix + out.message)
  {
    match out
    case Fulfilled(v) => Reply(200, WithOptional(map["success" := JBool(true)], "notes", v))
    case Rejected(m) => Fail(500, NotesErrorPrefix + m)
  }

  /** Without a transcription the generator is never asked: the reply does not depend on it. */
  lemma NoTranscriptionNoCall(req: NotesRequest, env1: NGS.Env, env2: NGS.Env,
                              post1: NGS.Request -> NGS.HttpOutcome, post2: NGS.Request -> NGS.HttpOutcome,
                              stringify1: Json -> string, stringify2: Json -> string)
    requires !Truthy(req.transcription)
    ensures GenerateNotesRoute(req, env1, post1, stringify1) == GenerateNotesRoute(req, env2, post2, stringify2)
  {
  }

  /** With a transcription the reply is the service's outcome, with the request's title or `Lecture Notes`. */
  lemma GenerateNotesDelegates(req: NotesRequest, env: NGS.Env, post: NGS.Request -> NGS.HttpOutcome,
                               stringify: Json -> string)
    requires Truthy(req.transcription)
    ensures var out := NGS.GenerateNotes(req.transcription.value, NotesOptions(req), env, post, stringify);
            var r := GenerateNotesRoute(req, env, post, stringify);
            r == NotesReply(out)
    ensures !Truthy(req.title) ==> NotesOptions(req).title == Some(DefaultTitle)
  {
  }

  // ------------------------------------------------------------ /process

  /** The string fields of a `/process` form and the paths multer stored its two files under. */
  datatype ProcessRequest = ProcessRequest(
    apiProvider: Option<string>,
    model: Option<string>,
    apiKey: Option<string>,
    apiEndpoint: Option<string>,
    apiModelName: Option<string>,
    whisperModel: Option<string>,
    audio: Option<string>,
    slides: Option<string>)

  const AudioRequired: string := "Audio file is required"
  const ProcessErrorPrefix: string := "Error processing files: "

  function ProcessOptions(req: ProcessRequest): (o: PS.Options)
    ensures o.apiProvider == req.apiProvider && o.model == req.model && o.apiKey == req.apiKey
    ensures o.apiEndpoint == req.apiEndpoint && o.apiModelName == req.apiModelName
    ensures o.whisperModel == req.whisperModel
  {
    PS.Options(req.apiProvider, req.model, req.apiKey, req.apiEndpoint, req.apiModelName, req.whisperModel)
  }

  /** The transcription and notes of a successful run; `processAudioAndPdf` iff slides came along. */
  function ProcessOutcome(audioPath: string, slides: Option<string>, o: PS.Options,
                          run: (TS.Calls, nat) -> TS.Attempt, notes: PS.NotesCall -> PS.NotesAttempt): (r: Result<PS.Processed, string>)
    ensures var audio := PS.Process(audioPath, o, run, notes);
            (r.Failure? <==> audio.Failure?)
            && (r.Failure? ==> r.error == audio.error)
            && (r.Success? && slides.None? ==> r.value == audio.value)
            && (r.Success? && slides.Some? ==>
                  r.value.transcription == audio.value.transcription
                  && r.value.notes == audio.value.notes + PS.SlidesSuffix)
  {
    if slides.Some? then
      match PS.ProcessWithPdf(PS.Process(audioPath, o, run, notes))
      case Success(p) => Success(PS.Processed(p.transcription, p.notes))
      case Failure(e) => Failure(e)
    else PS.Process(audioPath, o, run, notes)
  }

  /**
   * The cleanup after a failed run: `unlinkSync` on the audio path, then on
   * the slides path, each only when its path is non-empty. The first
   * unlink of a missing file throws, and the rest of the cleanup is skipped.
   */
  function Cleanup(files: set<string>, audio: string, slides: Option<string>): (r: set<string>)
    ensures r <= files
    ensures audio != "" && audio in files ==> audio !in r
    ensures (audio in files || audio == "") && slides.Some? && slides.value != "" && slides.value in files
            ==> slides.value !in r
    ensures audio != "" && audio !in files ==> r == files
    ensures forall f :: f in files && f != audio && (slides.None? || f != slides.value) ==> f in r
  {
    var afterAudio := if audio != "" && audio in files then files - {audio} else files;
    if audio != "" && audio !in files then files
    else if slides.Some? && slides.value != "" && slides.value in afterAudio then afterAudio - {slides.value}
    else afterAudio
  }

  /** The reply of `POST /process`; `files` are the files on disk when the handler starts. */
  function ProcessRoute(req: ProcessRequest, run: (TS.Calls, nat) -> TS.Attempt,
                        notes: PS.NotesCall -> PS.NotesAttempt): (r: Reply)
    ensures r.status in {200, 400, 500}
    ensures r.status == 400 <==> req.audio.None?
    ensures r.status == 400 ==> r == Fail(400, AudioRequired)
    ensures r.status == 500 ==> exists m :: Says(r, "message", JStr(ProcessErrorPrefix + m))
  {
    if req.audio.None? then Fail(400, AudioRequired)
    else ProcessReply(ProcessOutcome(req.audio.value, req.slides, ProcessOptions(req), run, notes))
  }

  /** The reply once processing settled. */
  function ProcessReply(out: Result<PS.Processed, string>): (r: Reply)
    ensures out.Success? ==> r.status == 200 && Says(r, "success", JBool(true))
                             && Says(r, "transcription", JStr(out.value.transcription))
                             && Says(r, "notes", JStr(out.value.notes))
    ensures out.Failure? ==> r == Fail(500, ProcessErrorPrefix + out.error)
  {
    match out
    case Success(p) =>
      Reply(200, map["success" := JBool(true), "transcription" := JStr(p.transcription), "notes" := JStr(p.notes)])
    case Failure(e) => Fail(500, ProcessErrorPrefix + e)
  }

  /** The files on disk once `POST /process` has answered. */
  function FilesAfterProcessRoute(files: set<string>, req: ProcessRequest, run: (TS.Calls, nat) -> TS.Attempt,
                                  notes: PS.NotesCall -> PS.NotesAttempt): set<string>
  {
    if req.audio.None? then files
    else
      var o := ProcessOptions(req);
      var after := PS.FilesAfterProcess(files, req.audio.value, o, run, notes);
      if ProcessOutcome(req.audio.value, req.slides, o, run, notes).Failure? then Cleanup(after, req.audio.value, req.slides)
      else after
  }

  /** A failed run answers 500 with the wrapped message and deletes both uploads; a successful one keeps them. */
  lemma ProcessFailureCleansUp(files: set<string>, req: ProcessRequest, run: (TS.Calls, nat) -> TS.Attempt,
                               notes: PS.NotesCall -> PS.NotesAttempt)
    requires req.audio.Some?
    ensures var o := ProcessOptions(req);
            var audio := PS.Process(req.audio.value, o, run, notes);
            var after := PS.FilesAfterProcess(files, req.audio.value, o, run, notes);
            var r := ProcessRoute(req, run, notes);
            var left := FilesAfterProcessRoute(files, req, run, notes);
            (audio.Failure? ==> r == Fail(500, ProcessErrorPrefix + audio.error)
                                && (req.audio.value != "" && req.audio.value in after ==> req.audio.value !in left)
                                && ((req.audio.value in after && req.slides.Some? && req.slides.value != ""
                                     && req.slides.value in after) ==> req.slides.value !in left))
            && (audio.Success? ==> r.status == 200 && left == after)
  {
  }

  /** The slides paragraph appears in the notes exactly when slides were uploaded. */
  lemma ProcessUsesPdfIffSlides(req: ProcessRequest, run: (TS.Calls, nat) -> TS.Attempt,
                                notes: PS.NotesCall -> PS.NotesAttempt)
    requires req.audio.Some?
    requires PS.Process(req.audio.value, ProcessOptions(req), run, notes).Success?
    ensures var base := PS.Process(req.audio.value, ProcessOptions(req), run, notes).value;
            var r := ProcessRoute(req, run, notes);
            r.status == 200 && Says(r, "transcription", JStr(base.transcription))
            && (req.slides.Some? ==> Says(r, "notes", JStr(base.notes + PS.SlidesSuffix)))
            && (req.slides.None? ==> Says(r, "notes", JStr(base.notes)))
  {
  }
}
