# Lectura, modelled in Dafny

Lectura turns a recorded lecture, and optionally its slides, into Markdown
study notes. The Node server receives uploads. It runs a Python Whisper
front end to transcribe the audio, extracts slides from a PDF, runs a Python
notes generator, and keeps the results on disk, one directory per audio
file. Two browser pages drive it. The notes page (`app.js`) keeps saved
notes and shows processing progress. The lecture form page (`script.js`)
validates the chosen files and the saved settings before it posts the form.

This project models that core, one Dafny module per source file:

- `TranscriptionService`: the retrying transcription invoker.
- `ProcessingService`: the transcribe-then-generate orchestrator and its fallback notes.
- `NotesGenerationService`: the Node provider dispatcher and its credential checks.
- `FileStorageService`: the on-disk store, as a class over a map of directories.
- `NotesGeneratorPy`: the Python notes generator that never raises.
- `NoteGenerator` and `GeneratorsNoteGenerator`: the two chat-model note generators, and the alignment of transcript segments with slides.
- `LectureProcessor`: slide segmentation by transition phrases.
- `AudioProcessor` and `ProcessorsAudioProcessor`: the two Whisper front ends.
- `PdfProcessor`: OCR extraction with plain-text fallback, and the page filter.
- `ApiRoutes`: the upload filter, the stored file name, and the `/transcribe`, `/generate-notes` and `/process` handlers.
- `ClientApp`: the notes page's state.
- `ClientScript`: the lecture form page.

`Strings`, `Json`, `NodePath` and `Wrappers` are helpers. They spell out
what the two languages provide: prefix and substring tests, case mapping,
trimming, JavaScript and Python truthiness, property access on parsed JSON,
Node's `path.basename`/`path.extname`, and Option/Result.
`MimeTypes` holds the slide MIME types that the upload filter and the form
page share.

The model never runs anything. Speech recognition, OCR, chat models, HTTP
clients, subprocesses, clocks, random numbers and md5 are all outside it.
Each such result reaches the model as a function parameter (an oracle) or
as a plain value. Operations that change state step by step are methods
with loops or classes with `modifies` clauses. Each is proved against a
specification function, and the lemmas about that function state what the
source promises.

In `src/services/transcriptionService.js` the two `unlink` calls of an
attempt run only once its output has parsed, and before `full_result` is
read. An attempt that fails earlier leaves its script and output files
behind (`TranscriptionService.FailureKeepsTemps`). An output of `null` is
cleaned up first and then throws a TypeError that ends the chain
(`TranscriptionService.NullOutputCleansUp`). A rejected `unlink` is only
logged, so that file stays.
The retry bound is `retryCount = 3` retries, that is, up to four attempts
(`TranscriptionService.AttemptsBound`). The lecture form page posts to
`/process` on the FastAPI app rather than to the Node API, so for
`ClientScript` the model stops at the form it sends.

## Model

| member | source | states |
|---|---|---|
| TranscriptionService.ScriptCalls | src/services/transcriptionService.js:58-62 | a truthy whisper model is passed to both `transcribe_audio` and `get_transcription_text`, otherwise neither call gets a model |
| TranscriptionService.RepairNaNNoMatch | src/services/transcriptionService.js:72 | the `:\s*NaN` substitution leaves text without a match unchanged |
| TranscriptionService.RepairNaNComplete | src/services/transcriptionService.js:72 | after the substitution no `:\s*NaN` match is left (the inserted `: null` never forms one) |
| TranscriptionService.AttemptOutcome | src/services/transcriptionService.js:89-120 | an attempt succeeds only when the script ran, its stderr has no `Error:` and the output parsed; stderr with `Error:` fails with the stderr as message; a parsed object yields its `full_result` member |
| TranscriptionService.AttemptsBound | src/services/transcriptionService.js:22 | the retry chain runs at least one and at most `retryCount + 1` attempts (also lines 130-135) |
| TranscriptionService.AllRetryable | src/services/transcriptionService.js:125-138 | when every attempt fails with an `Unexpected token` + `NaN`/`is not valid JSON` message, exactly `retryCount + 1` attempts run and the last message is thrown with the prefix `Failed to transcribe audio: ` |
| TranscriptionService.NonRetryable | src/services/transcriptionService.js:125-138 | a failure that is not a JSON NaN error ends the chain after that attempt with the prefixed message |
| TranscriptionService.FailureWrappedOnce | src/services/transcriptionService.js:130-138 | a failed chain throws the message of its last attempt wrapped exactly once; that attempt was the last allowed one or was not retryable |
| TranscriptionService.SuccessIsFullResult | src/services/transcriptionService.js:96-120 | a successful chain returns the `full_result` member of the output of an attempt whose stderr had no `Error:` |
| TranscriptionService.NullOutputCleansUp | src/services/transcriptionService.js:107-120 | an output of `null` parses, so each temporary file whose `unlink` resolved is removed, and then reading `full_result` fails with the V8 TypeError message, which is not retryable |
| TranscriptionService.OnlyLastCleansUp | src/services/transcriptionService.js:107-138 | only the last attempt of a chain can reach the clean-up, so the files the chain unlinks are those of its last attempt |
| TranscriptionService.OnlyUnlinkedRemoved | src/services/transcriptionService.js:89-121 | the chain removes no file except those a resolved `unlink` removed: every other file present before and every other written script remain |
| TranscriptionService.SuccessDeletesTemps | src/services/transcriptionService.js:111-118 | after success each temporary file of the successful attempt is gone if its `unlink` resolved, and (the two paths being distinct) still there if it was rejected |
| TranscriptionService.FailureKeepsTemps | src/services/transcriptionService.js:89-121 | a failed chain in which no attempt's output parsed deletes no file: everything present before and every written script remain |
| TranscriptionService.TranscribeAudio | src/services/transcriptionService.js:22-139 | the recursive method returns what the retry chain `Transcribe` gives and leaves exactly the temporary files `FilesAfter` predicts, removing a file only when the attempt reached the clean-up and that file's `unlink` resolved |
| TranscriptionService.Transcribe | src/services/transcriptionService.js:125-138 | defined by its body; properties in AllRetryable, NonRetryable, FailureWrappedOnce, AttemptsBound and SuccessIsFullResult |
| ProcessingService.PyArg | src/services/processingService.js:93-103 | a value interpolated into the notes script is passed iff it is a non-empty string, otherwise `None` |
| ProcessingService.WhisperArg | src/services/processingService.js:33 | a whisper model of `'default'` becomes null, any other value is passed through |
| ProcessingService.TranscriptionText | src/services/processingService.js:42-46 | the text is accepted iff the result is an object whose `text` is a non-empty string; a falsy text fails with `Transcription failed or returned empty text` |
| ProcessingService.NotesCallFor | src/services/processingService.js:61-117 | the notes call gets the text, the title, the provider or `default`, and each option only when truthy |
| ProcessingService.FallbackNotesShape | src/services/processingService.js:154 | the fallback notes are `# Notes: {title}`, a transcription heading, the first 500 characters of the text, `...` and the fixed closing remark |
| ProcessingService.FallbackNotes | src/services/processingService.js:154 | defined by its body; properties in FallbackNotesShape |
| ProcessingService.NotesStep | src/services/processingService.js:59-156 | the notes step fails only when the transcription file cannot be written; otherwise it returns the text with the trimmed stdout or the fallback notes |
| ProcessingService.TranscriptionErrorPropagates | src/services/processingService.js:36-39 | a transcription failure is rethrown unchanged and so still carries the `Failed to transcribe audio: ` prefix (also lines 157-160) |
| ProcessingService.EmptyTextRejected | src/services/processingService.js:42-46 | an empty or missing text fails with the fixed message and no notes are generated |
| ProcessingService.NoThrowAfterTextWritten | src/services/processingService.js:51 | once the text file is written every outcome succeeds with the transcriber's text, the title being the basename without extension (also lines 61, 119-156) |
| ProcessingService.NotesStepCleansUp | src/services/processingService.js:133-139 | the transcription file is always deleted; the script is deleted after a clean run; nothing else changes (also lines 149) |
| ProcessingService.ProcessAudio | src/services/processingService.js:28-161 | the method returns `Process` and leaves the temporary files `FilesAfterProcess` predicts |
| ProcessingService.Process | src/services/processingService.js:28-161 | defined by its body; properties in TranscriptionErrorPropagates, EmptyTextRejected, NoThrowAfterTextWritten and ProcessAudio |
| ProcessingService.GenerateFrom | src/services/processingService.js:42-156 | the steps after transcription return `ProcessFrom` and their file effect |
| ProcessingService.RunNotes | src/services/processingService.js:59-156 | the inner `try` and its catch return `NotesStep` and its file effect |
| ProcessingService.ProcessWithPdf | src/services/processingService.js:171-188 | failures pass through unchanged; success keeps the transcription, sets the constant PDF content and appends the fixed `## From Slides` paragraph to the notes |
| ProcessingService.ProcessAudioAndPdf | src/services/processingService.js:171-188 | the method returns `ProcessWithPdf` of the audio result and touches no file beyond `processAudio` |
| NotesGenerationService.Defaults | src/services/notesGenerationService.js:18-26 | each destructuring default applies only to an absent option: provider `default`, model from `API_MODEL` or `gemini-2.0-flash`, key from `API_KEY`, endpoint from `API_BASE_URL` or the Google endpoint |
| NotesGenerationService.DefaultUrlShape | src/services/notesGenerationService.js:68-74 | the default handler's URL extends the endpoint and ends with `/chat/completions` |
| NotesGenerationService.DefaultUrlSlash | src/services/notesGenerationService.js:68-74 | an endpoint with or without its trailing `/` gives the same URL: the slash is added only when missing |
| NotesGenerationService.ChoicesContent | src/services/notesGenerationService.js:103 | `choices[0].message.content` is read when the path exists; a null body is a TypeError (also lines 223) |
| NotesGenerationService.AnthropicText | src/services/notesGenerationService.js:272 | `content[0].text` is read when the path exists |
| NotesGenerationService.CustomExtractPrecedence | src/services/notesGenerationService.js:161-172 | on an object body the text is `choices[0].message.content` when `choices` and the first choice's `message` are truthy; when `choices` is falsy, or the first choice is an object whose `message` is falsy, it is `content`, else `response`, else `text`, else the serialised body, each only when all earlier ones are falsy; a truthy empty `choices` array raises reading `message` |
| NotesGenerationService.Settle | src/services/notesGenerationService.js:104-106 | a value read from the response fulfils; a TypeError while reading rejects with the handler's prefix (also lines 173-175) |
| NotesGenerationService.UnsupportedProvider | src/services/notesGenerationService.js:42-48 | any tag outside the six rejects with `Notes generation failed: Unsupported API provider: X` before any request |
| NotesGenerationService.HandlerMessageUnwrapped | src/services/notesGenerationService.js:63 | no credential message or handler error prefix starts with `Notes generation failed: ` (also lines 106, 121, 125, 175, 189, 226, 240, 275) |
| NotesGenerationService.OnlyUnsupportedWrapped | src/services/notesGenerationService.js:29-48 | a rejection of a supported provider carries the handler's own message, unwrapped, because the handler's promise is returned without `await` |
| NotesGenerationService.GenerateNotes | src/services/notesGenerationService.js:17-48 | defined by its body; properties in UnsupportedProvider, HandlerMessageUnwrapped, OnlyUnsupportedWrapped, DefaultRequest, CustomModelName and LocalAndOllamaNeverReject |
| NotesGenerationService.FalsyKeyRejected | src/services/notesGenerationService.js:62-64 | the default, custom, OpenAI and Anthropic handlers reject a falsy key whatever the HTTP client would do (also lines 120-122, 188-190, 239-241) |
| NotesGenerationService.CustomNeedsEndpoint | src/services/notesGenerationService.js:124-126 | the custom handler rejects an empty endpoint |
| NotesGenerationService.DefaultRequest | src/services/notesGenerationService.js:31 | the default provider posts to the normalised endpoint with the resolved model and a bearer key, then reads `choices[0].message.content` (also lines 61-107) |
| NotesGenerationService.CustomModelName | src/services/notesGenerationService.js:33 | the custom provider uses `apiModelName` when non-empty, else `model`, and posts to the endpoint as given (also lines 119-176) |
| NotesGenerationService.LocalAndOllamaNeverReject | src/services/notesGenerationService.js:286-294 | `local` always, and `ollama` on any request failure, fulfil with the mock notes (also lines 303-330) |
| NotesGenerationService.ExcerptIsPrefix | src/services/notesGenerationService.js:340-341 | the excerpt ends with `...`, what precedes it is a prefix of the transcription, and a transcription of at most 20 words is quoted whole |
| NotesGenerationService.MockNotesHeading | src/services/notesGenerationService.js:343-345 | the mock notes start with `# {title}` and the introduction heading |
| NotesGenerationService.MockNotesQuote | src/services/notesGenerationService.js:343-347 | the mock notes quote the excerpt right after the fixed introduction |
| FileStorageService.ReplaceNonAlnum | src/services/fileStorageService.js:43 | the length is kept, every character in `[a-z0-9]` stays, and every character outside `[a-z0-9]` becomes `-` |
| FileStorageService.CollapseDashes | src/services/fileStorageService.js:44 | collapsing dash runs never lengthens the text, keeps its first character and leaves no two dashes in a row |
| FileStorageService.CollapseKeepsNonDashes | src/services/fileStorageService.js:44 | collapsing removes only dashes: every other character survives, in order |
| FileStorageService.CollapseFixpoint | src/services/fileStorageService.js:44 | a text without a double dash is left unchanged |
| FileStorageService.CollapseIdempotent | src/services/fileStorageService.js:44 | collapsing twice equals collapsing once |
| FileStorageService.SlugShape | src/services/fileStorageService.js:41-45 | the title slug has at most 30 characters, all in `[a-z0-9-]`, no `--`, and is non-empty for a non-empty title |
| FileStorageService.Slug | src/services/fileStorageService.js:41-45 | defined by its body; properties in SlugShape |
| FileStorageService.Hash8 | src/services/fileStorageService.js:37 | the short hash is exactly the first min(8, length of digest) characters of the digest |
| FileStorageService.AudioIdShape | src/services/fileStorageService.js:34-49 | the id is the short hash of `basename-timestamp` alone for an empty title, and hash + `-` + slug otherwise |
| FileStorageService.GenerateAudioId | src/services/fileStorageService.js:34-49 | defined by its body; properties in AudioIdShape and AudioIdCaseInsensitive |
| FileStorageService.AudioIdCaseInsensitive | src/services/fileStorageService.js:42 | titles that lower to the same text (they differ only in letter case) give the same id for the same file and time |
| FileStorageService.NewMetadata | src/services/fileStorageService.js:81-87 | the metadata title is the given title, or the basename without extension when it is empty; file name, path and id are recorded |
| FileStorageService.TranscriptionOf | src/services/fileStorageService.js:151-159 | reading the transcription succeeds iff the file exists |
| FileStorageService.NotesOf | src/services/fileStorageService.js:167-175 | reading the notes succeeds iff the file exists |
| FileStorageService.MetadataOf | src/services/fileStorageService.js:183-191 | reading the metadata succeeds iff the file exists and parses |
| FileStorageService.SaveThenGetTranscription | src/services/fileStorageService.js:74-98 | after a save the transcription and metadata read back as written, the notes are unchanged and other ids are untouched (also lines 151-155) |
| FileStorageService.SaveNotesEffect | src/services/fileStorageService.js:117-138 | after `saveNotes` the notes read back as written, the transcription is unchanged, parsable metadata gains only `lastNotesGenerated`, unparsable metadata is left alone, other ids are untouched |
| FileStorageService.LastNotesWin | src/services/fileStorageService.js:125-133 | of two `saveNotes` calls the second one's notes and timestamp are what remains |
| FileStorageService.ListedMembership | src/services/fileStorageService.js:205-215 | a metadata record is listed iff some listed directory holds it and it parses; the list is no longer than the directory listing |
| FileStorageService.ListedAppend | src/services/fileStorageService.js:205-213 | the list is built directory by directory, in listing order |
| FileStorageService.SaveTranscriptionFaults | src/services/fileStorageService.js:70-107 | a save whose calls all resolve writes metadata and transcription; a rejected `init`, `mkdir` or metadata write leaves every file as it was; a rejected transcription write leaves the new metadata without the new transcription; other directories are untouched |
| FileStorageService.SaveNotesFaults | src/services/fileStorageService.js:117-142 | a save whose calls all resolve is `WithNotes`; a rejected `mkdir` or notes write changes no file; a rejected metadata rewrite is swallowed, keeping the new notes and the old metadata without `lastNotesGenerated`; other directories are untouched |
| FileStorageService.FileStorage.SaveTranscription | src/services/fileStorageService.js:70-107 | rejects with the first rejected filesystem call's error (`init`, `mkdir`, metadata write, transcription write); otherwise resolves with the `generateAudioId` id and its directory; the tree becomes `SavedTranscriptionDirs`, the writes up to the first rejection |
| FileStorageService.FileStorage.SaveNotes | src/services/fileStorageService.js:117-142 | rejects with a `mkdir` or notes-write error, otherwise resolves with `dataDir/id/notes.md`, also when the metadata rewrite fails; the tree becomes `SavedNotesDirs` of the old one |
| FileStorageService.FileStorage.GetTranscription | src/services/fileStorageService.js:151-159 | returns the stored transcription, or fails naming the missing file |
| FileStorageService.FileStorage.GetNotes | src/services/fileStorageService.js:167-175 | returns the stored notes, or fails naming the missing file |
| FileStorageService.FileStorage.GetMetadata | src/services/fileStorageService.js:183-191 | returns the stored metadata when it parses, and fails otherwise |
| FileStorageService.FileStorage.ListProcessedAudios | src/services/fileStorageService.js:198-220 | given a directory read that names each stored directory once, lists the parsable metadata in directory order, and a metadata record is listed iff some stored directory holds it and it parses; `[]` when the data directory cannot be read |
| FileStorageService.FileStorage.constructor | src/services/fileStorageService.js:11-13 | the store starts over the given data directory and the files already in it |
| NotesGeneratorPy.FillFromEnv | src/notes_generator.py:35-41 | only for `default`, and only where the argument is falsy and the variable is set, do `API_KEY`, `API_MODEL` and `API_BASE_URL` fill in key, model and endpoint; every other field and every other provider is untouched |
| NotesGeneratorPy.NormalizeEndpoint | src/notes_generator.py:105-107 | the normalised endpoint starts with the endpoint stripped of trailing `/`s and ends with `/chat/completions` |
| NotesGeneratorPy.NormalizeEndpointIdempotent | src/notes_generator.py:105-107 | normalising twice equals normalising once |
| NotesGeneratorPy.TitleRule | src/notes_generator.py:129-130 | the result always starts with `# {title}`; notes already starting with it are unchanged, others are kept as the tail (also lines 184-185, 245-246, 307-308) |
| NotesGeneratorPy.TitleRuleIdempotent | src/notes_generator.py:129-130 | applying the title rule twice equals applying it once |
| NotesGeneratorPy.MockSummaryShape | src/notes_generator.py:323-324 | the summary joins at most 5 dot-free `.`-pieces that form a prefix of the transcription, ends with `.`, and is the whole transcription plus `.` when it has no dot |
| NotesGeneratorPy.MockNotesShape | src/notes_generator.py:327-330 | the mock notes start with `# {title}` and `## Introduction` with the summary right below |
| NotesGeneratorPy.ChatContent | src/notes_generator.py:121-126 | a reply yields text only when it is non-empty; a body without `choices` yields none |
| NotesGeneratorPy.ChatContentStandard | src/notes_generator.py:122 | a standard chat-completions body yields its `choices[0].message.content` |
| NotesGeneratorPy.OllamaTitled | src/notes_generator.py:264-318 | the Ollama handler's result starts with `# {title}` on every path |
| NotesGeneratorPy.AlwaysTitled | src/notes_generator.py:44-59 | every value `generate_notes` returns starts with `# {title}`, whatever the provider and whatever the calls return (also lines 129-130, 327) |
| NotesGeneratorPy.CustomRouting | src/notes_generator.py:44-51 | `custom` posts through the custom handler to the given endpoint or Google's, with `model or api_model_name or "gemini-2.0-flash"` |
| NotesGeneratorPy.OtherRouting | src/notes_generator.py:52-59 | `openai` defaults to `gpt-4o`, `anthropic` to `claude-3.7-sonnet`; `local`, `ollama` and unknown tags give the mock notes (also lines 255-262) |
| NotesGeneratorPy.EnvOnlyForDefault | src/notes_generator.py:35-41 | the environment affects only the `default` provider |
| NotesGeneratorPy.CustomApiFallback | src/notes_generator.py:109-136 | a raised request, a status other than 200, a non-JSON body or empty content gives the mock notes; otherwise the content under the title rule |
| NotesGeneratorPy.GenerateNotes | src/notes_generator.py:7-59 | defined by its body; properties in AlwaysTitled, CustomRouting, OtherRouting and EnvOnlyForDefault |
| GeneratorsNoteGenerator.Configure | src/generators/note_generator.py:10-12 | each argument falls back to its environment variable when falsy; the model finally defaults to `meta-llama/Llama-3.2-3B-Instruct` |
| GeneratorsNoteGenerator.SameSettingsAsFirst | src/generators/note_generator.py:10-12 | key and base URL are chosen as by the other generator; the model differs only in the built-in fallback |
| GeneratorsNoteGenerator.Generator.constructor | src/generators/note_generator.py:8-24 | the generator keeps the configured settings |
| GeneratorsNoteGenerator.Generator.GenerateNotes | src/generators/note_generator.py:26-82 | the notes are the chat reply to the shared prompt (slides before transcript text), or `Error generating notes: ` + message when the call raises |
| NoteGenerator.Configure | src/note_generator.py:15-17 | each constructor argument wins when truthy, otherwise the environment variable is used |
| NoteGenerator.TranscriptText | src/note_generator.py:36-39 | a dict with a string `text` gives that text; a plain string transcript is used as it is |
| NoteGenerator.SlideLineDefaults | src/note_generator.py:46-48 | every slide line ends with a blank line; a slide without number and content reads `Slide unknown: ` |
| NoteGenerator.SlidesContentShape | src/note_generator.py:42-48 | the slides part is empty iff there are no slides, otherwise the header followed by one line per slide, in order |
| NoteGenerator.PromptOrder | src/note_generator.py:51-67 | the prompt holds the slides part right after its opening and the transcript text after it |
| NoteGenerator.Prompt | src/note_generator.py:51-67 | defined by its body; properties in PromptOrder |
| NoteGenerator.NotesFor | src/note_generator.py:82-87 | a raised call gives `Error generating notes: ` + message, never an exception; otherwise the reply's content as it is |
| NoteGenerator.Generator.constructor | src/note_generator.py:13-29 | the generator keeps the configured settings |
| NoteGenerator.Generator.BuildSlidesContent | src/note_generator.py:42-48 | the accumulated slides part equals `SlidesContent` |
| NoteGenerator.Generator.AppendSlideLines | src/note_generator.py:45-48 | the loop appends one line per slide, in order |
| NoteGenerator.Generator.GenerateNotes | src/note_generator.py:31-87 | the notes are `NotesFor` the reply to the prompt built from the slides part and the transcript text |
| NoteGenerator.Advance | src/note_generator.py:97-99 | the slide index never decreases, skips exactly the slides that ended by the segment's start, and stops at the first that ends later |
| NoteGenerator.CombineShape | src/note_generator.py:95-112 | one item per segment, in order, with the segment's start and text; with no slides every context is empty |
| NoteGenerator.AdvanceFromPassed | src/note_generator.py:97-99 | continuing from a passed index finds the same slide as a search from the first slide |
| NoteGenerator.CombineFindsFirstSlide | src/note_generator.py:95-112 | for chronological segments each item's context is that of the first slide ending after the segment starts, or empty when all slides are passed |
| NoteGenerator.CombineContent | src/note_generator.py:89-115 | the nested loops compute `Combine` |
| NoteGenerator.Combine | src/note_generator.py:89-115 | defined by its body; properties in CombineShape, CombineFindsFirstSlide and CombineContent |
| LectureProcessor.EmptyIsNoTransition | src/lecture_processor.py:76-92 | an empty text contains none of the four transition phrases |
| LectureProcessor.Step | src/lecture_processor.py:87-105 | a transition closes a non-empty current slide at the segment's start and opens a slide with the segment's original text, its start, and end 0; any other segment appends `" " + text`; a missing `text`, or a missing `start` at a transition, is a `KeyError` |
| LectureProcessor.ExtractSlides | src/lecture_processor.py:84 | no segments give `[]`; every failure is reported as `Slide extraction failed: ...` (also lines 108-119) |
| LectureProcessor.FlattenSnoc | src/lecture_processor.py:95 | emitting a slide appends its content to the emitted text (also lines 111) |
| LectureProcessor.ShapedStep | src/lecture_processor.py:87-105 | one well-formed segment keeps the slide count, the current slide's content and all the text accounted for |
| LectureProcessor.ShapedOpen | src/lecture_processor.py:93-102 | a transition emits one slide exactly when the current one has content, and opens a slide with content |
| LectureProcessor.FoldShape | src/lecture_processor.py:87-105 | processing well-formed segments never fails and keeps the slide count and text accounted for |
| LectureProcessor.SlideCount | src/lecture_processor.py:87-111 | for non-empty well-formed input the slide count is the number of transition segments plus 1 when the first segment is not a transition; the slides hold all the text, and the last ends at the last segment's end |
| LectureProcessor.WellFormedSucceeds | src/lecture_processor.py:87-115 | segments that all have text, start and end never make the extraction fail |
| LectureProcessor.FoldFailureStays | src/lecture_processor.py:83-119 | the first failing segment decides the error: later segments do not change it |
| LectureProcessor.Fold | src/lecture_processor.py:83-119 | defined by its body; properties in FoldShape, SlideCount, WellFormedSucceeds and FoldFailureStays |
| LectureProcessor.Processor.ExtractSlidesFrom | src/lecture_processor.py:62-119 | the method returns `ExtractSlides`, keeps the result in `slides` on success, and leaves `slides` unchanged on failure |
| AudioProcessor.LenError | src/audio_processor.py:76 | `len(text)` raises exactly for values that are not strings, lists or dicts |
| AudioProcessor.TimeAt | src/audio_processor.py:70-71 | a chunk without `timestamp` gives 0; otherwise the entry at that index |
| AudioProcessor.SegmentFor | src/audio_processor.py:68-73 | a chunk becomes a segment iff its timestamp is absent or has two entries; the id is the chunk's index, the times come from `timestamp[0]`/`[1]` (0 when absent) and the text defaults to `""` |
| AudioProcessor.SegmentsShape | src/audio_processor.py:66-74 | well-formed chunks give one segment per chunk, in order, numbered from 0 |
| AudioProcessor.Segments | src/audio_processor.py:66-74 | defined by its body; properties in SegmentsShape, NoChunksNoSegments, ChunksBecomeSegments and SegmentsFailureStays |
| AudioProcessor.Transcribe | src/audio_processor.py:46-81 | a missing file raises `FileNotFoundError` before the pipeline runs; a result comes from a pipeline call on the path with language "en" that returned, carries that call's text (lines 59-63) and the given language; every other failure is `Audio transcription failed: ...` |
| AudioProcessor.LanguageOnlyLabels | src/audio_processor.py:53 | the pipeline is always asked for English: the language argument changes only the label of the result (also lines 61) |
| AudioProcessor.NoChunksNoSegments | src/audio_processor.py:59-66 | without `chunks` the segments are empty and the text is the pipeline's |
| AudioProcessor.ChunksBecomeSegments | src/audio_processor.py:66-74 | with `chunks` the segments are those built from the chunks |
| AudioProcessor.SegmentsFailureStays | src/audio_processor.py:67-74 | the first malformed chunk decides the error |
| AudioProcessor.ChunksToSegments | src/audio_processor.py:66-74 | the loop computes `Segments` |
| AudioProcessor.TranscribeAudio | src/audio_processor.py:34-81 | the method computes `Transcribe` |
| ProcessorsAudioProcessor.Transcribe | src/processors/audio_processor.py:60-94 | an unloaded model raises `RuntimeError` before the file check, a missing file `FileNotFoundError`; a result has the pipeline's text, the given language, and the pipeline's chunks unchanged or else one whole-text chunk |
| ProcessorsAudioProcessor.WholeTextSegment | src/processors/audio_processor.py:83-87 | the invented chunk reshapes into one segment from 0 to 0 holding the whole text, so the chunk list is never empty |
| ProcessorsAudioProcessor.GuardsOrder | src/processors/audio_processor.py:60-67 | the model check comes before the file check, and both transcribers report a missing file alike |
| PdfProcessor.Basic | src/processors/pdf_processor.py:194-211 | basic extraction gives one slide per page, in order, numbered page index + 1, holding the page's text, with a null timestamp (lines 201-209) |
| PdfProcessor.KeepAfterBasic | src/processors/pdf_processor.py:166-168 | keeping the basic slides numbered above `k` keeps exactly those of pages `k` onwards |
| PdfProcessor.KeepAfterFrom | src/processors/pdf_processor.py:168 | filtering a run numbered from `j + 1` by `slide_number > k` keeps its tail from `k` |
| PdfProcessor.KeepAfter | src/processors/pdf_processor.py:168 | defined by its body; properties in KeepAfterBasic and KeepAfterFrom |
| PdfProcessor.OcrContent | src/processors/pdf_processor.py:148-154 | the page content is `natural_text` of output that parses to an object containing it, else the raw output |
| PdfProcessor.OcrNumbering | src/processors/pdf_processor.py:94-192 | whatever each page's outcome, the loop yields one slide per remaining page, numbered on contiguously, each with a null timestamp; a page that raised holds its basic text |
| PdfProcessor.WithOcr | src/processors/pdf_processor.py:75-92 | no result iff the `pdfinfo` probe raised something else; a probe that finds no `pdfinfo` gives basic extraction; a probe that ran gives the OCR loop; any result has one slide per page numbered 1..n with a null timestamp |
| PdfProcessor.OcrFrom | src/processors/pdf_processor.py:94-192 | defined by its body; properties in OcrNumbering, OcrContent and WithOcr |
| PdfProcessor.ProcessPdf | src/processors/pdf_processor.py:50-92 | a missing file raises `FileNotFoundError` and nothing else does; without a model basic extraction is used; a document that cannot be opened gives `[]`; with a model, a probe that finds no `pdfinfo` gives basic extraction, a probe that raised gives `[]`, and a probe that ran gives the OCR loop from page 0 |
| PdfProcessor.Contiguous | src/processors/pdf_processor.py:50-92 | every result is empty or numbers its slides 1..n, one per page, each with a null timestamp (also lines 162-170) |
| PdfProcessor.Processor.BasicExtraction | src/processors/pdf_processor.py:194-211 | the page loop computes `Basic` |
| PdfProcessor.Processor.OcrPages | src/processors/pdf_processor.py:94-192 | the OCR page loop, with its early stop, computes `OcrFrom` |
| PdfProcessor.Processor.FilterAfter | src/processors/pdf_processor.py:168 | the list comprehension computes `KeepAfter` |
| PdfProcessor.Processor.ProcessPdfFile | src/processors/pdf_processor.py:50-92 | the method computes `ProcessPdf` for the processor's model state |
| PdfProcessor.Processor.constructor | src/processors/pdf_processor.py:13-49 | the processor records whether the OCR model loaded; a failed load leaves it on basic extraction |
| ApiRoutes.FileFilter | src/routes/apiRoutes.js:35-59 | `audio` is accepted iff its type starts with `audio/` or is `application/octet-stream`, `slides` iff it is PDF, ms-powerpoint or pptx; each field's rejection message is its own, and any other field gets `Unexpected file field` |
| ApiRoutes.AcceptedFields | src/routes/apiRoutes.js:35-59 | only `audio` and `slides` are ever accepted, and neither name has a dot or a slash |
| ApiRoutes.StoredFilename | src/routes/apiRoutes.js:26-31 | the stored name starts with `{fieldname}-` and ends with the original file's extension |
| ApiRoutes.Dashed | src/routes/apiRoutes.js:28-30 | `{field}-{a}-{b}{ext}` starts with `{field}-` and ends with `ext` |
| ApiRoutes.DashedPlain | src/routes/apiRoutes.js:28-30 | a field name without dots and slashes joined with two digit strings has no dot and no slash |
| ApiRoutes.DashedExt | src/routes/apiRoutes.js:28-30 | that name followed by an extension has exactly that extension and no slash |
| ApiRoutes.StoredKeepsExtension | src/routes/apiRoutes.js:26-59 | every accepted upload is stored under a name with the original file's extension and no directory part |
| ApiRoutes.Fail | src/routes/apiRoutes.js:129-132 | an error reply carries its status, `success: false` and the message (also lines 204-207, 305-308) |
| ApiRoutes.WithOptional | src/routes/apiRoutes.js:146-150 | a reply property whose value is undefined is dropped from the JSON body; all other properties are kept |
| ApiRoutes.RouteModel | src/routes/apiRoutes.js:144 | a truthy whisper model is passed through, anything else becomes `'default'` |
| ApiRoutes.TranscribeRoute | src/routes/apiRoutes.js:124-159 | 400 iff `audioPath` is falsy, 404 iff the file is absent, 200 with the path and the transcription, 500 with `Transcription failed` otherwise |
| ApiRoutes.TranscribeReply | src/routes/apiRoutes.js:144-158 | 200 iff the transcriber resolved; otherwise 500 with `success: false` |
| ApiRoutes.TranscribeDefaultModel | src/routes/apiRoutes.js:144 | without a whisper model the route hands the transcriber the literal `'default'`, which the script passes on, while `processAudio` maps `'default'` to null |
| ApiRoutes.TranscribeGuardsFirst | src/routes/apiRoutes.js:128-133 | a missing path is answered before the file system or the transcriber is consulted |
| ApiRoutes.NotesOptions | src/routes/apiRoutes.js:189-196 | the notes options carry the request's fields and the title or `Lecture Notes` |
| ApiRoutes.GenerateNotesRoute | src/routes/apiRoutes.js:166-209 | 400 iff the transcription is falsy, 500 with `Error generating notes: ...` on a rejection, 200 otherwise |
| ApiRoutes.NotesReply | src/routes/apiRoutes.js:198-207 | a fulfilled call gives 200 with the notes, a rejected one 500 with the prefixed message |
| ApiRoutes.NoTranscriptionNoCall | src/routes/apiRoutes.js:179-184 | without a transcription the reply does not depend on the generator, the environment or the HTTP client |
| ApiRoutes.GenerateNotesDelegates | src/routes/apiRoutes.js:186-207 | with a transcription the reply is the notes service's outcome, with the request's title or `Lecture Notes` |
| ApiRoutes.ProcessOptions | src/routes/apiRoutes.js:223-230 | the processing options carry the form's six fields unchanged (also lines 256-263) |
| ApiRoutes.ProcessOutcome | src/routes/apiRoutes.js:249-277 | `processAudioAndPdf` is used iff a slides file came along, otherwise `processAudio` |
| ApiRoutes.Cleanup | src/routes/apiRoutes.js:290-299 | cleanup only removes files: the audio upload is deleted when present; the slides upload is deleted only when the audio deletion did not throw; a missing audio file throws and leaves everything |
| ApiRoutes.ProcessRoute | src/routes/apiRoutes.js:216-310 | 400 iff no audio file, 500 with `Error processing files: ...` on failure, 200 otherwise |
| ApiRoutes.ProcessReply | src/routes/apiRoutes.js:281-308 | success gives 200 with transcription and notes, failure 500 with the prefixed message |
| ApiRoutes.ProcessFailureCleansUp | src/routes/apiRoutes.js:286-308 | a failed run answers 500 with the wrapped message and deletes the uploads; a successful one keeps them |
| ApiRoutes.ProcessUsesPdfIffSlides | src/routes/apiRoutes.js:250-285 | the reply's notes carry the `## From Slides` paragraph exactly when slides were uploaded |
| ClientApp.FindIndex | src/static/js/app.js:1196 | the index found is that of the first note with the id, and none is found iff no note has it |
| ClientApp.SavedCurrent | src/static/js/app.js:1190-1192 | defined by its body; properties in AutoSaveAppends and NotesState.AutoSaveCurrentNote |
| ClientApp.SavedNotes | src/static/js/app.js:1184-1205 | defined by its body; properties in AutoSaveNeedsContentAndTitle, AutoSaveAppends, AutoSaveUpdatesInPlace and SecondSaveUpdatesFirst |
| ClientApp.AutoSaveNeedsContentAndTitle | src/static/js/app.js:1185 | auto-save with an empty content or title changes nothing |
| ClientApp.AutoSaveAppends | src/static/js/app.js:1190-1193 | a note without an id is appended with the new id and date, after the untouched earlier notes |
| ClientApp.AutoSaveUpdatesInPlace | src/static/js/app.js:1194-1205 | a note with an id changes only the first saved note with that id, and only its content, transcription and `lastUpdated`; without a match nothing changes |
| ClientApp.SecondSaveUpdatesFirst | src/static/js/app.js:1184-1205 | a second auto-save refreshes the note the first one appended and adds nothing |
| ClientApp.Without | src/static/js/app.js:531 | deletion keeps only notes with another id, all of them taken from the list |
| ClientApp.WithoutKeepsOthers | src/static/js/app.js:531 | every note with another id survives as often as it was there; no note with the id survives |
| ClientApp.WithoutKeepsOrder | src/static/js/app.js:531 | the surviving notes keep their relative order |
| ClientApp.WithoutIdempotent | src/static/js/app.js:531 | deleting twice is deleting once |
| ClientApp.Renamed | src/static/js/app.js:1253-1256 | the result is the current title or the non-empty trimmed input, and it differs from the current title iff the trimmed input is non-empty and differs from it |
| ClientApp.RenameProperties | src/static/js/app.js:1253-1256 | a rename never blanks a title and repeating it changes nothing |
| ClientApp.StripExtension | src/static/js/app.js:875 | only a final `.ext`, with `ext` non-empty and free of `.` and `/`, is removed |
| ClientApp.NoDotAfter | src/static/js/app.js:875 | past a dot with no dot behind it there is no dot |
| ClientApp.LastDot | src/static/js/app.js:875 | only the last dot can start the removed extension |
| ClientApp.StripExtensionIff | src/static/js/app.js:875 | the name changes iff it has such an extension |
| ClientApp.Spaced | src/static/js/app.js:878 | every `_` and `-` becomes a space and nothing else changes |
| ClientApp.Capitalized | src/static/js/app.js:881 | exactly the word-initial characters are upper-cased |
| ClientApp.UpperKeepsWordChar | src/static/js/app.js:881 | upper-casing keeps word characters word characters and is idempotent |
| ClientApp.CapitalizedIdempotent | src/static/js/app.js:881 | capitalising twice equals capitalising once |
| ClientApp.TitleShape | src/static/js/app.js:873-884 | the derived title has no `_` or `-`, has the length of the stem, and each of its words starts upper-cased |
| ClientApp.TitleFromFilename | src/static/js/app.js:873-884 | defined by its body; properties in TitleShape, StripExtensionIsStem and HiddenFileStems |
| ClientApp.StripExtensionIsStem | src/static/js/app.js:875 | for a plain name whose last dot is neither first nor last, the client's title stem equals the server's basename without extension |
| ClientApp.HiddenFileStems | src/static/js/app.js:875 | for a hidden file name such as `.notes` (a leading dot and no other) the server keeps the whole name as the stem while the client strips it to nothing |
| ClientApp.InsertByDate | src/static/js/app.js:210-212 | inserting adds one note |
| ClientApp.InsertAdds | src/static/js/app.js:210-212 | inserting adds exactly that note and keeps all others |
| ClientApp.ConsNewestFirst | src/static/js/app.js:210-212 | a note no older than the head of a newest-first list may go in front of it |
| ClientApp.InsertKeepsOrder | src/static/js/app.js:210-212 | inserting into a newest-first list keeps it newest first |
| ClientApp.SortedByDate | src/static/js/app.js:210-212 | sorting keeps the length |
| ClientApp.SortedByDateSorts | src/static/js/app.js:210-212 | the sidebar order is a permutation of the saved notes, newest first |
| ClientApp.NotesState.constructor | src/static/js/app.js:63-71 | the page starts with no saved notes and the `Generated Notes` note |
| ClientApp.NotesState.AutoSaveCurrentNote | src/static/js/app.js:1184-1205 | the saved notes and current note become `SavedNotes` and `SavedCurrent` of the old ones |
| ClientApp.NotesState.DeleteNote | src/static/js/app.js:527-531 | after confirmation the notes become `Without(notes, id)`; without it nothing changes |
| ClientApp.NotesState.SaveNoteTitle | src/static/js/app.js:1252-1262 | the note's title becomes `Renamed`; the current note follows when it has the same id; nothing else changes |
| ClientApp.NotesState.SidebarOrder | src/static/js/app.js:210-212 | the listing is a permutation of the saved notes, newest first |
| ClientApp.StageIndex | src/static/js/app.js:921-942 | a stage has a position iff it is one of the four, and that position names it |
| ClientApp.StepMarks | src/static/js/app.js:914-949 | earlier steps are completed, the stage's own step is active, later ones are idle; all idle for an unknown stage |
| ClientApp.Tick | src/static/js/app.js:449-452 | a tick adds one percent below the cap and nothing at or above it (also lines 772-775) |
| ClientApp.TicksReachCap | src/static/js/app.js:449-452 | from below the cap, `n` ticks give `min(progress + n, cap)` (also lines 772-775) |
| ClientApp.ProgressCaps | src/static/js/app.js:449-452 | from the start of a stage the bar never passes 60 while transcribing nor 95 while generating (also lines 772-775, 897-906) |
| ClientApp.ProcessingView.constructor | src/static/js/app.js:53 | the page starts idle with an empty bar and no step marked |
| ClientApp.ProcessingView.UpdateProcessingState | src/static/js/app.js:887-949 | the stage is set, the bar jumps to the stage's width for a known stage, and the steps become `StepMarks` |
| ClientApp.ProcessingView.ProgressTick | src/static/js/app.js:444-456 | a timer tick re-arms iff the stage is still the one it watches, and then moves the bar by `Tick` (also lines 767-779) |
| ClientScript.LowerEndsWith | src/static/js/script.js:306-308 | a name that ends with an extension still ends with the lower-cased extension once lower-cased |
| ClientScript.ExtensionCaseInsensitive | src/static/js/script.js:306-309 | a `.mp3`/`.MP3` name counts as audio and a `.pdf`/`.PDF` name as slides, whatever the MIME type |
| ClientScript.PptTypeLacksPresentation | src/static/js/script.js:335-336 | the MIME type of a `.ppt` file does not contain `presentation` |
| ClientScript.PptxTypeHasPresentation | src/static/js/script.js:335-336 | the MIME type of a `.pptx` file contains `presentation` |
| ClientScript.PptTypeNeedsName | src/static/js/script.js:332-336 | a `.ppt` file is recognised only by its name, a `.pptx` file by its type alone |
| ClientScript.SettingsToSave | src/static/js/script.js:725-742 | saving fails iff the model is `custom` and the trimmed custom name is empty; otherwise the saved theme, model, custom name (blank unless custom) and trimmed base URL |
| ClientScript.TrimJsIdempotent | src/static/js/script.js:738-739 | trimming a trimmed input changes nothing |
| ClientScript.SettingsStore.constructor | src/static/js/script.js:797-805 | nothing is saved at first |
| ClientScript.SettingsStore.Current | src/static/js/script.js:797-805 | the saved settings when there are any, the defaults otherwise |
| ClientScript.SettingsStore.SaveSettings | src/static/js/script.js:725-742 | stores exactly the settings `SettingsToSave` accepts and leaves storage untouched when it refuses |
| ClientScript.FormFor | src/static/js/script.js:381-393 | the form carries each file iff it was chosen and is non-empty, the custom name for a custom model and the model name otherwise, and the base URL or `''` |
| ClientScript.FilesRequired | src/static/js/script.js:292-295 | with no file the submission stops with the no-file alert; an empty audio file always stops it (lines 318-321) |
| ClientScript.EmptySlidesRule | src/static/js/script.js:345-357 | empty slides stop the submission without audio; with acceptable audio they stop it iff the user declines to go on with the audio alone |
| ClientScript.Decide | src/static/js/script.js:292-365 | defined by its body; properties in FilesRequired, EmptySlidesRule, SavedSettingsPass and SentFormShape |
| ClientScript.SentFormShape | src/static/js/script.js:292-393 | every form sent carries at least one non-empty file, a non-blank custom model name when the model is custom, and exactly `FormFor`'s fields |
| ClientScript.SavedSettingsPass | src/static/js/script.js:361-365 | settings that saving accepted never trip the blank-custom-model check of the submission (lines 730-733) |
| ClientScript.OnSubmit | src/static/js/script.js:286-393 | the handler, with its acceptable-file flag, reaches the same outcome as the ordered checks of `Decide` |
| ClientScript.HintFor | src/static/js/script.js:542-548 | a 400 hint iff title or message mentions 400; a 500 hint iff not 400 and one mentions 500; a network hint iff neither and the title says Network Error or the message says connection |
| ClientScript.Headline | src/static/js/script.js:536-539 | the title first; for a non-empty message the two characters after it are `\n\n` and the message follows, for an empty message the title alone |
| ClientScript.ErrorText | src/static/js/script.js:536-548 | the headline followed directly by the text of the chosen hint, nothing between (its length is the sum of the two) |
| ClientScript.MessageDecidesHint | src/static/js/script.js:542-547 | for the titles 'Error' (line 431), 'Failed to generate notes' (lines 437, 492) and 'Server error' (line 498) the message alone decides the hint: 400 iff it mentions 400, 500 iff it mentions 500 and not 400, network iff it mentions neither and says connection |
| ClientScript.PlainTitle | src/static/js/script.js:542-547 | a title without the characters 4, 5 and N mentions neither 400, 500 nor Network Error, so only the message can select a hint |
| ClientScript.ServerTitleHint | src/static/js/script.js:497-499 | the 'Server error' title of the failed-response branch gets the server-error hint (lines 544-545) whenever the message mentions 500 and not 400 |
| ClientScript.BadRequestTitleHint | src/static/js/script.js:431 | the 'Error' title gets the bad-request hint (lines 542-543) whenever the message mentions 400 |
| ClientScript.NetworkTitleHint | src/static/js/script.js:518-522 | the network-failure box gets the network hint unless its message mentions 400 or 500 |
| ClientScript.NetworkTitleFacts | src/static/js/script.js:518-519 | the network-failure title contains "Network Error" and neither 400 nor 500 |

## Left out

- Speech recognition, OCR, chat-model and SDK calls, and HTTP transports. Their results are parameters (oracles), so the model states what the code does with any result, not which result comes back.
- Subprocess execution and the text of the generated Python scripts. The transcription script imports module-level `transcribe_audio` and `get_transcription_text` from `src/audio_processor.py`, which defines only methods of the `AudioProcessor` class. Each attempt's outcome is an oracle, so the model does not capture that a real attempt would fail at that import.
- Clocks, `Math.random`, md5 and ISO timestamps are parameters. `Date` parsing in the sidebar sort is an `at` oracle, so invalid dates (NaN) are not modelled.
- The DOM, `localStorage` serialisation, `fetch`, timers, `alert`, and the answers to `confirm` dialogs. The answers are parameters. The other effects change nothing the model states.
- Express and multer plumbing: body parsing, the size limits, the `/upload` route and the static pages. Request fields are modelled as the strings multer or `express.json` leave in `req.body`. A field that is not a string is modelled as absent (`Option<string>`).
- The FastAPI app (`src/app.py`) and the command-line entry point (`src/main.py`). They are not part of this model.
- Concurrency. Requests, timers and auto-save are modelled as one call at a time.
- Aliasing of note objects in `app.js`. Notes are values, while the page can share one object between `state.currentNote` and `state.notes`. A later change to a shared object is therefore not reflected in the model.
- Case mapping. `toLowerCase`, `toUpperCase` and Python's `lower()` are exact on ASCII. Any other character is treated as lowering to a non-ASCII form of its own (`Strings.LowerPiece`). This is enough for the ASCII phrases and extensions the code tests, but it does not reproduce Unicode's tables.
- Python's `str()` of a list or dict, Python's float formatting and `str(Path)` normalisation. They are parameters or plain strings. A timestamp of `0.0` and one of `0` are the same JSON number.
- LectureProcessor.Processor.ExtractSlidesFrom: the Python processor starts with `self.slides = None` and assigns a list only when `extract_slides` runs. The model starts with an empty list, so it does not distinguish "never extracted" from "no slides".
- NotesGeneratorPy.OllamaTitled: the Ollama handler in `src/notes_generator.py` cannot be reached from the dispatcher. It is modelled, and only its title heading is proved.
- ClientScript.ErrorText: of the troubleshooting text `showErrorMessage` adds, only the status hint (400, 500 or network) is modelled. The OpenAI-key note and the empty-file and format tips are left out.
- The notes page's "regenerate notes" request sends multipart form data to `/api/generate-notes`, a route without multer. The model takes the request fields as already parsed, so it does not show what the route receives from that request.
- ProcessingService.FallbackNotesShape: `substring(0, 500)` counts UTF-16 code units, while the model's strings count Unicode scalar values. For text with characters above U+FFFF the source keeps fewer characters, and can split a surrogate pair. The same holds for the `length` that `Json.JsGet` reads from a string.
- ProcessingService.NotesStepCleansUp: the `unlink` calls of the notes step are taken to resolve. A rejected one is only logged, and its file would stay.
- FileStorageService.FileStorage.SaveTranscription: a rejected `writeFile` is taken to leave its file as it was. A write that fails halfway could leave a truncated file.
- FileStorageService.FileStorage.ListProcessedAudios: the directory read is a parameter. Its contract assumes the read names each stored directory exactly once.
- FileStorageService.AudioDataDir: the directory of an id is `dataDir + "/" + id`, where the source uses `path.join`, which normalises the id. So ids such as `x`, `x/`, `./x` and `a/../x` name one directory in the source but four entries in the model, and the paths in `ENOENT` messages are not normalised. `generateAudioId` only produces ids of `[0-9a-f-]` and `[a-z0-9-]` characters, which `path.join` leaves alone.
- Logging, console output and error stack traces.
