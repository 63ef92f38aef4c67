/**
 * The lecture form page: which chosen files look like audio or slides, the
 * checks made before the form is sent (each may stop the submission, some
 * only after a confirmation dialog), the form fields that are sent, the
 * saved settings, and the hints added to an error message.
 */
module ClientScript {
  import opened Wrappers
  import opened Strings
  import opened Json
  import opened MimeTypes

  /** A chosen file: its name and type (`''` when the browser gives none) and its size in bytes. */
  datatype FileInfo = FileInfo(name: string, mimeType: string, size: nat)

  // ------------------------------------------------------------ validators

  predicate AudioByExtension(name: string) {
    var n := Lower(name);
    EndsWith(n, ".mp3") || EndsWith(n, ".wav") || EndsWith(n, ".m4a") || EndsWith(n, ".ogg") || EndsWith(n, ".mp4")
  }

  predicate AudioByType(mimeType: string) {
    StartsWith(mimeType, "audio/") || Contains(mimeType, "mp4")
  }

  /** The audio check: a known extension in any letter case, or an audio or mp4 type. */
  predicate AudioLooksValid(f: FileInfo) {
    AudioByExtension(f.name) || AudioByType(f.mimeType)
  }

  predicate SlidesByExtension(name: string) {
    var n := Lower(name);
    EndsWith(n, ".pdf") || EndsWith(n, ".ppt") || EndsWith(n, ".pptx")
  }

  predicate SlidesByType(mimeType: string) {
    mimeType == "application/pdf" || Contains(mimeType, "presentation")
  }

  /** The slides check: a PDF or PowerPoint extension in any letter case, or a PDF or presentation type. */
  predicate SlidesLooksValid(f: FileInfo) {
    SlidesByExtension(f.name) || SlidesByType(f.mimeType)
  }

  /** Lowering a name keeps the lowered form of an ending appended to it. */
  lemma LowerEndsWith(p: string, e: string)
    ensures EndsWith(Lower(p + e), Lower(e))
  {
    LowerAppend(p, e);
    EndsWithAppend(Lower(p), Lower(e));
  }

  /** Any name ending in `.mp3` or `.MP3`, and any name ending in `.pdf` or `.PDF`, passes whatever its type. */
  lemma ExtensionCaseInsensitive(p: string, t: string, size: nat)
    ensures AudioLooksValid(FileInfo(p + ".mp3", t, size)) && AudioLooksValid(FileInfo(p + ".MP3", t, size))
    ensures SlidesLooksValid(FileInfo(p + ".pdf", t, size)) && SlidesLooksValid(FileInfo(p + ".PDF", t, size))
  {
    LowerEndsWith(p, ".mp3");
    LowerEndsWith(p, ".MP3");
    LowerEndsWith(p, ".pdf");
    LowerEndsWith(p, ".PDF");
    LowerMp3();
    LowerPdf();
  }

  lemma LowerMp3()
    ensures Lower(".MP3") == ".mp3" && Lower(".mp3") == ".mp3"
  {
  }

  lemma LowerPdf()
    ensures Lower(".PDF") == ".pdf" && Lower(".pdf") == ".pdf"
  {
  }

  lemma PptTypeLacksPresentation()
    ensures !Contains(PptType, "presentation")
  {
    NotContainsByPair(PptType, "presentation");
  }

  lemma PptxTypeHasPresentation()
    ensures Contains(PptxType, "presentation")
  {
    assert PptxType[|PptxType| - 12..] == "presentation";
    ContainsAt(PptxType, "presentation", |PptxType| - 12);
  }

  /** A PowerPoint 97 type is not enough on its own: such a file passes only by its name; the newer type passes alone. */
  lemma PptTypeNeedsName(name: string, size: nat)
    requires !SlidesByExtension(name)
    ensures !SlidesLooksValid(FileInfo(name, PptType, size))
    ensures SlidesLooksValid(FileInfo(name, PptxType, size))
  {
    PptTypeLacksPresentation();
    PptxTypeHasPresentation();
  }

  // ------------------------------------------------------------- settings

  /** The saved settings. */
  datatype Settings = Settings(theme: string, modelType: string, customModel: string, baseUrl: Option<string>)

  const DefaultSettings: Settings := Settings("light", "gpt-4", "", Some(""))

  const CustomNameMissing: string := "Please enter a custom model name"

  /** `saveSettings`: the settings to store, or the refusal for a blank custom name. */
  function SettingsToSave(dark: bool, modelType: string, customInput: string, baseUrlInput: string): (r: Result<Settings, string>)
    ensures r.Failure? <==> modelType == "custom" && TrimJs(customInput) == ""
    ensures r.Failure? ==> r.error == CustomNameMissing
    ensures r.Success? ==> r.value.modelType == modelType && r.value.baseUrl == Some(TrimJs(baseUrlInput))
    ensures r.Success? ==> r.value.customModel == (if modelType == "custom" then TrimJs(customInput) else "")
    ensures r.Success? ==> r.value.theme == (if dark then "dark" else "light")
  {
    var isCustom := modelType == "custom";
    if isCustom && TrimJs(customInput) == "" then Failure(CustomNameMissing)
    else Success(Settings(if dark then "dark" else "light", modelType, if isCustom then TrimJs(customInput) else "",
                          Some(TrimJs(baseUrlInput))))
  }

  /** Trimming a trimmed string changes nothing. */
  lemma TrimJsIdempotent(s: string)
    ensures TrimJs(TrimJs(s)) == TrimJs(s)
  {
    TrimIdempotent(s, IsJsSpace);
  }

  /** The browser's settings storage, as far as this page uses it. */
  class SettingsStore {
    var saved: Option<Settings>

    constructor()
      ensures saved.None?
    {
      saved := None;
    }

    /** `getSettings`: the stored settings, or the defaults. */
    function Current(): (r: Settings)
      reads this
      ensures saved.Some? ==> r == saved.value
      ensures saved.None? ==> r == DefaultSettings
    {
      saved.GetOr(DefaultSettings)
    }

    /** `saveSettings`; a blank custom name is refused and nothing is stored. */
    method SaveSettings(dark: bool, modelType: string, customInput: string, baseUrlInput: string)
      returns (r: Result<Settings, string>)
      modifies this
      ensures r == SettingsToSave(dark, modelType, customInput, baseUrlInput)
      ensures r.Success? ==> saved == Some(r.value)
      ensures r.Failure? ==> saved == old(saved)
    {
      r := SettingsToSave(dark, modelType, customInput, baseUrlInput);
      if r.Success? {
        saved := Some(r.value);
      }
    }
  }

  // ------------------------------------------------------------ submission

  /** Why the form was not sent. */
  datatype Blocker =
    | NoFile                 // neither file chosen
    | AudioFormatDeclined    // the user declined to send an unrecognised audio file
    | EmptyAudio
    | SlidesFormatDeclined   // the user declined to send an unrecognised slides file
    | EmptySlidesDeclined    // the user declined to go on with the audio alone
    | EmptySlides            // empty slides and no audio to fall back on
    | BlankCustomModel

  /** The multipart form that is sent. */
  datatype Form = Form(audio: Option<FileInfo>, slides: Option<FileInfo>, apiModel: string, apiBaseUrl: string)

  datatype Decision = Blocked(reason: Blocker) | Sent(form: Form)

  /** The user's answers to the three confirmation dialogs the checks may open. */
  datatype Answers = Answers(sendOddAudio: bool, sendOddSlides: bool, sendWithoutSlides: bool)

  /** The form fields: the non-empty files, the model name and the base URL. */
  function FormFor(audio: Option<FileInfo>, slides: Option<FileInfo>, s: Settings): (f: Form)
    ensures f.audio.Some? <==> audio.Some? && audio.value.size > 0
    ensures f.slides.Some? <==> slides.Some? && slides.value.size > 0
    ensures f.audio.Some? ==> f.audio == audio
    ensures f.slides.Some? ==> f.slides == slides
    ensures f.apiModel == (if s.modelType == "custom" then s.customModel else s.modelType)
    ensures f.apiBaseUrl == OrDefault(s.baseUrl, "")
  {
    Form(if audio.Some? && audio.value.size > 0 then audio else None,
         if slides.Some? && slides.value.size > 0 then slides else None,
         if s.modelType == "custom" then s.customModel else s.modelType,
         OrDefault(s.baseUrl, ""))
  }

  /** The checks of `onsubmit`, in order, and the form it sends when they pass. */
  function Decide(audio: Option<FileInfo>, slides: Option<FileInfo>, answers: Answers, s: Settings): Decision
  {
    if audio.None? && slides.None? then Blocked(NoFile)
    else if audio.Some? && !AudioLooksValid(audio.value) && !answers.sendOddAudio then Blocked(AudioFormatDeclined)
    else if audio.Some? && audio.value.size == 0 then Blocked(EmptyAudio)
    else if slides.Some? && !SlidesLooksValid(slides.value) && !answers.sendOddSlides then Blocked(SlidesFormatDeclined)
    else if slides.Some? && slides.value.size == 0 && audio.Some? && !answers.sendWithoutSlides then Blocked(EmptySlidesDeclined)
    else if slides.Some? && slides.value.size == 0 && audio.None? then Blocked(EmptySlides)
    else if s.modelType == "custom" && TrimJs(s.customModel) == "" then Blocked(BlankCustomModel)
    else Sent(FormFor(audio, slides, s))
  }

  /** Nothing is sent without a file, and empty audio is never sent. */
  lemma FilesRequired(audio: Option<FileInfo>, slides: Option<FileInfo>, answers: Answers, s: Settings)
    ensures audio.None? && slides.None? ==> Decide(audio, slides, answers, s) == Blocked(NoFile)
    ensures audio.Some? && audio.value.size == 0 ==> Decide(audio, slides, answers, s).Blocked?
  {
  }

  /**
   * Empty slides stop the submission outright when there is no audio; with
   * audio that passed its checks, the user's answer decides.
   */
  lemma EmptySlidesRule(audio: Option<FileInfo>, slides: FileInfo, answers: Answers, s: Settings)
    requires slides.size == 0 && (SlidesLooksValid(slides) || answers.sendOddSlides)
    ensures audio.None? ==> Decide(audio, Some(slides), answers, s) == Blocked(EmptySlides)
    ensures audio.Some? && audio.value.size > 0 && (AudioLooksValid(audio.value) || answers.sendOddAudio)
            ==> (Decide(audio, Some(slides), answers, s) == Blocked(EmptySlidesDeclined) <==> !answers.sendWithoutSlides)
  {
  }

  /** Every form that is sent carries at least one non-empty file and a model name that is not blank. */
  lemma SentFormShape(audio: Option<FileInfo>, slides: Option<FileInfo>, answers: Answers, s: Settings)
    requires Decide(audio, slides, answers, s).Sent?
    ensures var f := Decide(audio, slides, answers, s).form;
            (f.audio.Some? || f.slides.Some?)
            && (f.audio.Some? ==> f.audio.value.size > 0)
            && (f.slides.Some? ==> f.slides.value.size > 0)
            && (s.modelType == "custom" ==> TrimJs(f.apiModel) != "")
            && f == FormFor(audio, slides, s)
  {
  }

  /** Settings that were saved never block the submission for a blank custom model name. */
  lemma SavedSettingsPass(dark: bool, modelType: string, customInput: string, baseUrlInput: string)
    requires SettingsToSave(dark, modelType, customInput, baseUrlInput).Success?
    ensures var s := SettingsToSave(dark, modelType, customInput, baseUrlInput).value;
            !(s.modelType == "custom" && TrimJs(s.customModel) == "")
  {
    TrimJsIdempotent(customInput);
  }

  /** The form page's handler: the checks in order, with the flag that records an acceptable file. */
  method OnSubmit(audio: Option<FileInfo>, slides: Option<FileInfo>, answers: Answers, s: Settings)
    returns (d: Decision)
    ensures d == Decide(audio, slides, answers, s)
  {
    if audio.None? && slides.None? {
      return Blocked(NoFile);
    }
    var hasValidFiles := false;
    if audio.Some? {
      if !AudioLooksValid(audio.value) && !answers.sendOddAudio {
        return Blocked(AudioFormatDeclined);
      }
      if audio.value.size == 0 {
        return Blocked(EmptyAudio);
      }
      hasValidFiles := true;
    }
    assert hasValidFiles <==> audio.Some?;
    if slides.Some? {
      if !SlidesLooksValid(slides.value) && !answers.sendOddSlides {
        return Blocked(SlidesFormatDeclined);
      }
      if slides.value.size == 0 {
        if hasValidFiles {
          if !answers.sendWithoutSlides {
            return Blocked(EmptySlidesDeclined);
          }
        } else {
          return Blocked(EmptySlides);
        }
      } else {
        hasValidFiles := true;
      }
    }
    if s.modelType == "custom" && TrimJs(s.customModel) == "" {
      return Blocked(BlankCustomModel);
    }
    d := Sent(FormFor(audio, slides, s));
  }

  // ---------------------------------------------------------- error hints

  /** The one hint about the kind of failure, if any. */
  datatype StatusHint = BadRequest | ServerError | Network | NoHint

  /** The hint `showErrorMessage` picks: a 400 first, then a 500, then a network failure. */
  function HintFor(title: string, message: string): (h: StatusHint)
    ensures h == BadRequest <==> Contains(title, "400") || Contains(message, "400")
    ensures h == ServerError <==> !(Contains(title, "400") || Contains(message, "400"))
                                  && (Contains(title, "500") || Contains(message, "500"))
    ensures h == Network <==> !(Contains(title, "400") || Contains(message, "400"))
                              && !(Contains(title, "500") || Contains(message, "500"))
                              && (Contains(title, "Network Error") || Contains(message, "connection"))
  {
    if Contains(title, "400") || Contains(message, "400") then BadRequest
    else if Contains(title, "500") || Contains(message, "500") then ServerError
    else if Contains(title, "Network Error") || Contains(message, "connection") then Network
    else NoHint
  }

  const BadRequestText: string := "\n\nThis is a Bad Request error. The server could not understand the request."
  const ServerErrorText: string := "\n\nThis is a Server Error. The server encountered an unexpected condition."
  const NetworkText: string := "\n\nPlease check your internet connection and try again."

  function HintText(h: StatusHint): string
  {
    match h
    case BadRequest => BadRequestText
    case ServerError => ServerErrorText
    case Network => NetworkText
    case NoHint => ""
  }

  /** The text before any hint: the title, then the message after a blank line when there is one. */
  function Headline(title: string, message: string): (r: string)
    ensures StartsWith(r, title)
    ensures message == "" ==> r == title
    ensures message != "" ==> EndsWith(r, message) && |r| == |title| + 2 + |message|
    ensures message != "" ==> r[|title|..|title| + 2] == "\n\n"
  {
    if message == "" then title
    else
      StartsWithAppend(title, "\n\n" + message);
      EndsWithAppend(title + "\n\n", message);
      assert title + "\n\n" + message == title + ("\n\n" + message);
      title + "\n\n" + message
  }

  /** The message and its status hint, as the dialog shows them before the further tips. */
  function ErrorText(title: string, message: string): (r: string)
    ensures StartsWith(r, Headline(title, message))
    ensures EndsWith(r, HintText(HintFor(title, message)))
    ensures |r| == |Headline(title, message)| + |HintText(HintFor(title, message))|
  {
    var head, hint := Headline(title, message), HintText(HintFor(title, message));
    StartsWithAppend(head, hint);
    EndsWithAppend(head, hint);
    head + hint
  }

  /** The titles the form page passes to `showErrorMessage`. */
  const ErrorTitle: string := "Error"
  const FailedTitle: string := "Failed to generate notes"
  const ServerTitle: string := "Server error"
  const NetworkTitle: string := "Network Error"

  /** None of the three non-network titles names a status or a network error, so the message alone picks the hint. */
  lemma {:induction false} MessageDecidesHint(title: string, message: string)
    requires title == ErrorTitle || title == FailedTitle || title == ServerTitle
    ensures HintFor(title, message) == BadRequest <==> Contains(message, "400")
    ensures HintFor(title, message) == ServerError <==> !Contains(message, "400") && Contains(message, "500")
    ensures HintFor(title, message) == Network <==>
      !Contains(message, "400") && !Contains(message, "500") && Contains(message, "connection")
  {
    if title == ErrorTitle {
      PlainTitle(ErrorTitle);
    } else if title == FailedTitle {
      PlainTitle(FailedTitle);
    } else {
      PlainTitle(ServerTitle);
    }
  }

  /** A title without the characters `4`, `5` and `N` names neither status nor a network error. */
  lemma PlainTitle(title: string)
    requires '4' !in title && '5' !in title && 'N' !in title
    ensures !Contains(title, "400") && !Contains(title, "500") && !Contains(title, "Network Error")
  {
    NotContainsByHead(title, "400");
    NotContainsByHead(title, "500");
    NotContainsByHead(title, "Network Error");
  }

  /** The `Server error` box gets the server-error hint when its message names status 500 and not 400. */
  lemma ServerTitleHint(message: string)
    requires Contains(message, "500") && !Contains(message, "400")
    ensures HintFor(ServerTitle, message) == ServerError
  {
    MessageDecidesHint(ServerTitle, message);
  }

  /** The `Error` box, fed the server's `data.error`, gets the bad-request hint when that message names status 400. */
  lemma BadRequestTitleHint(message: string)
    requires Contains(message, "400")
    ensures HintFor(ErrorTitle, message) == BadRequest
  {
    MessageDecidesHint(ErrorTitle, message);
  }

  /** A network-error title gets the network hint unless the message names a status. */
  lemma NetworkTitleHint(message: string)
    requires !Contains(message, "400") && !Contains(message, "500")
    ensures HintFor(NetworkTitle, message) == Network
  {
    NetworkTitleFacts();
  }

  lemma NetworkTitleFacts()
    ensures Contains(NetworkTitle, "Network Error")
    ensures !Contains(NetworkTitle, "400") && !Contains(NetworkTitle, "500")
  {
    NetworkTitleNamesItself();
    NetworkTitleNo400();
    NetworkTitleNo500();
  }

  lemma NetworkTitleNamesItself()
    ensures Contains(NetworkTitle, "Network Error")
  {
    ContainsSelf(NetworkTitle);
  }

  lemma NetworkTitleNo400()
    ensures !Contains(NetworkTitle, "400")
  {
    NotContainsByHead(NetworkTitle, "400");
  }

  lemma NetworkTitleNo500()
    ensures !Contains(NetworkTitle, "500")
  {
    NotContainsByHead(NetworkTitle, "500");
  }
}
