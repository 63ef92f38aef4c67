/**
 * Slide extraction from a PDF: page by page through an OCR model when one
 * is loaded, with the page's plain text standing in for any page the OCR
 * fails on, or plain text throughout. The document's pages, the
 * `pdfinfo` probe and each page's OCR outcome are parameters.
 */
module PdfProcessor {
  import opened Wrappers
  import opened Strings
  import opened Json

  /** A slide: its 1-based number, its text (the OCR's `natural_text` may be any JSON value) and its timestamp, which a PDF never supplies. */
  datatype PdfSlide = PdfSlide(slideNumber: nat, content: Json, timestamp: Json)

  /** Running `pdfinfo --version`: it ran, the program was not found, or something else was raised. */
  datatype Probe = ProbeRan | ProbeNotFound | ProbeRaised(message: string)

  /** One page through the OCR model: its decoded text and that text parsed as JSON (`None` when it is not JSON), or an exception. */
  datatype PageOutcome =
    | OcrText(raw: string, parsed: Option<Json>)
    | PageNotFound(message: string)
    | PageRaised(message: string)

  /** `process_pdf` either raises `FileNotFoundError` or returns slides. */
  datatype PdfError = PdfNotFound(message: string)

  /** `_process_with_basic_extraction`: one slide per page, numbered from 1, holding the page's text. */
  function Basic(pages: seq<string>): (r: seq<PdfSlide>)
    ensures |r| == |pages|
    ensures forall i :: 0 <= i < |r| ==> r[i] == PdfSlide(i + 1, JStr(pages[i]), JNull)
  {
    seq(|pages|, i requires 0 <= i < |pages| => PdfSlide(i + 1, JStr(pages[i]), JNull))
  }

  /** `[s for s in slides if s["slide_number"] > k]`. */
  function KeepAfter(slides: seq<PdfSlide>, k: nat): seq<PdfSlide>
    decreases |slides|
  {
    if |slides| == 0 then []
    else (if slides[0].slideNumber > k then [slides[0]] else []) + KeepAfter(slides[1..], k)
  }

  /** Keeping the basic slides numbered above `k` keeps exactly those of pages `k` onwards. */
  lemma {:induction false} KeepAfterBasic(pages: seq<string>, k: nat)
    requires k <= |pages|
    ensures KeepAfter(Basic(pages), k) == Basic(pages)[k..]
  {
    KeepAfterFrom(Basic(pages), k, 0);
    assert Basic(pages)[0..] == Basic(pages);
  }

  /** Filtering a run of slides numbered consecutively from `j + 1`. */
  lemma {:induction false} KeepAfterFrom(slides: seq<PdfSlide>, k: nat, j: nat)
    requires forall i :: 0 <= i < |slides| ==> slides[i].slideNumber == i + 1
    requires j <= |slides|
    ensures KeepAfter(slides[j..], k) == (if j <= k <= |slides| then slides[k..] else if k < j then slides[j..] else [])
    decreases |slides| - j
  {
    if j < |slides| {
      KeepAfterFrom(slides, k, j + 1);
      assert slides[j..][1..] == slides[j + 1..];
      assert slides[j..][0] == slides[j];
      if j < k {
        assert KeepAfter(slides[j..], k) == KeepAfter(slides[j + 1..], k);
      } else {
        assert slides[j..] == [slides[j]] + slides[j + 1..];
      }
    }
  }

  /** The content of an OCR'd page: `natural_text` of a JSON object that has it, else the raw text. */
  function OcrContent(raw: string, parsed: Option<Json>): (c: Json)
    ensures parsed.Some? && parsed.value.JObj? && "natural_text" in parsed.value.fields ==>
      c == parsed.value.fields["natural_text"]
    ensures !(parsed.Some? && parsed.value.JObj?) ==> c == JStr(raw)
    ensures parsed.Some? && parsed.value.JObj? && "natural_text" !in parsed.value.fields ==> c == JStr(raw)
  {
    match parsed
    case Some(JObj(f)) => if "natural_text" in f then f["natural_text"] else JStr(raw)
    case _ => JStr(raw)
  }

  /** The OCR loop from page `k` on. */
  function OcrFrom(pages: seq<string>, page: nat -> PageOutcome, k: nat): seq<PdfSlide>
    requires k <= |pages|
    decreases |pages| - k
  {
    if k == |pages| then []
    else
      match page(k)
      case OcrText(raw, parsed) => [PdfSlide(k + 1, OcrContent(raw, parsed), JNull)] + OcrFrom(pages, page, k + 1)
      case PageNotFound(m) =>
        if Contains(m, "pdfinfo") then KeepAfter(Basic(pages), k)
        else [PdfSlide(k + 1, JStr(pages[k]), JNull)] + OcrFrom(pages, page, k + 1)
      case PageRaised(_) => [PdfSlide(k + 1, JStr(pages[k]), JNull)] + OcrFrom(pages, page, k + 1)
  }

  /**
   * Whatever each page's outcome, the OCR loop yields one slide per
   * remaining page, numbered on from `k + 1`; a page that failed otherwise
   * than by a missing `pdfinfo` holds its plain text.
   */
  lemma {:induction false} OcrNumbering(pages: seq<string>, page: nat -> PageOutcome, k: nat)
    requires k <= |pages|
    ensures |OcrFrom(pages, page, k)| == |pages| - k
    ensures forall i :: 0 <= i < |pages| - k ==> OcrFrom(pages, page, k)[i].slideNumber == k + i + 1
    ensures forall i :: 0 <= i < |pages| - k ==> OcrFrom(pages, page, k)[i].timestamp == JNull
    ensures forall i :: 0 <= i < |pages| - k && page(k + i).PageRaised? ==>
      OcrFrom(pages, page, k)[i].content == JStr(pages[k + i])
    decreases |pages| - k
  {
    if k < |pages| {
      var r := OcrFrom(pages, page, k);
      if page(k).PageNotFound? && Contains(page(k).message, "pdfinfo") {
        KeepAfterBasic(pages, k);
      } else {
        OcrNumbering(pages, page, k + 1);
        var rest := OcrFrom(pages, page, k + 1);
        assert r[1..] == rest;
        forall i | 1 <= i < |pages| - k
          ensures r[i].slideNumber == k + i + 1
          ensures r[i].timestamp == JNull
          ensures page(k + i).PageRaised? ==> r[i].content == JStr(pages[k + i])
        {
          assert r[i] == rest[i - 1];
          assert k + 1 + (i - 1) == k + i;
        }
      }
    }
  }

  /** A missing `pdfinfo` at page `k` ends the loop with basic extraction of the later pages. */
  lemma OcrStops(pages: seq<string>, page: nat -> PageOutcome, k: nat)
    requires k < |pages| && page(k).PageNotFound? && Contains(page(k).message, "pdfinfo")
    ensures OcrFrom(pages, page, k) == KeepAfter(Basic(pages), k)
  {
  }

  /** Any other outcome at page `k` gives that page's slide and goes on with the next page. */
  lemma OcrAdvances(pages: seq<string>, page: nat -> PageOutcome, k: nat)
    requires k < |pages| && !(page(k).PageNotFound? && Contains(page(k).message, "pdfinfo"))
    ensures OcrFrom(pages, page, k) ==
      [PdfSlide(k + 1, if page(k).OcrText? then OcrContent(page(k).raw, page(k).parsed) else JStr(pages[k]), JNull)]
      + OcrFrom(pages, page, k + 1)
  {
  }

  /** `_process_with_olmocr`: a probe that finds no `pdfinfo` sends the whole document to basic extraction. */
  function WithOcr(pages: seq<string>, probe: Probe, page: nat -> PageOutcome): (r: Option<seq<PdfSlide>>)
    ensures r.None? <==> probe.ProbeRaised?
    ensures probe.ProbeNotFound? ==> r == Some(Basic(pages))
    ensures probe.ProbeRan? ==> r == Some(OcrFrom(pages, page, 0))
    ensures r.Some? ==> |r.value| == |pages|
    ensures r.Some? ==> forall i :: 0 <= i < |pages| ==> r.value[i].slideNumber == i + 1 && r.value[i].timestamp == JNull
  {
    OcrNumbering(pages, page, 0);
    match probe
    case ProbeNotFound => Some(Basic(pages))
    case ProbeRaised(_) => None
    case ProbeRan => Some(OcrFrom(pages, page, 0))
  }

  /**
   * `process_pdf(pdf_path)`: a missing file raises; otherwise the slides,
   * or `[]` when the document cannot be opened or another exception escapes.
   */
  function ProcessPdf(path: string, present: bool, modelLoaded: bool, doc: Option<seq<string>>, probe: Probe,
                      page: nat -> PageOutcome): (r: Result<seq<PdfSlide>, PdfError>)
    ensures !present <==> r.Failure?
    ensures r.Failure? ==> r.error == PdfNotFound("PDF file not found: " + path)
    ensures present && !modelLoaded && doc.Some? ==> r == Success(Basic(doc.value))
    ensures present && doc.None? ==> r == Success([])
    ensures present && modelLoaded && doc.Some? ==>
      r == Success(match probe
                   case ProbeNotFound => Basic(doc.value)
                   case ProbeRaised(_) => []
                   case ProbeRan => OcrFrom(doc.value, page, 0))
  {
    if !present then Failure(PdfNotFound("PDF file not found: " + path))
    else if doc.None? then Success([])
    else if !modelLoaded then Success(Basic(doc.value))
    else
      match WithOcr(doc.value, probe, page)
      case None => Success([])
      case Some(slides) => Success(slides)
  }

  /** Every successful result numbers its slides 1..n, one per page, or is empty. */
  lemma Contiguous(path: string, present: bool, modelLoaded: bool, doc: Option<seq<string>>, probe: Probe,
                   page: nat -> PageOutcome)
    requires ProcessPdf(path, present, modelLoaded, doc, probe, page).Success?
    ensures var slides := ProcessPdf(path, present, modelLoaded, doc, probe, page).value;
      slides == [] || (doc.Some? && |slides| == |doc.value| &&
                       forall i :: 0 <= i < |slides| ==> slides[i].slideNumber == i + 1 && slides[i].timestamp == JNull)
  {
    if doc.Some? {
      OcrNumbering(doc.value, page, 0);
    }
  }

  class Processor {
    /** Whether the OCR model loaded in the constructor. */
    const modelLoaded: bool

    constructor(modelLoaded: bool)
      ensures this.modelLoaded == modelLoaded
    {
      this.modelLoaded := modelLoaded;
    }

    /** `_process_with_basic_extraction`, page by page. */
    static method BasicExtraction(pages: seq<string>) returns (slides: seq<PdfSlide>)
      ensures slides == Basic(pages)
    {
      slides := [];
      for pageNum := 0 to |pages|
        invariant slides == Basic(pages)[..pageNum]
      {
        slides := slides + [PdfSlide(pageNum + 1, JStr(pages[pageNum]), JNull)];
      }
    }

    /** The page loop of `_process_with_olmocr`, which stops early when `pdfinfo` goes missing. */
    static method OcrPages(pages: seq<string>, page: nat -> PageOutcome) returns (slides: seq<PdfSlide>)
      ensures slides == OcrFrom(pages, page, 0)
    {
      slides := [];
      var pageNum := 0;
      while pageNum < |pages|
        invariant 0 <= pageNum <= |pages|
        invariant slides + OcrFrom(pages, page, pageNum) == OcrFrom(pages, page, 0)
      {
        var outcome := page(pageNum);
        match outcome {
          case OcrText(raw, parsed) =>
            OcrAdvances(pages, page, pageNum);
            AppendAssoc(slides, [PdfSlide(pageNum + 1, OcrContent(raw, parsed), JNull)], OcrFrom(pages, page, pageNum + 1));
            slides := slides + [PdfSlide(pageNum + 1, OcrContent(raw, parsed), JNull)];
          case PageNotFound(m) =>
            if Contains(m, "pdfinfo") {
              var remaining := BasicExtraction(pages);
              remaining := FilterAfter(remaining, pageNum);
              OcrStops(pages, page, pageNum);
              slides := slides + remaining;
              return;
            }
            OcrAdvances(pages, page, pageNum);
            AppendAssoc(slides, [PdfSlide(pageNum + 1, JStr(pages[pageNum]), JNull)], OcrFrom(pages, page, pageNum + 1));
            slides := slides + [PdfSlide(pageNum + 1, JStr(pages[pageNum]), JNull)];
          case PageRaised(_) =>
            OcrAdvances(pages, page, pageNum);
            AppendAssoc(slides, [PdfSlide(pageNum + 1, JStr(pages[pageNum]), JNull)], OcrFrom(pages, page, pageNum + 1));
            slides := slides + [PdfSlide(pageNum + 1, JStr(pages[pageNum]), JNull)];
        }
        pageNum := pageNum + 1;
      }
    }

    /** The list comprehension keeping slides numbered above `k`. */
    static method FilterAfter(slides: seq<PdfSlide>, k: nat) returns (kept: seq<PdfSlide>)
      ensures kept == KeepAfter(slides, k)
    {
      kept := [];
      var i := |slides|;
      while i > 0
        invariant 0 <= i <= |slides|
        invariant kept == KeepAfter(slides[i..], k)
      {
        i := i - 1;
        assert slides[i..][1..] == slides[i + 1..];
        if slides[i].slideNumber > k {
          kept := [slides[i]] + kept;
        }
      }
      assert slides[0..] == slides;
    }

    /** `process_pdf(pdf_path)`. */
    method ProcessPdfFile(path: string, present: bool, doc: Option<seq<string>>, probe: Probe, page: nat -> PageOutcome)
      returns (r: Result<seq<PdfSlide>, PdfError>)
      ensures r == ProcessPdf(path, present, modelLoaded, doc, probe, page)
    {
      if !present {
        return Failure(PdfNotFound("PDF file not found: " + path));
      }
      if doc.None? {
        return Success([]);
      }
      var slides: seq<PdfSlide>;
      if modelLoaded {
        match probe {
          case ProbeRaised(_) => return Success([]);
          case ProbeNotFound => slides := BasicExtraction(doc.value);
          case ProbeRan => slides := OcrPages(doc.value, page);
        }
      } else {
        slides := BasicExtraction(doc.value);
      }
      r := Success(slides);
    }
  }
}
