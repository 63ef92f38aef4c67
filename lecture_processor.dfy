/**
 * Slide segmentation of a transcript: a segment whose lower-cased text
 * mentions a transition phrase closes the slide being built and opens a new
 * one; any other segment is appended to the current slide.
 */
module LectureProcessor {
  import opened Wrappers
  import opened Strings

  /** A transcript segment; a field is `None` when the segment has no such key. */
  datatype Segment = Segment(text: Option<string>, start: Option<real>, end: Option<real>)

  datatype Slide = Slide(content: string, startTime: real, endTime: real)

  /** The slides emitted so far and the slide being built. */
  datatype Acc = Acc(done: seq<Slide>, current: Slide)

  const Init: Acc := Acc([], Slide("", 0.0, 0.0))

  const FailedPrefix: string := "Slide extraction failed: "

  /** The message of the `KeyError` raised for a missing key. */
  function KeyError(key: string): string { "'" + key + "'" }

  /** One of the four transition phrases occurs in the lower-cased text. */
  predicate IsTransition(text: string) {
    var l := Lower(text);
    Contains(l, "next slide") || Contains(l, "moving on to") || Contains(l, "let's look at") || Contains(l, "on this slide")
  }

  /** A transition text is never empty. */
  lemma EmptyIsNoTransition()
    ensures !IsTransition("")
  {
    assert Lower("") == "";
    assert !Contains("", "next slide");
    assert !Contains("", "moving on to");
    assert !Contains("", "let's look at");
    assert !Contains("", "on this slide");
  }

  /** The effect of one segment on the slides, or the key that is missing. */
  function Step(acc: Acc, seg: Segment): (r: Result<Acc, string>)
    ensures r.Success? && seg.text.Some? && !IsTransition(seg.text.value) ==>
      r.value.done == acc.done && r.value.current.content == acc.current.content + " " + seg.text.value
    ensures r.Success? && seg.text.Some? && IsTransition(seg.text.value) ==>
      seg.start.Some? && r.value.current == Slide(seg.text.value, seg.start.value, 0.0) &&
      r.value.done == (if acc.current.content != "" then acc.done + [acc.current.(endTime := seg.start.value)] else acc.done)
    ensures r.Failure? <==> seg.text.None? || (IsTransition(seg.text.value) && seg.start.None?)
  {
    match seg.text
    case None => Failure(KeyError("text"))
    case Some(t) =>
      if IsTransition(t) then
        match seg.start
        case None => Failure(KeyError("start"))
        case Some(st) =>
          var done := if acc.current.content != "" then acc.done + [acc.current.(endTime := st)] else acc.done;
          Success(Acc(done, Slide(t, st, 0.0)))
      else
        Success(Acc(acc.done, acc.current.(content := acc.current.content + " " + t)))
  }

  /** The segments processed in order from `acc`, stopping at the first failure. */
  function Fold(acc: Acc, segs: seq<Segment>): Result<Acc, string>
    decreases |segs|
  {
    if |segs| == 0 then Success(acc)
    else
      match Fold(acc, segs[..|segs| - 1])
      case Failure(e) => Failure(e)
      case Success(a) => Step(a, segs[|segs| - 1])
  }

  /** The last slide is added when it has content, its end time taken from the last segment. */
  function Finish(acc: Acc, segs: seq<Segment>): Result<seq<Slide>, string>
  {
    if acc.current.content == "" then Success(acc.done)
    else if |segs| == 0 then Success(acc.done + [acc.current])
    else
      match segs[|segs| - 1].end
      case None => Failure(KeyError("end"))
      case Some(e) => Success(acc.done + [acc.current.(endTime := e)])
  }

  /** `extract_slides(transcript)`, given the transcript's `segments` (`None` when it has none). */
  function ExtractSlides(segments: Option<seq<Segment>>): (r: Result<seq<Slide>, string>)
    ensures segments.None? || segments == Some([]) ==> r == Success([])
    ensures r.Failure? ==> StartsWith(r.error, FailedPrefix)
  {
    var segs := segments.GetOr([]);
    match Fold(Init, segs)
    case Failure(e) =>
      StartsWithAppend(FailedPrefix, e);
      Failure(FailedPrefix + e)
    case Success(acc) =>
      match Finish(acc, segs)
      case Failure(e) =>
        StartsWithAppend(FailedPrefix, e);
        Failure(FailedPrefix + e)
      case Success(slides) => Success(slides)
  }

  // ------------------------------------------------------------ properties

  predicate WellFormed(seg: Segment) { seg.text.Some? && seg.start.Some? && seg.end.Some? }

  predicate IsTransitionSeg(seg: Segment) { seg.text.Some? && IsTransition(seg.text.value) }

  /** The number of transition segments. */
  function Transitions(segs: seq<Segment>): nat
    decreases |segs|
  {
    if |segs| == 0 then 0
    else Transitions(segs[..|segs| - 1]) + (if IsTransitionSeg(segs[|segs| - 1]) then 1 else 0)
  }

  /** What each segment contributes to the slide texts: its text, after a space unless it opens a slide. */
  function Pieces(segs: seq<Segment>): string
    decreases |segs|
  {
    if |segs| == 0 then ""
    else
      var t := segs[|segs| - 1].text.GetOr("");
      Pieces(segs[..|segs| - 1]) + (if IsTransition(t) then t else " " + t)
  }

  /** The slide contents, concatenated. */
  function Flatten(slides: seq<Slide>): string
    decreases |slides|
  {
    if |slides| == 0 then "" else Flatten(slides[..|slides| - 1]) + slides[|slides| - 1].content
  }

  lemma FlattenSnoc(slides: seq<Slide>, s: Slide)
    ensures Flatten(slides + [s]) == Flatten(slides) + s.content
  {
    assert (slides + [s])[..|slides|] == slides;
  }

  /** The facts `FoldShape` keeps, for one accumulator. */
  predicate Shaped(segs: seq<Segment>, a: Acc)
  {
    (|segs| == 0 ==> a == Init) &&
    (|segs| > 0 ==> a.current.content != "" && |a.done| + (if IsTransitionSeg(segs[0]) then 1 else 0) == Transitions(segs)) &&
    Flatten(a.done) + a.current.content == Pieces(segs)
  }

  /** One well-formed segment keeps the shape. */
  lemma ShapedStep(prefix: seq<Segment>, seg: Segment, a: Acc)
    requires WellFormed(seg) && Shaped(prefix, a)
    ensures Step(a, seg).Success? && Shaped(prefix + [seg], Step(a, seg).value)
  {
    var segs := prefix + [seg];
    assert segs[..|segs| - 1] == prefix;
    var t := seg.text.value;
    var tr := IsTransition(t);
    assert Transitions(segs) == Transitions(prefix) + (if tr then 1 else 0);
    assert Pieces(segs) == Pieces(prefix) + (if tr then t else " " + t);
    if |prefix| > 0 {
      assert prefix[0] == segs[0];
    }
    if tr {
      ShapedOpen(prefix, seg, a);
    } else {
      assert Step(a, seg).value == Acc(a.done, a.current.(content := a.current.content + " " + t));
    }
  }

  lemma ShapedOpen(prefix: seq<Segment>, seg: Segment, a: Acc)
    requires WellFormed(seg) && Shaped(prefix, a) && IsTransition(seg.text.value)
    ensures Step(a, seg).Success?
    ensures Flatten(Step(a, seg).value.done) + Step(a, seg).value.current.content == Pieces(prefix) + seg.text.value
    ensures |Step(a, seg).value.done| == |a.done| + (if a.current.content != "" then 1 else 0)
    ensures Step(a, seg).value.current.content != ""
  {
    var t := seg.text.value;
    EmptyIsNoTransition();
    if a.current.content != "" {
      FlattenSnoc(a.done, a.current.(endTime := seg.start.value));
    }
  }

  /** What processing well-formed segments builds: a slide per transition after the first segment, a current slide with content, and all the text. */
  lemma {:induction false} FoldShape(segs: seq<Segment>)
    requires forall i :: 0 <= i < |segs| ==> WellFormed(segs[i])
    ensures Fold(Init, segs).Success? && Shaped(segs, Fold(Init, segs).value)
    decreases |segs|
  {
    if |segs| > 0 {
      var prefix := segs[..|segs| - 1];
      var last := segs[|segs| - 1];
      assert prefix + [last] == segs;
      FoldShape(prefix);
      var a := Fold(Init, prefix).value;
      assert Fold(Init, segs) == Step(a, last);
      ShapedStep(prefix, last, a);
    }
  }

  /**
   * For well-formed, non-empty input the slide count is the number of
   * transition segments, plus one when the first segment is not one; the
   * slide texts together are the segment texts in order, each after a space
   * unless it opened a slide; and the last slide ends where the last segment
   * ends.
   */
  lemma SlideCount(segs: seq<Segment>)
    requires forall i :: 0 <= i < |segs| ==> WellFormed(segs[i])
    requires |segs| > 0
    ensures ExtractSlides(Some(segs)).Success?
    ensures |ExtractSlides(Some(segs)).value| == Transitions(segs) + (if IsTransitionSeg(segs[0]) then 0 else 1)
    ensures Flatten(ExtractSlides(Some(segs)).value) == Pieces(segs)
    ensures ExtractSlides(Some(segs)).value[|ExtractSlides(Some(segs)).value| - 1].endTime == segs[|segs| - 1].end.value
  {
    FoldShape(segs);
    var a := Fold(Init, segs).value;
    FlattenSnoc(a.done, a.current.(endTime := segs[|segs| - 1].end.value));
  }

  /** Well-formed segments never fail; failures name the missing key. */
  lemma WellFormedSucceeds(segs: seq<Segment>)
    requires forall i :: 0 <= i < |segs| ==> WellFormed(segs[i])
    ensures ExtractSlides(Some(segs)).Success?
  {
    FoldShape(segs);
  }

  class Processor {
    /** The slides of the last extraction. */
    var slides: seq<Slide>

    constructor()
      ensures slides == []
    {
      slides := [];
    }

    /** `extract_slides`: the result is also kept in `slides`; on failure `slides` is unchanged. */
    method ExtractSlidesFrom(segments: Option<seq<Segment>>) returns (r: Result<seq<Slide>, string>)
      modifies this`slides
      ensures r == ExtractSlides(segments)
      ensures r.Success? ==> slides == r.value
      ensures r.Failure? ==> slides == old(slides)
    {
      var segs := segments.GetOr([]);
      var found: seq<Slide> := [];
      var current := Slide("", 0.0, 0.0);
      var i := 0;
      while i < |segs|
        invariant 0 <= i <= |segs|
        invariant Fold(Init, segs[..i]) == Success(Acc(found, current))
      {
        var seg := segs[i];
        assert segs[..i + 1][..i] == segs[..i];
        if seg.text.None? {
          assert Fold(Init, segs[..i + 1]).Failure?;
          FoldFailureStays(segs, i + 1);
          return Failure(FailedPrefix + KeyError("text"));
        }
        var text := seg.text.value;
        if IsTransition(text) {
          if seg.start.None? {
            assert Fold(Init, segs[..i + 1]).Failure?;
            FoldFailureStays(segs, i + 1);
            return Failure(FailedPrefix + KeyError("start"));
          }
          if current.content != "" {
            current := current.(endTime := seg.start.value);
            found := found + [current];
          }
          current := Slide(text, seg.start.value, 0.0);
        } else {
          current := current.(content := current.content + " " + text);
        }
        i := i + 1;
      }
      assert segs[..i] == segs;
      if current.content != "" {
        if |segs| > 0 {
          if segs[|segs| - 1].end.None? {
            return Failure(FailedPrefix + KeyError("end"));
          }
          current := current.(endTime := segs[|segs| - 1].end.value);
        }
        found := found + [current];
      }
      slides := found;
      r := Success(found);
    }
  }

  /** Once the fold fails on a prefix, it fails with the same message on the whole sequence. */
  lemma {:induction false} FoldFailureStays(segs: seq<Segment>, k: nat)
    requires k <= |segs| && Fold(Init, segs[..k]).Failure?
    ensures Fold(Init, segs) == Fold(Init, segs[..k])
    decreases |segs| - k
  {
    if k < |segs| {
      assert segs[..k + 1][..k] == segs[..k];
      FoldFailureStays(segs, k + 1);
    } else {
      assert segs[..k] == segs;
    }
  }
}
