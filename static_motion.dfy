/** The static-background motion engine: the first grayscale frame (after
    construction or a reset) is kept as the background, and later frames are
    compared against it. It reports a single flag and an area. */
module StaticMotion {
  import opened PyValues
  import opened Imaging

  const DefaultMinArea: real := 500.0

  /** The last qualifying contour in iteration order, if any. */
  function LastQualifying(cs: seq<Contour>, minArea: real): (r: Option<Contour>)
    ensures r.Some? ==> r.value in cs && r.value.area >= minArea
  {
    if cs == [] then None
    else if cs[|cs| - 1].area >= minArea then Some(cs[|cs| - 1])
    else LastQualifying(cs[..|cs| - 1], minArea)
  }

  lemma LastQualifyingSnoc(cs: seq<Contour>, c: Contour, minArea: real)
    ensures LastQualifying(cs + [c], minArea) == if c.area >= minArea then Some(c) else LastQualifying(cs, minArea)
  {
    assert (cs + [c])[..|cs + [c]| - 1] == cs;
  }

  /** The reported area: that of the given contour, 0 without one. */
  function AreaOf(last: Option<Contour>): Value {
    if last.Some? then VFloat(last.value.area) else VInt(0)
  }

  /** The `events` dict the engine returns. */
  function Report(cs: seq<Contour>, minArea: real): Dict {
    var last := LastQualifying(cs, minArea);
    map["motion_detected" := VBool(last.Some?), "motion_area" := AreaOf(last)]
  }

  /** The report with no comparison basis, or with nothing large enough. */
  const NoMotion: Dict := map["motion_detected" := VBool(false), "motion_area" := VInt(0)]

  /** Motion is reported exactly when some contour reaches `minArea`, and the
      area reported is that of the last such contour, as the filtered list
      has it. */
  lemma {:induction false} ReportMeaning(cs: seq<Contour>, minArea: real)
    ensures Report(cs, minArea)["motion_detected"] == VBool(exists c :: c in cs && c.area >= minArea)
    ensures var q := Qualifying(cs, minArea);
      Report(cs, minArea)["motion_area"] == if q == [] then VInt(0) else VFloat(q[|q| - 1].area)
    ensures Report(cs, minArea) == NoMotion <==> Qualifying(cs, minArea) == []
  {
    LastIsLastOfFilter(cs, minArea);
    var q := Qualifying(cs, minArea);
    if q != [] {
      assert q[|q| - 1] in q;
    }
    if exists c :: c in cs && c.area >= minArea {
      var c :| c in cs && c.area >= minArea;
      assert c in q;
    }
  }

  lemma {:induction false} LastIsLastOfFilter(cs: seq<Contour>, minArea: real)
    ensures var q := Qualifying(cs, minArea);
      LastQualifying(cs, minArea) == if q == [] then None else Some(q[|q| - 1])
    decreases |cs|
  {
    if cs != [] && cs[|cs| - 1].area < minArea {
      LastIsLastOfFilter(cs[..|cs| - 1], minArea);
    }
  }

  /** The reported area is the last one, not the largest: a large contour
      followed by a smaller qualifying one reports the smaller. */
  lemma AreaIsNotTheLargest()
    ensures Report([Contour(900.0, BBox(0, 0, 30, 30)), Contour(600.0, BBox(50, 0, 20, 30))], DefaultMinArea)["motion_area"]
            == VFloat(600.0)
  {
    var cs := [Contour(900.0, BBox(0, 0, 30, 30)), Contour(600.0, BBox(50, 0, 20, 30))];
    assert cs[|cs| - 1].area >= DefaultMinArea;
  }

  class MotionDetectorEngine {
    const minArea: real
    /** `background_model`: the grayscale frame kept as background. */
    var background: Option<Gray>

    constructor (minArea: real)
      ensures this.minArea == minArea && background == None
    {
      this.minArea := minArea;
      background := None;
    }

    /** `process_frame(frame)`. With no background, the frame becomes the
        background and no motion is reported. Otherwise the background is left
        as it is and the contours of the difference decide the report; a
        grayscale frame of another shape makes `absdiff` raise (None here). */
    method ProcessFrame(frame: Frame, gray: Gray, contours: seq<Contour>)
      returns (r: Option<(Frame, Dict)>)
      modifies this
      ensures old(background).None? ==> background == Some(gray) && r == Some((frame, NoMotion))
      ensures old(background).Some? ==> background == old(background)
      ensures old(background).Some? && !Comparable(old(background).value, gray) ==> r == None
      ensures old(background).Some? && Comparable(old(background).value, gray) ==>
                r == Some((Draw(frame, BoxMarks(Qualifying(contours, minArea))), Report(contours, minArea)))
    {
      if background.None? {
        background := Some(gray);
        r := Some((frame, NoMotion));
        return;
      }
      if !Comparable(background.value, gray) {
        r := None;
        return;
      }
      var detected := false;
      var area: Value := VInt(0);
      var boxes: seq<Mark> := [];
      var i := 0;
      while i < |contours|
        invariant 0 <= i <= |contours|
        invariant background == old(background)
        invariant detected == LastQualifying(contours[..i], minArea).Some?
        invariant area == AreaOf(LastQualifying(contours[..i], minArea))
        invariant boxes == BoxMarks(Qualifying(contours[..i], minArea))
      {
        var c := contours[i];
        assert contours[..i + 1] == contours[..i] + [c];
        LastQualifyingSnoc(contours[..i], c, minArea);
        BoxMarksSnoc(contours[..i], c, minArea);
        if c.area >= minArea {
          detected := true;
          area := VFloat(c.area);
          boxes := boxes + [BoxMark(c.box)];
        }
        i := i + 1;
      }
      assert contours[..i] == contours;
      var report := map["motion_detected" := VBool(detected), "motion_area" := area];
      assert report == Report(contours, minArea);
      r := Some((Draw(frame, boxes), report));
    }

    /** `reset_background()`: the next frame reseeds. */
    method ResetBackground()
      modifies this
      ensures background == None
    {
      background := None;
    }
  }

  /** Whether `absdiff` accepts the two grayscale images. */
  predicate Comparable(a: Gray, b: Gray) {
    a.height == b.height && a.width == b.width && |a.px| == |b.px|
  }
}
