/** The adaptive-background motion detector the pipeline uses: a running
    average of the blurred grayscale frames is the background, and every
    large enough contour of the difference becomes one motion event. */
module AdaptiveMotion {
  import opened PyValues
  import opened Imaging

  /** The constructor's defaults. */
  const DefaultMinArea: real := 500.0
  const DefaultWeight: real := 0.5

  /** The area at which the confidence score saturates. */
  const FullConfidenceArea: real := 10000.0

  /** `min(1.0, area / 10000)`. */
  function Confidence(area: real): real {
    if area / FullConfidenceArea < 1.0 then area / FullConfidenceArea else 1.0
  }

  /** For a non-negative area the confidence lies in [0, 1], grows with the
      area below 10000, and is 1 exactly from 10000 on. */
  lemma ConfidenceRange(area: real)
    requires area >= 0.0
    ensures 0.0 <= Confidence(area) <= 1.0
    ensures Confidence(area) == 1.0 <==> area >= FullConfidenceArea
    ensures area < FullConfidenceArea ==> Confidence(area) * FullConfidenceArea == area
  {
  }

  /** `accumulateWeighted`: each pixel of the background moves towards the new
      frame by the fraction `w`. */
  function Ema(b: seq<real>, g: seq<real>, w: real): (r: seq<real>)
    requires |g| == |b|
    ensures |r| == |b|
  {
    seq(|b|, i requires 0 <= i < |b| => (1.0 - w) * b[i] + w * g[i])
  }

  /** Proof step for `BlendBetween`: a product of non-negative reals. */
  lemma MulNonNegative(x: real, y: real)
    requires x >= 0.0 && y >= 0.0
    ensures x * y >= 0.0
  {
  }

  /** One pixel of the update lies between the old background value and the
      new frame's value. */
  lemma BlendBetween(b: real, g: real, w: real, v: real)
    requires 0.0 <= w <= 1.0 && v == (1.0 - w) * b + w * g
    ensures b <= g ==> b <= v <= g
    ensures g <= b ==> g <= v <= b
  {
    if b <= g {
      MulNonNegative(w, g - b);
      MulNonNegative(1.0 - w, g - b);
      assert v - b == w * (g - b);
      assert g - v == (1.0 - w) * (g - b);
    } else {
      MulNonNegative(w, b - g);
      MulNonNegative(1.0 - w, b - g);
      assert b - v == w * (b - g);
      assert v - g == (1.0 - w) * (b - g);
    }
  }

  /** A static scene leaves the background as it is, a weight of 1 replaces
      it, and with 0 <= w <= 1 every updated pixel lies between its old value
      and the new frame's. */
  lemma EmaTracks(b: seq<real>, g: seq<real>, w: real)
    requires |g| == |b| && 0.0 <= w <= 1.0
    ensures g == b ==> Ema(b, g, w) == b
    ensures w == 1.0 ==> Ema(b, g, w) == g
    ensures forall i :: 0 <= i < |b| ==>
              (b[i] <= g[i] ==> b[i] <= Ema(b, g, w)[i] <= g[i]) &&
              (g[i] <= b[i] ==> g[i] <= Ema(b, g, w)[i] <= b[i])
  {
    var r := Ema(b, g, w);
    forall i | 0 <= i < |b|
      ensures (b[i] <= g[i] ==> b[i] <= r[i] <= g[i]) && (g[i] <= b[i] ==> g[i] <= r[i] <= b[i])
    {
      BlendBetween(b[i], g[i], w, r[i]);
    }
    if g == b {
      forall i | 0 <= i < |b| ensures r[i] == b[i] {
        assert (1.0 - w) * b[i] + w * b[i] == b[i];
      }
    }
  }

  /** The event one qualifying contour produces. */
  function MotionEvent(c: Contour, timestamp: string): Event {
    map["type" := VStr("motion"),
        "confidence" := VFloat(Confidence(c.area)),
        "timestamp" := VStr(timestamp),
        "meta" := VDict(map["area" := VFloat(c.area),
                            "bounding_box" := VList([VInt(c.box.x), VInt(c.box.y), VInt(c.box.w), VInt(c.box.h)])])]
  }

  /** One event per qualifying contour, in contour order. */
  function MotionEvents(cs: seq<Contour>, minArea: real, timestamp: string): (r: seq<Event>)
  {
    var q := Qualifying(cs, minArea);
    seq(|q|, i requires 0 <= i < |q| => MotionEvent(q[i], timestamp))
  }

  /** What the events of one call promise: type "motion", the area and the
      bounding box of a contour at least `minArea` large, a confidence in
      [0, 1], and the one timestamp of the call, with one event, and one
      rectangle, per qualifying contour. */
  lemma MotionEventsShape(cs: seq<Contour>, minArea: real, timestamp: string)
    requires minArea >= 0.0
    ensures var es := MotionEvents(cs, minArea, timestamp);
      var q := Qualifying(cs, minArea);
      && |es| == |q| == |BoxMarks(q)|
      && forall i :: 0 <= i < |es| ==>
           && es[i]["type"] == VStr("motion")
           && es[i]["timestamp"] == VStr(timestamp)
           && q[i] in cs && q[i].area >= minArea
           && es[i]["meta"] == VDict(map["area" := VFloat(q[i].area),
                                 "bounding_box" := VList([VInt(q[i].box.x), VInt(q[i].box.y), VInt(q[i].box.w), VInt(q[i].box.h)])])
           && es[i]["confidence"].VFloat? && 0.0 <= es[i]["confidence"].f <= 1.0
           && BoxMarks(q)[i] == BoxMark(q[i].box)
  {
    var es: seq<Event> := MotionEvents(cs, minArea, timestamp);
    var q := Qualifying(cs, minArea);
    forall i | 0 <= i < |es|
      ensures es[i]["confidence"].VFloat? && 0.0 <= es[i]["confidence"].f <= 1.0
    {
      assert q[i] in q;
      ConfidenceRange(q[i].area);
    }
  }

  /** Contours below the threshold never matter: removing them does not
      change the events. */
  lemma {:induction false} SmallContoursIgnored(cs: seq<Contour>, c: Contour, minArea: real, timestamp: string)
    requires c.area < minArea
    ensures Qualifying(cs + [c], minArea) == Qualifying(cs, minArea)
    ensures MotionEvents(cs + [c], minArea, timestamp) == MotionEvents(cs, minArea, timestamp)
  {
    assert (cs + [c])[..|cs + [c]| - 1] == cs;
  }

  /** A contour added at the end adds its event at the end when it
      qualifies, and nothing otherwise. */
  lemma MotionEventsSnoc(cs: seq<Contour>, c: Contour, minArea: real, timestamp: string)
    ensures MotionEvents(cs + [c], minArea, timestamp) ==
            MotionEvents(cs, minArea, timestamp) + (if c.area >= minArea then [MotionEvent(c, timestamp)] else [])
  {
    QualifyingSnoc(cs, c, minArea);
    var q := Qualifying(cs, minArea);
    var q2 := Qualifying(cs + [c], minArea);
    var l := MotionEvents(cs + [c], minArea, timestamp);
    var r := MotionEvents(cs, minArea, timestamp) + (if c.area >= minArea then [MotionEvent(c, timestamp)] else []);
    assert |l| == |r|;
    forall i | 0 <= i < |l| ensures l[i] == r[i] {
      assert l[i] == MotionEvent(q2[i], timestamp);
      if i < |q| {
        assert q2[i] == q[i];
      }
    }
  }

  /** The seeding copy `gray.astype("float")`: a new accumulator holding the
      grayscale frame. */
  method Seed(px: seq<real>) returns (a: array<real>)
    ensures fresh(a) && a[..] == px
  {
    a := new real[|px|];
    var i := 0;
    while i < a.Length
      invariant 0 <= i <= a.Length
      invariant forall k :: 0 <= k < i ==> a[k] == px[k]
    {
      a[i] := px[i];
      i := i + 1;
    }
  }

  /** `cv2.accumulateWeighted(gray, avg, w)`, in place. */
  method Accumulate(a: array<real>, px: seq<real>, w: real)
    requires |px| == a.Length
    modifies a
    ensures a[..] == Ema(old(a[..]), px, w)
  {
    ghost var e := Ema(old(a[..]), px, w);
    var i := 0;
    while i < a.Length
      invariant 0 <= i <= a.Length
      invariant forall k :: 0 <= k < i ==> a[k] == e[k]
      invariant forall k :: i <= k < a.Length ==> a[k] == old(a[k])
    {
      assert e[i] == (1.0 - w) * old(a[..])[i] + w * px[i];
      a[i] := (1.0 - w) * a[i] + w * px[i];
      i := i + 1;
    }
    assert forall k :: 0 <= k < a.Length ==> a[..][k] == e[k];
  }

  /** The contour loop: skips contours below `minArea` and, for each other
      one, appends its event and its rectangle. */
  method CollectMotion(contours: seq<Contour>, minArea: real, timestamp: string)
    returns (events: seq<Event>, boxes: seq<Mark>)
    ensures events == MotionEvents(contours, minArea, timestamp)
    ensures boxes == BoxMarks(Qualifying(contours, minArea))
  {
    events, boxes := [], [];
    var j := 0;
    while j < |contours|
      invariant 0 <= j <= |contours|
      invariant events == MotionEvents(contours[..j], minArea, timestamp)
      invariant boxes == BoxMarks(Qualifying(contours[..j], minArea))
    {
      var c := contours[j];
      assert contours[..j + 1] == contours[..j] + [c];
      MotionEventsSnoc(contours[..j], c, minArea, timestamp);
      BoxMarksSnoc(contours[..j], c, minArea);
      if c.area >= minArea {
        events := events + [MotionEvent(c, timestamp)];
        boxes := boxes + [BoxMark(c.box)];
      }
      j := j + 1;
    }
    assert contours[..j] == contours;
  }

  class MotionDetector {
    const minArea: real
    const weight: real
    /** The float accumulator `avg_frame`; null until the first frame. */
    var avg: array?<real>
    /** The shape of the grayscale frame the accumulator was seeded from. */
    var avgHeight: nat
    var avgWidth: nat

    constructor (minArea: real, weight: real)
      ensures this.minArea == minArea && this.weight == weight && avg == null
    {
      this.minArea := minArea;
      this.weight := weight;
      avg := null;
    }

    /** A detector with the default configuration. */
    constructor Default()
      ensures minArea == DefaultMinArea && weight == DefaultWeight && avg == null
    {
      minArea := DefaultMinArea;
      weight := DefaultWeight;
      avg := null;
    }

    /** Whether `accumulateWeighted` accepts `gray` against the accumulator. */
    predicate Fits(gray: Gray)
      reads this
    {
      avg != null && gray.height == avgHeight && gray.width == avgWidth && |gray.px| == avg.Length
    }

    /** `process(frame)`. The blurred grayscale of the frame and the contours
        of the thresholded difference are given. The first call seeds the
        accumulator and reports nothing; later calls update it in place and
        report one event and one rectangle per qualifying contour. A
        grayscale frame of another shape makes OpenCV raise (None here), and
        then nothing changes. */
    method Process(frame: Frame, gray: Gray, contours: seq<Contour>, timestamp: string)
      returns (r: Option<Detected>)
      modifies this, avg
      ensures old(avg) == null ==>
                && avg != null && fresh(avg) && avg[..] == gray.px
                && avgHeight == gray.height && avgWidth == gray.width
                && r == Some(Detected(frame, []))
      ensures old(avg) != null && !old(Fits(gray)) ==>
                && avg == old(avg) && avg[..] == old(avg[..])
                && avgHeight == old(avgHeight) && avgWidth == old(avgWidth)
                && r == None
      ensures old(avg) != null && old(Fits(gray)) ==>
                && avg == old(avg) && avg[..] == Ema(old(avg[..]), gray.px, weight)
                && avgHeight == old(avgHeight) && avgWidth == old(avgWidth)
                && r == Some(Detected(Draw(frame, BoxMarks(Qualifying(contours, minArea))),
                                      MotionEvents(contours, minArea, timestamp)))
    {
      if avg == null {
        avg := Seed(gray.px);
        avgHeight, avgWidth := gray.height, gray.width;
        r := Some(Detected(frame, []));
        return;
      }
      if !Fits(gray) {
        r := None;
        return;
      }
      Accumulate(avg, gray.px, weight);
      var events, boxes := CollectMotion(contours, minArea, timestamp);
      r := Some(Detected(Draw(frame, boxes), events));
    }
  }
}
