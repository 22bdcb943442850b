/** The image-side vocabulary shared by the detectors. Pixel operations
    (colour conversion, blurring, differencing, thresholding, contour
    extraction, drawing, blending, encoding) are not modelled: what they
    produce is supplied to the model as data, and what they draw is recorded
    as a list of marks on the frame. */
module Imaging {
  import opened PyValues

  datatype Point = Point(x: int, y: int)

  /** A bounding rectangle `(x, y, w, h)` as `boundingRect` reports it. */
  datatype BBox = BBox(x: int, y: int, w: int, h: int)

  /** A contour as the detectors see it: its `contourArea` and its
      `boundingRect`. */
  datatype Contour = Contour(area: real, box: BBox)

  /** A line segment drawn on the gesture overlay. */
  datatype Segment = Segment(from: Point, to: Point)

  /** Something drawn onto a frame. */
  datatype Mark =
    | Box(corner: Point, opposite: Point)
    | Dot(center: Point)
    | Caption(text: string, at: Point)
    | Skeleton
    | Overlay(strokes: seq<Segment>)

  /** Where a frame's pixels come from: a captured image, or a blank one. */
  datatype Pixels = Captured(id: nat) | Black

  /** A frame: its shape `(height, width, channels)`, its pixel source,
      whether it was mirrored, and what was drawn on it, in order. */
  datatype Frame = Frame(height: nat, width: nat, channels: nat, pixels: Pixels,
                         mirrored: bool, marks: seq<Mark>)

  /** The blurred grayscale image the motion detectors compute from a frame
      (row-major pixels), as supplied by the abstract image operations. */
  datatype Gray = Gray(height: nat, width: nat, px: seq<real>)

  /** numpy's `frame.size > 0`: every dimension is positive. */
  predicate NonEmpty(f: Frame) {
    f.height > 0 && f.width > 0 && f.channels > 0
  }

  /** `NonEmpty` is exactly a positive element count. */
  lemma NonEmptySize(f: Frame)
    ensures NonEmpty(f) <==> f.height * f.width * f.channels > 0
  {
    if f.height > 0 && f.width > 0 {
      assert f.height * f.width > 0;
    }
  }

  predicate SameShape(a: Frame, b: Frame) {
    a.height == b.height && a.width == b.width && a.channels == b.channels
  }

  /** `cv2.flip(frame, 1)`: same shape, mirrored pixels. */
  function Mirror(f: Frame): (r: Frame)
    ensures SameShape(r, f) && r.mirrored == !f.mirrored
    ensures r.pixels == f.pixels && r.marks == f.marks
  {
    f.(mirrored := !f.mirrored)
  }

  /** Appends drawings to a frame. */
  function Draw(f: Frame, ms: seq<Mark>): Frame {
    f.(marks := f.marks + ms)
  }

  /** The contours that pass the area filter, in contour order. */
  function Qualifying(cs: seq<Contour>, minArea: real): (r: seq<Contour>)
    ensures |r| <= |cs|
    ensures forall c :: c in r ==> c in cs && c.area >= minArea
    ensures forall c :: c in cs && c.area >= minArea ==> c in r
  {
    if cs == [] then []
    else
      var last := cs[|cs| - 1];
      Qualifying(cs[..|cs| - 1], minArea) + (if last.area < minArea then [] else [last])
  }

  /** The positions of the contours that pass the area filter: increasing,
      and exactly the positions whose contour reaches `minArea`. */
  function QualifyingPositions(cs: seq<Contour>, minArea: real): (ps: seq<nat>)
    ensures forall k :: 0 <= k < |ps| ==> ps[k] < |cs| && cs[ps[k]].area >= minArea
    ensures forall k, l :: 0 <= k < l < |ps| ==> ps[k] < ps[l]
    ensures forall i :: 0 <= i < |cs| && cs[i].area >= minArea ==> i in ps
  {
    if cs == [] then []
    else
      var n := |cs| - 1;
      QualifyingPositions(cs[..n], minArea) + (if cs[n].area < minArea then [] else [n])
  }

  /** The filter keeps order and multiplicity: its result is the contour
      list read at the qualifying positions, in increasing order. */
  lemma {:induction false} QualifyingInOrder(cs: seq<Contour>, minArea: real)
    ensures var q := Qualifying(cs, minArea);
      var ps := QualifyingPositions(cs, minArea);
      |q| == |ps| && forall k :: 0 <= k < |ps| ==> q[k] == cs[ps[k]]
    decreases |cs|
  {
    if cs != [] {
      var n := |cs| - 1;
      QualifyingInOrder(cs[..n], minArea);
      var q0 := Qualifying(cs[..n], minArea);
      var ps0 := QualifyingPositions(cs[..n], minArea);
      var q := Qualifying(cs, minArea);
      var ps := QualifyingPositions(cs, minArea);
      forall k | 0 <= k < |ps| ensures q[k] == cs[ps[k]] {
        if k < |ps0| {
          assert q[k] == q0[k] && ps[k] == ps0[k];
          assert cs[..n][ps0[k]] == cs[ps0[k]];
        }
      }
    }
  }

  /** The green rectangle drawn for a qualifying contour. */
  function BoxMark(b: BBox): Mark {
    Box(Point(b.x, b.y), Point(b.x + b.w, b.y + b.h))
  }

  function BoxMarks(cs: seq<Contour>): (r: seq<Mark>)
    ensures |r| == |cs|
    ensures forall i :: 0 <= i < |cs| ==> r[i] == BoxMark(cs[i].box)
  {
    seq(|cs|, i requires 0 <= i < |cs| => BoxMark(cs[i].box))
  }

  /** A contour added at the end is kept at the end exactly when it
      reaches the threshold. */
  lemma QualifyingSnoc(cs: seq<Contour>, c: Contour, minArea: real)
    ensures Qualifying(cs + [c], minArea) == Qualifying(cs, minArea) + (if c.area < minArea then [] else [c])
  {
    assert (cs + [c])[..|cs + [c]| - 1] == cs;
  }

  /** ... and so is its rectangle. */
  lemma BoxMarksSnoc(cs: seq<Contour>, c: Contour, minArea: real)
    ensures BoxMarks(Qualifying(cs + [c], minArea)) ==
            BoxMarks(Qualifying(cs, minArea)) + (if c.area < minArea then [] else [BoxMark(c.box)])
  {
    QualifyingSnoc(cs, c, minArea);
    var q := Qualifying(cs, minArea);
    var q2 := Qualifying(cs + [c], minArea);
    var bl := BoxMarks(q2);
    var br := BoxMarks(q) + (if c.area < minArea then [] else [BoxMark(c.box)]);
    assert |bl| == |br|;
    forall i | 0 <= i < |bl| ensures bl[i] == br[i] {
      if i < |q| {
        assert q2[i] == q[i];
      }
    }
  }

  /** What a detector returns: the annotated frame and its events. */
  datatype Detected = Detected(annotated: Frame, events: seq<Event>)
}
