/** The hand-gesture stroke tracker: classifies the index and middle fingers
    of each detected hand, draws strokes onto a persistent overlay while only
    the index finger is up, and reports one event per frame and hand whose
    action is "hover" or "draw". */
module GestureTracking {
  import opened PyValues
  import opened Imaging

  /** The 21 landmarks of one hand in pixel coordinates, i.e. already
      truncated by `int(lm.x * w)`, `int(lm.y * h)`. */
  type Hand = h: seq<Point> | |h| == 21 witness seq(21, _ => Point(0, 0))

  const IndexTip: nat := 8
  const IndexPip: nat := 6
  const MiddleTip: nat := 12
  const MiddlePip: nat := 10

  /** `(x_prev, y_prev) == (0, 0)` stands for "no previous point". */
  const Origin: Point := Point(0, 0)

  datatype Action = Hover | DrawStroke | NoAction

  function ActionName(a: Action): string {
    match a
    case Hover => "hover"
    case DrawStroke => "draw"
    case NoAction => "none"
  }

  /** A finger is up when its tip is above (smaller y than) its middle joint. */
  predicate IndexUp(h: Hand) { h[IndexTip].y < h[IndexPip].y }
  predicate MiddleUp(h: Hand) { h[MiddleTip].y < h[MiddlePip].y }

  function Classify(h: Hand): Action {
    if IndexUp(h) && MiddleUp(h) then Hover
    else if IndexUp(h) && !MiddleUp(h) then DrawStroke
    else NoAction
  }

  /** Only the index and middle fingers are consulted: two hands that agree on
      landmarks 6, 8, 10 and 12 are classified alike, whatever their other
      landmarks. */
  lemma ClassifyReadsTwoFingers(h1: Hand, h2: Hand)
    requires forall k :: k in {IndexPip, IndexTip, MiddlePip, MiddleTip} ==> h1[k].y == h2[k].y
    ensures Classify(h1) == Classify(h2)
    ensures Classify(h1) == Hover <==> IndexUp(h1) && MiddleUp(h1)
    ensures Classify(h1) == DrawStroke <==> IndexUp(h1) && !MiddleUp(h1)
    ensures Classify(h1) == NoAction <==> !IndexUp(h1)
  {
    assert IndexPip in {IndexPip, IndexTip, MiddlePip, MiddleTip};
    assert IndexTip in {IndexPip, IndexTip, MiddlePip, MiddleTip};
    assert MiddlePip in {IndexPip, IndexTip, MiddlePip, MiddleTip};
    assert MiddleTip in {IndexPip, IndexTip, MiddlePip, MiddleTip};
  }

  /** The overlay `canvas`: its shape and the segments drawn on it. */
  datatype Canvas = Canvas(height: nat, width: nat, channels: nat, strokes: seq<Segment>)

  /** The pen state threaded through the hands of one frame: the previous
      point and the overlay's strokes. */
  datatype Pen = Pen(prev: Point, strokes: seq<Segment>)

  /** What one hand does to the pen, what it draws on the frame, and the event
      it reports. */
  datatype HandStep = HandStep(pen: Pen, marks: seq<Mark>, event: Option<Event>)

  function GestureEvent(a: Action, tip: Point, indexUp: bool, middleUp: bool, timestamp: string): Event {
    map["type" := VStr("gesture"),
        "confidence" := VFloat(1.0),
        "timestamp" := VStr(timestamp),
        "meta" := VDict(map["gesture_type" := VStr(ActionName(a)),
                            "cursor_pos" := VList([VInt(tip.x), VInt(tip.y)]),
                            "fingers_up" := VList([VBool(indexUp), VBool(middleUp)])])]
  }

  /** The body of the per-hand loop. */
  function TrackHand(pen: Pen, h: Hand, skeleton: bool, timestamp: string): HandStep {
    var tip := h[IndexTip];
    var mid := h[MiddleTip];
    var skel := if skeleton then [Skeleton] else [];
    var a := Classify(h);
    var event := if a != NoAction then Some(GestureEvent(a, tip, IndexUp(h), MiddleUp(h), timestamp)) else None;
    match a
    case Hover =>
      HandStep(Pen(Origin, pen.strokes),
               skel + [Box(Point(tip.x, tip.y - 25), Point(mid.x, mid.y + 25)), Caption("Hover", Point(tip.x, tip.y - 30))],
               event)
    case DrawStroke =>
      var start := if pen.prev == Origin then tip else pen.prev;
      HandStep(Pen(tip, pen.strokes + [Segment(start, tip)]), skel + [Dot(tip)], event)
    case NoAction =>
      HandStep(Pen(Origin, pen.strokes), skel, event)
  }

  /** The state machine of one hand. Hover and no action drop the previous
      point; drawing adds one segment from the previous point (or from the tip
      itself when there is none) to the index tip, which becomes the previous
      point. An event is reported exactly for hover and draw, carrying the
      action, the index tip and the two finger flags. */
  lemma HandRules(pen: Pen, h: Hand, skeleton: bool, timestamp: string)
    ensures var s := TrackHand(pen, h, skeleton, timestamp);
      var tip := h[IndexTip];
      && (Classify(h) != DrawStroke ==> s.pen == Pen(Origin, pen.strokes))
      && (Classify(h) == DrawStroke ==>
            s.pen.prev == tip &&
            s.pen.strokes == pen.strokes + [Segment(if pen.prev == Origin then tip else pen.prev, tip)])
      && (s.event.Some? <==> Classify(h) != NoAction)
      && (s.event.Some? ==>
            && s.event.value["type"] == VStr("gesture")
            && s.event.value["confidence"] == VFloat(1.0)
            && s.event.value["timestamp"] == VStr(timestamp)
            && s.event.value["meta"] == VDict(map["gesture_type" := VStr(ActionName(Classify(h))),
                                                "cursor_pos" := VList([VInt(tip.x), VInt(tip.y)]),
                                                "fingers_up" := VList([VBool(IndexUp(h)), VBool(MiddleUp(h))])]))
  {
  }

  /** What the hands of one frame do, in order. */
  datatype Tracked = Tracked(pen: Pen, marks: seq<Mark>, events: seq<Event>)

  function TrackHands(pen: Pen, hands: seq<Hand>, skeleton: bool, timestamp: string): Tracked
    decreases |hands|
  {
    if hands == [] then Tracked(pen, [], [])
    else
      var t := TrackHands(pen, hands[..|hands| - 1], skeleton, timestamp);
      var s := TrackHand(t.pen, hands[|hands| - 1], skeleton, timestamp);
      Tracked(s.pen, t.marks + s.marks, t.events + (if s.event.Some? then [s.event.value] else []))
  }

  /** Tracking a single hand is that hand's step. */
  lemma TrackSingleHand(pen: Pen, h: Hand, skeleton: bool, timestamp: string)
    ensures var s := TrackHand(pen, h, skeleton, timestamp);
      TrackHands(pen, [h], skeleton, timestamp) == Tracked(s.pen, s.marks, if s.event.Some? then [s.event.value] else [])
  {
    assert [h][..0] == [];
  }

  /** Strokes are never erased by tracking: the overlay's earlier strokes stay
      a prefix, and there is one event per hand that hovers or draws. */
  lemma {:induction false} TrackHandsGrows(pen: Pen, hands: seq<Hand>, skeleton: bool, timestamp: string)
    ensures var t := TrackHands(pen, hands, skeleton, timestamp);
      && |pen.strokes| <= |t.pen.strokes| && t.pen.strokes[..|pen.strokes|] == pen.strokes
      && |t.events| == |set i | 0 <= i < |hands| && Classify(hands[i]) != NoAction|
    decreases |hands|
  {
    if hands != [] {
      var n := |hands| - 1;
      var init := hands[..n];
      TrackHandsGrows(pen, init, skeleton, timestamp);
      var t := TrackHands(pen, init, skeleton, timestamp);
      var s := TrackHand(t.pen, hands[n], skeleton, timestamp);
      HandRules(t.pen, hands[n], skeleton, timestamp);
      assert s.pen.strokes[..|t.pen.strokes|] == t.pen.strokes;
      var before := set i | 0 <= i < n && Classify(init[i]) != NoAction;
      var after := set i | 0 <= i < |hands| && Classify(hands[i]) != NoAction;
      assert before == set i | 0 <= i < n && Classify(hands[i]) != NoAction;
      if Classify(hands[n]) != NoAction {
        assert after == before + {n};
      } else {
        assert after == before;
      }
    }
  }

  /** The tracker's state between frames. */
  datatype Tracker = Tracker(canvas: Option<Canvas>, prev: Point)

  /** Whether the canvas exists and has the frame's shape. */
  predicate FitsFrame(canvas: Option<Canvas>, f: Frame) {
    canvas.Some? && canvas.value.height == f.height && canvas.value.width == f.width &&
    canvas.value.channels == f.channels
  }

  /** The canvas a frame is drawn on: kept when it exists and has the frame's
      shape, otherwise a fresh empty one of that shape. */
  function CanvasFor(canvas: Option<Canvas>, f: Frame): (c: Canvas)
    ensures c.height == f.height && c.width == f.width && c.channels == f.channels
    ensures FitsFrame(canvas, f) ==> c == canvas.value
    ensures !FitsFrame(canvas, f) ==> c.strokes == []
  {
    if FitsFrame(canvas, f) then canvas.value
    else Canvas(f.height, f.width, f.channels, [])
  }

  /** The result of one `process` call. */
  datatype FrameResult = FrameResult(tracker: Tracker, out: Frame, events: seq<Event>)

  /** `process(frame)` as a function of the tracker state: mirror the frame,
      (re)allocate the canvas, track the hands, blend the overlay in. */
  function FrameStep(t: Tracker, skeleton: bool, frame: Frame, hands: seq<Hand>, timestamp: string): (res: FrameResult)
    ensures SameShape(res.out, frame) && res.out.mirrored == !frame.mirrored
    ensures FitsFrame(res.tracker.canvas, Mirror(frame))
    ensures FitsFrame(t.canvas, Mirror(frame)) ==>
              var before := t.canvas.value.strokes;
              |before| <= |res.tracker.canvas.value.strokes| &&
              res.tracker.canvas.value.strokes[..|before|] == before
  {
    TrackHandsGrows(Pen(t.prev, CanvasFor(t.canvas, Mirror(frame)).strokes), hands, skeleton, timestamp);
    var f := Mirror(frame);
    var c := CanvasFor(t.canvas, f);
    var r := TrackHands(Pen(t.prev, c.strokes), hands, skeleton, timestamp);
    FrameResult(Tracker(Some(c.(strokes := r.pen.strokes)), r.pen.prev),
                Draw(f, r.marks + [Overlay(r.pen.strokes)]),
                r.events)
  }

  /** A frame without a hand reports nothing and leaves the previous point and
      the strokes as they were (on a canvas of unchanged shape). */
  lemma NoHandKeepsState(t: Tracker, skeleton: bool, frame: Frame, timestamp: string)
    requires t.canvas.Some? && t.canvas.value.height == frame.height &&
             t.canvas.value.width == frame.width && t.canvas.value.channels == frame.channels
    ensures var r := FrameStep(t, skeleton, frame, [], timestamp);
      r.events == [] && r.tracker == t &&
      r.out == Draw(Mirror(frame), [Overlay(t.canvas.value.strokes)])
  {
  }

  /** Events are not edge-triggered: keeping the drawing gesture for two
      frames reports a "draw" event on each of them, and the second frame's
      segment continues from the first frame's tip (one off the origin, which
      would read as "no previous point"). */
  lemma DrawEventsRepeat(t: Tracker, skeleton: bool, f1: Frame, f2: Frame, h1: Hand, h2: Hand, ts1: string, ts2: string)
    requires Classify(h1) == DrawStroke && Classify(h2) == DrawStroke
    requires h1[IndexTip] != Origin
    requires SameShape(f1, f2)
    ensures var r1 := FrameStep(t, skeleton, f1, [h1], ts1);
      var r2 := FrameStep(r1.tracker, skeleton, f2, [h2], ts2);
      && |r1.events| == 1 && |r2.events| == 1
      && r1.events[0]["meta"].entries["gesture_type"] == VStr("draw")
      && r2.events[0]["meta"].entries["gesture_type"] == VStr("draw")
      && r1.tracker.prev == h1[IndexTip]
      && r2.tracker.canvas.Some?
      && r2.tracker.canvas.value.strokes[|r2.tracker.canvas.value.strokes| - 1] == Segment(h1[IndexTip], h2[IndexTip])
  {
    var c1 := CanvasFor(t.canvas, Mirror(f1));
    TrackSingleHand(Pen(t.prev, c1.strokes), h1, skeleton, ts1);
    HandRules(Pen(t.prev, c1.strokes), h1, skeleton, ts1);
    var r1 := FrameStep(t, skeleton, f1, [h1], ts1);
    assert FitsFrame(r1.tracker.canvas, Mirror(f2));
    var c2 := CanvasFor(r1.tracker.canvas, Mirror(f2));
    assert c2 == r1.tracker.canvas.value;
    assert r1.tracker.prev == h1[IndexTip];
    TrackSingleHand(Pen(r1.tracker.prev, c2.strokes), h2, skeleton, ts2);
    HandRules(Pen(r1.tracker.prev, c2.strokes), h2, skeleton, ts2);
  }

  /** `clear_canvas` drops the overlay but not the previous point: the first
      draw after it starts its segment at the point drawn before the clear. */
  lemma ClearKeepsPreviousPoint(prev: Point, skeleton: bool, frame: Frame, h: Hand, timestamp: string)
    requires prev != Origin && Classify(h) == DrawStroke
    ensures var r := FrameStep(Tracker(None, prev), skeleton, frame, [h], timestamp);
      r.tracker.canvas.Some? && r.tracker.canvas.value.strokes == [Segment(prev, h[IndexTip])]
  {
    assert !FitsFrame(None, Mirror(frame));
    TrackSingleHand(Pen(prev, []), h, skeleton, timestamp);
    HandRules(Pen(prev, []), h, skeleton, timestamp);
  }

  /** The (0, 0) sentinel cannot tell "no previous point" from a tip at the
      origin: after a draw at (0, 0), the next draw at `p` makes a dot at `p`
      instead of joining the origin to `p`. */
  lemma OriginTipBreaksStroke(strokes: seq<Segment>, h1: Hand, h2: Hand, skeleton: bool, timestamp: string)
    requires Classify(h1) == DrawStroke && Classify(h2) == DrawStroke
    requires h1[IndexTip] == Origin
    ensures var s1 := TrackHand(Pen(Origin, strokes), h1, skeleton, timestamp);
      var s2 := TrackHand(s1.pen, h2, skeleton, timestamp);
      s2.pen.strokes == strokes + [Segment(Origin, Origin), Segment(h2[IndexTip], h2[IndexTip])]
  {
  }

  class GestureDetector {
    const drawSkeleton: bool
    var canvas: Option<Canvas>
    var xPrev: int
    var yPrev: int

    constructor (drawSkeleton: bool)
      ensures this.drawSkeleton == drawSkeleton && canvas == None && xPrev == 0 && yPrev == 0
    {
      this.drawSkeleton := drawSkeleton;
      canvas := None;
      xPrev, yPrev := 0, 0;
    }

    function State(): Tracker
      reads this
    {
      Tracker(canvas, Point(xPrev, yPrev))
    }

    /** The pen this detector holds: the previous point and the strokes of
        its canvas. */
    function CurrentPen(): Pen
      reads this
      requires canvas.Some?
    {
      Pen(Point(xPrev, yPrev), canvas.value.strokes)
    }

    /** One pass of the per-hand loop: classify, draw, update the previous
        point and the canvas. */
    method TrackOneHand(h: Hand, timestamp: string) returns (marks: seq<Mark>, event: Option<Event>)
      requires canvas.Some?
      modifies this
      ensures canvas.Some? && canvas.value == old(canvas.value).(strokes := canvas.value.strokes)
      ensures HandStep(CurrentPen(), marks, event) == TrackHand(old(CurrentPen()), h, drawSkeleton, timestamp)
    {
      var tip, mid := h[IndexTip], h[MiddleTip];
      marks := if drawSkeleton then [Skeleton] else [];
      var indexUp := h[IndexTip].y < h[IndexPip].y;
      var middleUp := h[MiddleTip].y < h[MiddlePip].y;
      var action := NoAction;
      if indexUp && middleUp {
        action := Hover;
        xPrev, yPrev := 0, 0;
        marks := marks + [Box(Point(tip.x, tip.y - 25), Point(mid.x, mid.y + 25)), Caption("Hover", Point(tip.x, tip.y - 30))];
      } else if indexUp && !middleUp {
        action := DrawStroke;
        marks := marks + [Dot(tip)];
        if xPrev == 0 && yPrev == 0 {
          xPrev, yPrev := tip.x, tip.y;
        }
        canvas := Some(canvas.value.(strokes := canvas.value.strokes + [Segment(Point(xPrev, yPrev), tip)]));
        xPrev, yPrev := tip.x, tip.y;
      } else {
        xPrev, yPrev := 0, 0;
      }
      event := None;
      if action != NoAction {
        event := Some(GestureEvent(action, tip, indexUp, middleUp, timestamp));
      }
    }

    /** `process(frame)`; `hands` are the landmarks the hand-landmark
        capability reports for the mirrored frame. */
    method Process(frame: Frame, hands: seq<Hand>, timestamp: string) returns (out: Frame, events: seq<Event>)
      modifies this
      ensures FrameResult(State(), out, events) == FrameStep(old(State()), drawSkeleton, frame, hands, timestamp)
    {
      var f := Mirror(frame);
      if canvas.None? || canvas.value.height != f.height || canvas.value.width != f.width ||
         canvas.value.channels != f.channels {
        canvas := Some(Canvas(f.height, f.width, f.channels, []));
      }
      ghost var c0 := canvas.value;
      assert c0 == CanvasFor(old(canvas), f);
      ghost var pen0 := CurrentPen();
      var marks: seq<Mark> := [];
      events := [];
      var i := 0;
      while i < |hands|
        invariant 0 <= i <= |hands|
        invariant canvas.Some? && canvas.value == c0.(strokes := canvas.value.strokes)
        invariant TrackHands(pen0, hands[..i], drawSkeleton, timestamp) == Tracked(CurrentPen(), marks, events)
      {
        assert hands[..i + 1][..i] == hands[..i];
        var ms, ev := TrackOneHand(hands[i], timestamp);
        marks := marks + ms;
        if ev.Some? {
          events := events + [ev.value];
        }
        i := i + 1;
      }
      assert hands[..i] == hands;
      out := Draw(f, marks + [Overlay(canvas.value.strokes)]);
    }

    /** `clear_canvas()`: the overlay is dropped; the previous point stays. */
    method ClearCanvas()
      modifies this
      ensures canvas == None && xPrev == old(xPrev) && yPrev == old(yPrev)
    {
      canvas := None;
    }
  }
}
