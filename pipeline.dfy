/** The orchestrator: runs the detector of the current mode over a frame
    (unless monitoring is paused), then enriches every event, dispatches it
    to the actions and adds it to the store, in detector order. */
module Orchestrator {
  import opened PyValues
  import opened Imaging
  import opened EventLog
  import opened Dispatch
  import opened AdaptiveMotion
  import opened GestureTracking

  /** `default_mode` of the configuration. */
  const DefaultMode: string := "motion"

  predicate IsMode(m: string) {
    m == "motion" || m == "gesture"
  }

  /** The gesture detector in use: the real one, or the no-op fallback used
      when the real one could not be constructed. */
  datatype GestureBackend = Tracking(detector: GestureDetector) | NoOp

  /** The fields `step` gives every event before dispatching it: `type`
      defaults to the mode, `confidence` to 0.0, and `mode` is set. */
  function Enrich(mode: string, e: Event): Event {
    SetDefault(SetDefault(e, "type", VStr(mode)), "confidence", VFloat(0.0))["mode" := VStr(mode)]
  }

  /** The event as `step` hands it to the store: enriched, with `meta`
      replaced by the dispatcher's metadata when that is not empty. */
  function Finish(a: Actions, mode: string, e: Event, frame: Frame, stamp: string): Event {
    var e1 := Enrich(mode, e);
    var d := Trigger(a, e1, frame, stamp);
    if d.meta != map[] then e1["meta" := VDict(d.meta)] else e1
  }

  /** What `step` does to one event: existing `type` and `confidence` are
      kept and absent ones defaulted, `mode` is the current mode, `meta` is
      replaced by the dispatcher's metadata when that is not empty (not
      merged) and kept otherwise, and every other field is left alone. */
  lemma FinishMeaning(a: Actions, mode: string, e: Event, frame: Frame, stamp: string)
    ensures var r := Finish(a, mode, e, frame, stamp);
      var d := Trigger(a, Enrich(mode, e), frame, stamp);
      && r.Keys == e.Keys + {"type", "confidence", "mode"} + (if d.meta != map[] then {"meta"} else {})
      && r["type"] == (if "type" in e then e["type"] else VStr(mode))
      && r["confidence"] == (if "confidence" in e then e["confidence"] else VFloat(0.0))
      && r["mode"] == VStr(mode)
      && (d.meta != map[] ==> r["meta"] == VDict(d.meta))
      && (d.meta == map[] && "meta" in e ==> r["meta"] == e["meta"])
      && forall k :: k in e && k != "type" && k != "confidence" && k != "mode" && k != "meta" ==> r[k] == e[k]
  {
  }

  /** A motion event always gets a snapshot, so its detector metadata (area,
      bounding box) is always dropped in favour of the dispatcher's. */
  lemma MotionMetaReplaced(a: Actions, mode: string, e: Event, frame: Frame, stamp: string)
    requires "type" in e && e["type"] == VStr("motion")
    ensures var r := Finish(a, mode, e, frame, stamp);
      && "meta" in r && r["meta"].VDict?
      && "snapshot" in r["meta"].entries
      && "area" !in r["meta"].entries && "bounding_box" !in r["meta"].entries
  {
    var e1 := Enrich(mode, e);
    assert Get(e1, "type", VStr("")) == VStr("motion");
    TriggerSnapshot(a, e1, frame, stamp);
  }

  /** The dispatcher results of one step's events, in order; `local` is the
      local clock read by the i-th dispatch. */
  function Effects(a: Actions, mode: string, events: seq<Event>, frame: Frame, local: nat -> string): (r: seq<Dispatched>)
    ensures |r| == |events|
  {
    seq(|events|, i requires 0 <= i < |events| => Trigger(a, Enrich(mode, events[i]), frame, local(i)))
  }

  /** The records one step adds to the store, in order; `utc` is the UTC
      clock read by the i-th add. */
  function Records(a: Actions, mode: string, events: seq<Event>, frame: Frame,
                   local: nat -> string, utc: nat -> string): (r: seq<Event>)
    ensures |r| == |events|
  {
    seq(|events|, i requires 0 <= i < |events| => WithDefaults(Finish(a, mode, events[i], frame, local(i)), utc(i)))
  }

  /** Proof step for the event loop: a prefix grows by one element. */
  lemma TakeSnoc<T>(s: seq<T>, i: nat)
    requires i < |s|
    ensures s[..i + 1] == s[..i] + [s[i]]
  {
  }

  /** Adding the next record keeps the log and the memory in step with the
      records added so far. */
  lemma {:induction false} LogStep<T>(e0: seq<T>, l0: seq<T>, recs: seq<T>, i: nat, cap: nat)
    requires i < |recs|
    ensures BoundedAppend(Window(e0 + recs[..i], cap), recs[i], cap) == Window(e0 + recs[..i + 1], cap)
    ensures (l0 + recs[..i]) + [recs[i]] == l0 + recs[..i + 1]
  {
    BoundedAppendWindow(e0 + recs[..i], recs[i], cap);
    TakeSnoc(recs, i);
    AppendAssoc(e0, recs[..i], [recs[i]]);
    AppendAssoc(l0, recs[..i], [recs[i]]);
  }

  /** Proof step for the event loop: sequence concatenation regroups. */
  lemma AppendAssoc<T>(a: seq<T>, b: seq<T>, c: seq<T>)
    ensures (a + b) + c == a + (b + c)
  {
  }

  /** The result of `step`: the frame to display and what the dispatcher did,
      or the exception the motion detector raised. */
  datatype StepOutcome = Stepped(annotated: Frame, effects: seq<Dispatched>) | DetectorRaised

  /** The outcome of `set_mode`. */
  datatype ModeOutcome = ModeSet | InvalidMode

  class Pipeline {
    const store: EventStore
    const actions: Actions
    var mode: string
    var isMonitoring: bool
    const motion: MotionDetector
    const gesture: GestureBackend

    /** The store is sound and the mode is one of the two. */
    ghost predicate Valid()
      reads this, store, store.file
    {
      store.Valid() && IsMode(mode)
    }

    /** The objects the gesture backend may change. */
    function GestureState(): set<object>
    {
      if gesture.Tracking? then {gesture.detector} else {}
    }

    /** A new pipeline: the configured default mode, monitoring on, a fresh
        motion detector with its defaults, and the gesture detector when it
        can be built (`gestureAvailable`), the no-op fallback otherwise. */
    constructor (store: EventStore, actions: Actions, gestureAvailable: bool)
      requires store.Valid()
      ensures Valid()
      ensures this.store == store && this.actions == actions
      ensures mode == DefaultMode && isMonitoring
      ensures fresh(motion) && motion.avg == null
      ensures motion.minArea == AdaptiveMotion.DefaultMinArea && motion.weight == DefaultWeight
      ensures gestureAvailable ==>
                && gesture.Tracking? && fresh(gesture.detector)
                && gesture.detector.State() == Tracker(None, Origin) && !gesture.detector.drawSkeleton
      ensures !gestureAvailable ==> gesture == NoOp
    {
      this.store := store;
      this.actions := actions;
      mode := DefaultMode;
      isMonitoring := true;
      motion := new MotionDetector.Default();
      if gestureAvailable {
        var d := new GestureDetector(false);
        gesture := Tracking(d);
      } else {
        gesture := NoOp;
      }
    }

    /** `set_mode(mode)`: only "motion" and "gesture" are accepted; anything
        else raises and leaves the mode as it was. */
    method SetMode(m: string) returns (r: ModeOutcome)
      requires Valid()
      modifies this
      ensures Valid()
      ensures IsMode(m) ==> r == ModeSet && mode == m
      ensures !IsMode(m) ==> r == InvalidMode && mode == old(mode)
      ensures isMonitoring == old(isMonitoring)
    {
      if !IsMode(m) {
        return InvalidMode;
      }
      mode := m;
      r := ModeSet;
    }

    /** The body of the event loop of `step`, on one event: the defaults,
        the mode, the dispatch, and the metadata the dispatcher returned. It is
        the method form of `Finish` and `Trigger`, whose meaning
        `FinishMeaning` states. */
    method Dispatch(event: Event, frame: Frame, stamp: string) returns (e: Event, d: Dispatched)
      ensures e == Finish(actions, mode, event, frame, stamp)
      ensures d == Trigger(actions, Enrich(mode, event), frame, stamp)
    {
      e := SetDefault(event, "type", VStr(mode));
      e := SetDefault(e, "confidence", VFloat(0.0));
      e := e["mode" := VStr(mode)];
      d := Trigger(actions, e, frame, stamp);
      if d.meta != map[] {
        e := e["meta" := VDict(d.meta)];
      }
    }

    /** The event loop of `step`: each event is enriched and dispatched with
        `frame`, its `meta` is replaced by a non-empty dispatcher result, and
        it is added to the store, one after the other. */
    method HandleEvents(events: seq<Event>, frame: Frame, local: nat -> string, utc: nat -> string)
      returns (effects: seq<Dispatched>)
      requires Valid()
      modifies store, store.file
      ensures Valid()
      ensures effects == Effects(actions, mode, events, frame, local)
      ensures var recs := Records(actions, mode, events, frame, local, utc);
        && store.file.lines == old(store.file.lines) + recs
        && store.events == Window(old(store.events) + recs, store.maxlen)
    {
      ghost var recs := Records(actions, mode, events, frame, local, utc);
      ghost var all := Effects(actions, mode, events, frame, local);
      ghost var e0, l0 := store.events, store.file.lines;
      effects := [];
      var i := 0;
      while i < |events|
        invariant 0 <= i <= |events|
        invariant store.Valid()
        invariant effects == all[..i]
        invariant store.file.lines == l0 + recs[..i]
        invariant store.events == Window(e0 + recs[..i], store.maxlen)
      {
        var e, d := Dispatch(events[i], frame, local(i));
        assert recs[i] == WithDefaults(e, utc(i));
        LogStep(e0, l0, recs, i, store.maxlen);
        store.Add(e, utc(i));
        assert all[i] == d;
        TakeSnoc(all, i);
        effects := effects + [d];
        i := i + 1;
      }
      assert recs[..i] == recs;
      assert all[..i] == all;
    }

    /** `step(frame)`. The motion detector is given the blurred grayscale
        frame and the contours the image operations find, the gesture
        detector the landmarks of the hands; `timestamp` is the detectors'
        clock. `detected` is what the detector reported. */
    method Step(frame: Frame, gray: Gray, contours: seq<Contour>, hands: seq<Hand>,
                timestamp: string, local: nat -> string, utc: nat -> string)
      returns (r: StepOutcome, ghost detected: seq<Event>)
      requires Valid()
      modifies store, store.file, motion, motion.avg, GestureState()
      ensures Valid()
      // Paused: the frame is returned as it is, and nothing else happens.
      ensures !isMonitoring ==>
                && r == Stepped(frame, []) && detected == []
                && unchanged(store, store.file, motion) && unchanged(GestureState())
                && (motion.avg != null ==> unchanged(motion.avg))
      // Motion mode: only the motion detector runs; its events are
      // dispatched with the annotated frame, on which its rectangles are
      // drawn in place.
      ensures isMonitoring && mode == "motion" ==>
                && unchanged(GestureState())
                && (old(motion.avg) == null ==>
                      motion.avg != null && fresh(motion.avg) && motion.avg[..] == gray.px &&
                      r == Stepped(frame, []) && detected == [])
                && (old(motion.avg) != null && !old(motion.Fits(gray)) ==>
                      r == DetectorRaised && unchanged(store, store.file) &&
                      motion.avg == old(motion.avg) && motion.avg[..] == old(motion.avg[..]))
                && (old(motion.avg) != null && old(motion.Fits(gray)) ==>
                      && motion.avg == old(motion.avg)
                      && motion.avg[..] == Ema(old(motion.avg[..]), gray.px, motion.weight)
                      && detected == MotionEvents(contours, motion.minArea, timestamp)
                      && r.Stepped? && r.annotated == Draw(frame, BoxMarks(Qualifying(contours, motion.minArea))))
      // Any other mode: only the gesture detector (or the fallback) runs;
      // its events are dispatched with the original frame.
      ensures isMonitoring && mode != "motion" ==>
                && unchanged(motion) && (motion.avg != null ==> unchanged(motion.avg))
                && r.Stepped?
                && (gesture.Tracking? ==>
                      FrameResult(gesture.detector.State(), r.annotated, detected) ==
                      FrameStep(old(gesture.detector.State()), gesture.detector.drawSkeleton, frame, hands, timestamp))
                && (gesture.NoOp? ==> r.annotated == frame && detected == [])
      // Every reported event is enriched, dispatched and stored, in order.
      ensures isMonitoring && r.Stepped? ==>
                var shown := if mode == "motion" then r.annotated else frame;
                var recs := Records(actions, mode, detected, shown, local, utc);
                && r.effects == Effects(actions, mode, detected, shown, local)
                && store.file.lines == old(store.file.lines) + recs
                && store.events == Window(old(store.events) + recs, store.maxlen)
    {
      if !isMonitoring {
        return Stepped(frame, []), [];
      }
      var annotated: Frame;
      var events: seq<Event>;
      var shown: Frame;
      if mode == "motion" {
        var m := motion.Process(frame, gray, contours, timestamp);
        if m.None? {
          return DetectorRaised, [];
        }
        annotated, events := m.value.annotated, m.value.events;
        shown := annotated;
      } else {
        match gesture {
        case Tracking(d) =>
          annotated, events := d.Process(frame, hands, timestamp);
        case NoOp =>
          annotated, events := frame, [];
        }
        shown := frame;
      }
      var effects := HandleEvents(events, shown, local, utc);
      r, detected := Stepped(annotated, effects), events;
    }
  }
}
