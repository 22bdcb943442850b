/** The dashboard server's decision logic: the `/api/mode` command decoder,
    one pass of the server-sent-events loop, and what the MJPEG feed does
    with each camera read. */
module Dashboard {
  import opened PyValues
  import opened Imaging
  import opened EventLog
  import opened Camera
  import opened Orchestrator
  import opened AdaptiveMotion
  import opened GestureTracking

  /** An HTTP reply: a status and a JSON body, or a handler that raised. */
  datatype Reply = Reply(status: nat, body: Dict) | HandlerRaised

  /** `request.get_json(silent=True) or {}`: a missing or falsy body is the
      empty object. None means the body is truthy but not an object, on
      which `.get` raises. */
  function CommandBody(body: Option<Value>): (r: Option<Dict>)
    ensures body.None? ==> r == Some(map[])
    ensures body.Some? && !Truthy(body.value) ==> r == Some(map[])
    ensures body.Some? && Truthy(body.value) ==> (r.Some? <==> body.value.VDict?)
  {
    if body.None? || !Truthy(body.value) then Some(map[])
    else if body.value.VDict? then Some(body.value.entries)
    else None
  }

  /** `api_mode()`. A `monitoring` command sets the flag to the truth of
      `enabled` (true when absent) and ignores `mode`; otherwise a valid
      `mode` is set; anything else is rejected with 400 and changes
      nothing. */
  method ApiMode(p: Pipeline, body: Option<Value>) returns (reply: Reply)
    requires p.Valid()
    modifies p
    ensures p.Valid()
    ensures CommandBody(body).None? ==>
              reply == HandlerRaised && p.mode == old(p.mode) && p.isMonitoring == old(p.isMonitoring)
    ensures CommandBody(body).Some? ==>
              var data := CommandBody(body).value;
              var mode := Get(data, "mode", VNone);
              && (Get(data, "cmd", VNone) == VStr("monitoring") ==>
                    && p.isMonitoring == Truthy(Get(data, "enabled", VBool(true)))
                    && p.mode == old(p.mode)
                    && reply == Reply(200, map["ok" := VBool(true), "monitoring" := VBool(p.isMonitoring)]))
              && (Get(data, "cmd", VNone) != VStr("monitoring") && mode.VStr? && IsMode(mode.s) ==>
                    && p.mode == mode.s && p.isMonitoring == old(p.isMonitoring)
                    && reply == Reply(200, map["ok" := VBool(true), "mode" := VStr(p.mode)]))
              && (Get(data, "cmd", VNone) != VStr("monitoring") && !(mode.VStr? && IsMode(mode.s)) ==>
                    && p.mode == old(p.mode) && p.isMonitoring == old(p.isMonitoring)
                    && reply == Reply(400, map["ok" := VBool(false), "error" := VStr("Invalid command")]))
  {
    var data := CommandBody(body);
    if data.None? {
      return HandlerRaised;
    }
    var d := data.value;
    if Get(d, "cmd", VNone) == VStr("monitoring") {
      p.isMonitoring := Truthy(Get(d, "enabled", VBool(true)));
      return Reply(200, map["ok" := VBool(true), "monitoring" := VBool(p.isMonitoring)]);
    }
    var mode := Get(d, "mode", VNone);
    if mode.VStr? && IsMode(mode.s) {
      var _ := p.SetMode(mode.s);
      return Reply(200, map["ok" := VBool(true), "mode" := VStr(p.mode)]);
    }
    reply := Reply(400, map["ok" := VBool(false), "error" := VStr("Invalid command")]);
  }

  /** The interval after which a heartbeat is due, in seconds. */
  const HeartbeatInterval: real := 2.0

  /** One server-sent event. `Data(e)` is the newest stored event as
      sorted-key JSON, modelled as the record itself: the sorted-key text of
      two records is equal exactly when the records are. */
  datatype SseMessage = Hello | Heartbeat(ts: real) | Data(event: Event)

  /** The data messages of a stream, in order. */
  function DataEvents(ms: seq<SseMessage>): (r: seq<Event>)
    ensures |r| <= |ms|
  {
    if ms == [] then []
    else DataEvents(ms[..|ms| - 1]) + (if ms[|ms| - 1].Data? then [ms[|ms| - 1].event] else [])
  }

  lemma {:induction false} DataEventsAppend(a: seq<SseMessage>, b: seq<SseMessage>)
    ensures DataEvents(a + b) == DataEvents(a) + DataEvents(b)
    decreases |b|
  {
    if b != [] {
      var n := |b| - 1;
      assert (a + b)[..|a + b| - 1] == a + b[..n];
      DataEventsAppend(a, b[..n]);
    } else {
      assert a + b == a;
    }
  }

  /** No event is sent twice in a row. */
  predicate ChangesOnly(es: seq<Event>) {
    forall i :: 0 <= i < |es| - 1 ==> es[i] != es[i + 1]
  }

  /** The messages one pass of the loop sends: a heartbeat when more than
      two seconds have passed since the last one, then the newest event when
      there is one and it differs from the last sent. */
  function PassMessages(lastSeen: Option<Event>, lastHeartbeat: real, now: real, latest: seq<Event>): (r: seq<SseMessage>)
    ensures |r| <= 2 && forall i :: 0 <= i < |r| ==> r[i] != Hello
    ensures |r| == 2 ==> r[0].Heartbeat? && r[1].Data?
  {
    (if now - lastHeartbeat > HeartbeatInterval then [Heartbeat(now)] else []) +
    (if latest != [] && lastSeen != Some(latest[0]) then [Data(latest[0])] else [])
  }

  /** The stream opened with `hello` and has no other `hello`; no event
      was sent twice in a row, and `seen` is the last one sent. */
  ghost predicate StreamOk(sent: seq<SseMessage>, seen: Option<Event>) {
    && |sent| > 0 && sent[0] == Hello
    && (forall i :: 0 < i < |sent| ==> sent[i] != Hello)
    && var ds := DataEvents(sent);
       ChangesOnly(ds) && seen == (if ds == [] then None else Some(ds[|ds| - 1]))
  }

  /** The event a pass leaves as the last one sent. */
  function SeenAfter(seen: Option<Event>, latest: seq<Event>): Option<Event> {
    if latest != [] then Some(latest[0]) else seen
  }

  lemma PassDataEvents(seen: Option<Event>, beat: real, now: real, latest: seq<Event>)
    ensures DataEvents(PassMessages(seen, beat, now, latest)) ==
            if latest != [] && seen != Some(latest[0]) then [latest[0]] else []
  {
    var out := PassMessages(seen, beat, now, latest);
    if |out| == 2 {
      assert out[..1] == [Heartbeat(now)];
      assert out[..1][..0] == [];
    } else if |out| == 1 {
      assert out[..0] == [];
    }
  }

  /** Messages without `hello` appended after the first keep `hello`
      first and only. */
  lemma OnlyFirstHello(sent: seq<SseMessage>, out: seq<SseMessage>)
    requires |sent| > 0 && forall i :: 0 < i < |sent| ==> sent[i] != Hello
    requires forall i :: 0 <= i < |out| ==> out[i] != Hello
    ensures var all := sent + out; forall i :: 0 < i < |all| ==> all[i] != Hello
  {
    var all := sent + out;
    forall i | 0 < i < |all| ensures all[i] != Hello {
      if i >= |sent| {
        assert all[i] == out[i - |sent|];
      }
    }
  }

  /** Sending one event that differs from the last sent keeps a sequence
      without repeats. */
  lemma ChangesOnlySnoc(ds: seq<Event>, e: Event)
    requires ChangesOnly(ds) && (ds != [] ==> ds[|ds| - 1] != e)
    ensures ChangesOnly(ds + [e])
  {
    var all := ds + [e];
    forall i | 0 <= i < |all| - 1 ensures all[i] != all[i + 1] {
      if i + 1 < |ds| {
        assert all[i] == ds[i] && all[i + 1] == ds[i + 1];
      }
    }
  }

  /** A pass keeps the stream sound: it sends no `hello`, and it sends the
      newest event only when that differs from the last one sent. */
  lemma PassKeepsStreamOk(sent: seq<SseMessage>, seen: Option<Event>, beat: real, now: real, latest: seq<Event>)
    requires StreamOk(sent, seen)
    ensures StreamOk(sent + PassMessages(seen, beat, now, latest), SeenAfter(seen, latest))
  {
    var out := PassMessages(seen, beat, now, latest);
    OnlyFirstHello(sent, out);
    DataEventsAppend(sent, out);
    PassDataEvents(seen, beat, now, latest);
    var ds := DataEvents(sent);
    if latest != [] && seen != Some(latest[0]) {
      ChangesOnlySnoc(ds, latest[0]);
    } else {
      assert ds + [] == ds;
    }
  }

  /** The generator of `/events`, between two passes of its loop. */
  class EventStream {
    var lastSeen: Option<Event>
    var lastHeartbeat: real
    /** The messages sent so far. */
    var sent: seq<SseMessage>

    ghost predicate Valid()
      reads this
    {
      StreamOk(sent, lastSeen)
    }

    /** The generator's first yield. */
    constructor ()
      ensures Valid() && sent == [Hello] && lastSeen == None && lastHeartbeat == 0.0
    {
      lastSeen := None;
      lastHeartbeat := 0.0;
      sent := [Hello];
      new;
      assert [Hello][..0] == [];
    }

    /** One pass of the loop at time `now`, reading the newest event of
        `store` with `latest(1)`. */
    method Pass(store: EventStore, now: real)
      requires Valid() && store.Valid()
      modifies this
      ensures Valid()
      ensures var latest := if store.events == [] then [] else [store.events[|store.events| - 1]];
        && sent == old(sent) + PassMessages(old(lastSeen), old(lastHeartbeat), now, latest)
        && lastSeen == SeenAfter(old(lastSeen), latest)
      ensures lastHeartbeat == if now - old(lastHeartbeat) > HeartbeatInterval then now else old(lastHeartbeat)
    {
      ghost var sent0, seen0, beat0 := sent, lastSeen, lastHeartbeat;
      assert StreamOk(sent0, seen0);
      var out: seq<SseMessage> := [];
      if now - lastHeartbeat > HeartbeatInterval {
        out := out + [Heartbeat(now)];
        lastHeartbeat := now;
      }
      var latest := store.Latest(1);
      assert latest == if store.events == [] then [] else [store.events[|store.events| - 1]];
      if latest != [] {
        var cur := latest[0];
        if Some(cur) != lastSeen {
          out := out + [Data(cur)];
          lastSeen := Some(cur);
        }
      }
      assert out == PassMessages(seen0, beat0, now, latest);
      assert lastSeen == SeenAfter(seen0, latest);
      PassKeepsStreamOk(sent0, seen0, beat0, now, latest);
      sent := sent + out;
    }
  }

  /** What the MJPEG feed does with one camera read. */
  datatype FeedAction = SkipRead | StreamRaw(frame: Frame) | StreamStepped(frame: Frame)

  /** A failed read, or one without a frame, is skipped; otherwise the frame
      goes through `pipeline.step` while monitoring and is streamed as it is
      while not. */
  function FeedDecision(r: ReadResult, monitoring: bool): (a: FeedAction)
    ensures a == SkipRead <==> !r.ok || r.frame.None?
    ensures a.StreamStepped? <==> r.ok && r.frame.Some? && monitoring
    ensures !a.SkipRead? ==> a.frame == r.frame.value
  {
    if !r.ok || r.frame.None? then SkipRead
    else if monitoring then StreamStepped(r.frame.value)
    else StreamRaw(r.frame.value)
  }

  /** What one pass of the MJPEG loop does: nothing for a skipped read, the
      frame it streams, or the end of the stream when `step` raised. */
  datatype FeedOutcome = Skipped | Streamed(frame: Frame) | FeedCrashed

  /** One pass of the loop of `video_feed`. `read` is the camera's result;
      the other inputs are what `Pipeline.Step` hands its detectors for the
      frame. A skipped read and a raw frame change nothing; a stepped frame
      streams what `step` returns, after its events were stored. */
  method FeedFrame(p: Pipeline, read: ReadResult, gray: Gray, contours: seq<Contour>, hands: seq<Hand>,
                   timestamp: string, local: nat -> string, utc: nat -> string)
    returns (o: FeedOutcome, ghost detected: seq<Event>)
    requires p.Valid()
    modifies p.store, p.store.file, p.motion, p.motion.avg, p.GestureState()
    ensures p.Valid()
    // Skipped reads, and every frame while monitoring is off.
    ensures !(read.ok && read.frame.Some? && p.isMonitoring) ==>
              && o == (if read.ok && read.frame.Some? then Streamed(read.frame.value) else Skipped)
              && detected == []
              && unchanged(p.store, p.store.file, p.motion) && unchanged(p.GestureState())
              && (p.motion.avg != null ==> unchanged(p.motion.avg))
    // A frame while monitoring goes through `step`.
    ensures read.ok && read.frame.Some? && p.isMonitoring ==>
              var frame := read.frame.value;
              && (p.mode == "motion" && old(p.motion.avg) == null ==> o == Streamed(frame) && detected == [])
              && (p.mode == "motion" && old(p.motion.avg) != null && !old(p.motion.Fits(gray)) ==>
                    o == FeedCrashed && unchanged(p.store, p.store.file))
              && (p.mode == "motion" && old(p.motion.avg) != null && old(p.motion.Fits(gray)) ==>
                    && o == Streamed(Draw(frame, BoxMarks(Qualifying(contours, p.motion.minArea))))
                    && detected == MotionEvents(contours, p.motion.minArea, timestamp))
              && (p.mode != "motion" && p.gesture.Tracking? ==>
                    var s := FrameStep(old(p.gesture.detector.State()), p.gesture.detector.drawSkeleton,
                                       frame, hands, timestamp);
                    o == Streamed(s.out) && detected == s.events && p.gesture.detector.State() == s.tracker)
              && (p.mode != "motion" && p.gesture.NoOp? ==> o == Streamed(frame) && detected == [])
              && (o.Streamed? ==>
                    var recs := Records(p.actions, p.mode, detected, if p.mode == "motion" then o.frame else frame,
                                        local, utc);
                    && p.store.file.lines == old(p.store.file.lines) + recs
                    && p.store.events == Window(old(p.store.events) + recs, p.store.maxlen))
  {
    match FeedDecision(read, p.isMonitoring)
    case SkipRead =>
      o, detected := Skipped, [];
    case StreamRaw(frame) =>
      o, detected := Streamed(frame), [];
    case StreamStepped(frame) =>
      var r;
      r, detected := p.Step(frame, gray, contours, hands, timestamp, local, utc);
      o := if r.Stepped? then Streamed(r.annotated) else FeedCrashed;
  }
}
