# Air Canvas core, modelled in Dafny

Air Canvas captures camera frames and runs one of two detectors over each
one: an adaptive-background motion detector or a hand-gesture stroke tracker.
The detectors turn frames into event records. A pipeline then enriches each
record, hands it to an action dispatcher (snapshots and an optional alert),
and adds it to an event store. The store is a bounded in-memory deque plus an
append-only log. Two servers sit around this core:

- a Flask dashboard with a mode/monitoring command endpoint, a server-sent
  events stream and an MJPEG feed;
- a WebRTC signalling server that parses ICE candidates, keeps per-client
  tables and runs the detector of the current mode on every returned frame.

This project models that core and proves what its code promises. There is
one Dafny module per source file, plus two shared ones:

| file | module | models |
|---|---|---|
| `py_values.dfy` | `PyValues` | Python values as records and JSON bodies: dicts, `get`, `setdefault`, truthiness, `s[k:]` |
| `imaging.dfy` | `Imaging` | frames, grayscale images, contours `(area, bbox)`, drawn marks, the `area >= min_area` filter |
| `event_store.dfy` | `EventLog` | `event_store.py` |
| `actions.dfy` | `Dispatch` | `actions.py` |
| `adaptive_motion.dfy` | `AdaptiveMotion` | `detectors/motion_detector.py` |
| `static_motion.dfy` | `StaticMotion` | `motion_detector.py` |
| `gesture.dfy` | `GestureTracking` | `detectors/gesture_detector.py` |
| `camera.dfy` | `Camera` | `camera_manager.py` |
| `pipeline.dfy` | `Orchestrator` | `pipeline.py` |
| `webrtc.dfy` | `WebRtc` | `webrtc_server.py` |
| `dashboard.dfy` | `Dashboard` | `server.py` |

The model keeps the form of the code:

- Objects whose fields change are classes, with methods that state their
  whole new state. These are the store, the detectors, the camera manager,
  the pipeline, the signalling server and the SSE generator.
- Loops stay loops, each with its invariants:
  - the accumulator update and the contour loop;
  - the per-hand loop;
  - the warm-up loop;
  - the pipeline's event loop;
  - the disconnect, monitor and ICE-candidate loops.
- Each loop's method is proved against a specification function. The
  lemmas then state what the source promises about that function.
- Pure decisions are functions. These are the dispatch rules, the candidate
  line parser, the command decoder and the per-frame feed decision.

The code's external inputs become parameters:

| input | modelled as |
|---|---|
| OpenCV image operations | the grayscale image and contour list they would produce |
| MediaPipe | the 21 integer landmarks of each detected hand |
| clocks (pipeline) | functions from the event's position to its time stamp |
| clocks (detectors) | the timestamp string of the call |
| clocks (SSE loop) | the current time, `now` |
| capture device | a script of the read results it will deliver |
| alert function | an optional function that returns or raises |
| `str()` of a value | a rendering function |

The model follows the code; in particular:

- Gesture events are not edge-triggered. A frame whose hand hovers or draws
  reports an event every time (`GestureTracking.DrawEventsRepeat`).
- Only the index and middle fingers are read
  (`GestureTracking.ClassifyReadsTwoFingers`).
- `clear_canvas` and a frame without a hand both keep the previous point
  (`GestureTracking.ClearKeepsPreviousPoint`,
  `GestureTracking.NoHandKeepsState`).
- `step` replaces `meta` with the dispatcher's result rather than merging
  it (`Orchestrator.MotionMetaReplaced`).
- `latest(0)` returns every event (`EventLog.EventStore.Latest`).
- The adaptive detector has no reset: only the static engine does.

## Model

| member | source | states |
|---|---|---|
| PyValues.SetDefault | event_store.py:29-30 | `setdefault` keeps an existing value, adds an absent key with the default, and leaves every other key alone |
| EventLog.WithDefaults | event_store.py:28-30 | the stored record has the event's keys plus `timestamp` and `confidence`; present values are kept, and absent ones become the UTC time and None; the caller's dict is a value and is not changed |
| EventLog.BoundedAppend | event_store.py:35 | an append to a deque bounded by `cap` keeps the last `min(len + 1, cap)` elements of `s + [x]` |
| EventLog.BoundedAppendEvicts | event_store.py:17 | below the bound nothing is evicted; on a full deque exactly the oldest entry goes; the new entry is always last |
| EventLog.BoundedAppendSuffix | event_store.py:34-37 | when memory is a tail of the log, appending the same record to both keeps it a tail |
| EventLog.Window | event_store.py:17 | the last `min(len, cap)` elements of a sequence, a suffix of it |
| EventLog.BoundedAppendWindow | event_store.py:35 | bounded appends of a run of records leave exactly its last `cap` records in memory, in arrival order |
| EventLog.EventStore.constructor | event_store.py:14-23 | the memory starts empty; an absent log is created empty; an existing log is kept line for line |
| EventLog.EventStore.Add | event_store.py:26-37 | memory gets the defaulted record by a bounded append; the log gets exactly that record as one new last line; earlier lines are kept; the bound and the memory-is-a-tail-of-the-log invariant hold |
| EventLog.EventStore.Latest | event_store.py:39-41 | for `n >= 1`, the last `min(n, len)` events in order; for `n == 0`, every event; for negative `n`, Python's `[-n:]` |
| EventLog.EventStore.ClearMemory | event_store.py:43-45 | memory becomes empty and the log is untouched |
| Dispatch.PathJoin | actions.py:36 | `os.path.join` of one component: an absolute name is the result; a relative one is appended directly exactly when the directory is empty or ends in `/`, and after one inserted `/` exactly otherwise; the result always ends with the name |
| Dispatch.SnapshotName | actions.py:34-35 | the file name `<type>_<stamp>.jpg`, stated through `MaybeSnapshot` and `TriggerSnapshot`, which prove that the saved path ends with it |
| Dispatch.MaybeSnapshot | actions.py:28-39 | a path exactly for types motion, security_alert and gesture: the snapshot directory joined with `<type>_<stamp>.jpg` |
| Dispatch.Trigger | actions.py:41-61 | the metadata holds no keys but `snapshot` and `discord` |
| Dispatch.AlertMessage | actions.py:55 | the message `🚨 Event: <type> \| conf=<confidence>`, with the values printed by `str()`; `TriggerAlert` proves that it is the message the alert gets |
| Dispatch.TriggerSnapshot | actions.py:47-50 | a snapshot of the given frame is saved, and reported under `snapshot` with its path, exactly for the three snapshot types |
| Dispatch.TriggerAlert | actions.py:53-59 | the alert is called exactly when it is available and the type is motion or security_alert; it gets the message `🚨 Event: <type> \| conf=<confidence>` and the snapshot path; `discord` records "sent" or "failed: <reason>" and nothing is raised |
| Dispatch.TriggerGesture | actions.py:33-53 | gesture events get a snapshot but never an alert, and only the `snapshot` key |
| Dispatch.TriggerOtherTypes | actions.py:46-61 | any other type, or none, gives empty metadata, no snapshot and no alert |
| Imaging.Qualifying | detectors/motion_detector.py:45-48 | every contour kept is in the list and has `area >= min_area`, every such contour is kept, and no more are kept than given |
| Imaging.QualifyingInOrder | detectors/motion_detector.py:45-48 | the kept contours are the list read at exactly the qualifying positions, in increasing order, so that order and repeats are kept |
| Imaging.Mirror | detectors/gesture_detector.py:47 | the horizontal flip keeps the frame's shape, its pixel source and its drawn marks, and toggles the mirrored flag |
| Imaging.NonEmptySize | camera_manager.py:68 | `frame.size > 0` holds exactly when every dimension is positive |
| AdaptiveMotion.ConfidenceRange | detectors/motion_detector.py:55 | `min(1.0, area / 10000)` lies in [0, 1] for a non-negative area, is 1 exactly from 10000 on, and is `area / 10000` below that |
| AdaptiveMotion.Confidence | detectors/motion_detector.py:55 | `min(1.0, area / 10000)`; its range and its saturation point are proved in `ConfidenceRange` |
| AdaptiveMotion.Ema | detectors/motion_detector.py:34 | `accumulateWeighted` on the whole image, one pixel per pixel; `EmaTracks` proves what it means and `Accumulate` that the in-place loop computes it |
| AdaptiveMotion.EmaTracks | detectors/motion_detector.py:34 | the running average keeps a static scene's background, a weight of 1 replaces it, and each updated pixel lies between its old value and the new frame's |
| AdaptiveMotion.MotionEventsShape | detectors/motion_detector.py:45-62 | one event and one rectangle per qualifying contour, in contour order; the type is motion; the meta is area plus bounding box; the confidence is in [0, 1]; the call's one timestamp |
| AdaptiveMotion.MotionEvents | detectors/motion_detector.py:45-62 | one event per qualifying contour, in contour order; `MotionEventsShape` proves its fields and `CollectMotion` that the contour loop yields it |
| AdaptiveMotion.SmallContoursIgnored | detectors/motion_detector.py:46-48 | a contour below `min_area` changes neither the kept contours nor the events |
| AdaptiveMotion.MotionEventsSnoc | detectors/motion_detector.py:45-62 | a contour at the end adds its event at the end exactly when it qualifies |
| AdaptiveMotion.Seed | detectors/motion_detector.py:29 | a fresh accumulator holding the grayscale frame |
| AdaptiveMotion.Accumulate | detectors/motion_detector.py:34 | the accumulator becomes `(1 - w) * avg + w * gray`, pixel by pixel, in place |
| AdaptiveMotion.CollectMotion | detectors/motion_detector.py:45-65 | the contour loop yields the events and rectangles of the qualifying contours, in order |
| AdaptiveMotion.MotionDetector.constructor | detectors/motion_detector.py:6-13 | the given `min_area` and weight, with no accumulator yet |
| AdaptiveMotion.MotionDetector.Default | detectors/motion_detector.py:6 | `min_area` 500 and weight 0.5 |
| AdaptiveMotion.MotionDetector.Process | detectors/motion_detector.py:15-67 | the first call seeds the accumulator and returns the frame with no events; later calls update the same accumulator in place, never reseed, and return the boxed frame and the events; a grayscale image of another shape raises and changes nothing |
| StaticMotion.LastQualifying | motion_detector.py:41-47 | the contour found is in the list and qualifies |
| StaticMotion.ReportMeaning | motion_detector.py:41-47 | `motion_detected` holds exactly when some contour reaches `min_area`; `motion_area` is the area of the last qualifying contour, or 0; the report is the no-motion report exactly when nothing qualifies |
| StaticMotion.LastIsLastOfFilter | motion_detector.py:41-47 | the contour the loop leaves behind is the last of the qualifying ones |
| StaticMotion.AreaIsNotTheLargest | motion_detector.py:47 | a 900 contour followed by a 600 one reports 600, not the largest |
| StaticMotion.MotionDetectorEngine.constructor | motion_detector.py:5-10 | no background and the given `min_area` |
| StaticMotion.MotionDetectorEngine.ProcessFrame | motion_detector.py:12-53 | with no background, the frame becomes the background and no motion is reported; otherwise the background is never changed, and the frame gets the rectangles, with the report of `ReportMeaning`; an image of another shape raises |
| StaticMotion.MotionDetectorEngine.ResetBackground | motion_detector.py:55-57 | the background is cleared, so the next frame reseeds |
| GestureTracking.Classify | detectors/gesture_detector.py:76-102 | the action of one hand from its index and middle fingers; `ClassifyReadsTwoFingers` proves which landmarks decide it and when each action is chosen |
| GestureTracking.ClassifyReadsTwoFingers | detectors/gesture_detector.py:76-102 | only landmarks 6, 8, 10 and 12 matter: hover iff index and middle are up, draw iff only the index is up, none iff the index is down |
| GestureTracking.HandRules | detectors/gesture_detector.py:82-116 | hover and none reset the previous point to (0, 0); draw adds a segment from the previous point, or from the tip when it is (0, 0), to the tip, which becomes the previous point; an event exactly for hover and draw, with type gesture, confidence 1.0, and the meta fields `gesture_type`, `cursor_pos` and `fingers_up` |
| GestureTracking.TrackHand | detectors/gesture_detector.py:71-116 | one pass of the per-hand loop on the pen; its rules are proved in `HandRules` |
| GestureTracking.GestureEvent | detectors/gesture_detector.py:105-116 | the event record of one hover or draw, with `cursor_pos` the index tip; `HandRules` proves which fields an event from a hand carries |
| GestureTracking.TrackSingleHand | detectors/gesture_detector.py:59-116 | the loop over one hand is that hand's step |
| GestureTracking.TrackHandsGrows | detectors/gesture_detector.py:59-116 | strokes are never erased, and there is one event per hand that hovers or draws |
| GestureTracking.CanvasFor | detectors/gesture_detector.py:51-52 | the canvas is kept when it exists with the frame's shape, and otherwise replaced by an empty one of that shape |
| GestureTracking.FrameStep | detectors/gesture_detector.py:38-125 | the output frame is the input's shape, mirrored; the new canvas fits the mirrored frame; when the old one already fitted, its strokes stay a prefix of the new strokes |
| GestureTracking.NoHandKeepsState | detectors/gesture_detector.py:58 | a frame without a hand reports nothing and keeps the previous point and the strokes |
| GestureTracking.DrawEventsRepeat | detectors/gesture_detector.py:105-116 | keeping the draw gesture over two frames reports a draw event on each; the first tip, when off the origin, becomes the previous point, and the second frame's segment runs from it to the second tip |
| GestureTracking.ClearKeepsPreviousPoint | detectors/gesture_detector.py:127-128 | after `clear_canvas`, the first draw starts its segment at the point drawn before the clear |
| GestureTracking.OriginTipBreaksStroke | detectors/gesture_detector.py:94-95 | the (0, 0) sentinel cannot tell "no point" from a tip at the origin: the next draw makes a dot instead of a line |
| GestureTracking.GestureDetector.constructor | detectors/gesture_detector.py:7-36 | no canvas and previous point (0, 0) |
| GestureTracking.GestureDetector.TrackOneHand | detectors/gesture_detector.py:71-116 | one pass of the per-hand loop is the hand step of `HandRules` on the detector's pen, and the canvas keeps its shape |
| GestureTracking.GestureDetector.Process | detectors/gesture_detector.py:38-125 | the new state, output frame and events are those of one frame step: mirror, canvas for the shape, every hand in order, overlay blended in |
| GestureTracking.GestureDetector.ClearCanvas | detectors/gesture_detector.py:127-128 | the canvas is dropped and the previous point is kept |
| Camera.WarmUp | camera_manager.py:64-70 | the warm-up as a function of the script: it makes at most `tries` reads, and at least one when it succeeds; `WarmUpMeaning` proves exactly when it succeeds and how many reads it makes |
| Camera.WarmUpMeaning | camera_manager.py:64-70 | the warm-up succeeds exactly when one of the first 25 reads is valid; it stops right after the first valid one, and otherwise makes all 25 reads |
| Camera.WarmUpStep | camera_manager.py:66-70 | a valid first read ends the warm-up; any other read leaves the rest to the rest of the script |
| Camera.CameraManager.constructor | camera_manager.py:20-25 | the index and the size, with no capture |
| Camera.CameraManager.OpenCapture | camera_manager.py:27-43 | on darwin, AVFoundation if it opened, else it is released and the default backend is used; elsewhere, the default backend only; AVFoundation is otherwise left as it was |
| Camera.CameraManager.WarmUpLoop | camera_manager.py:64-70 | the reads made are those of `WarmUpMeaning`, and the result says whether a valid frame arrived |
| Camera.CameraManager.Open | camera_manager.py:45-82 | a no-op when already open; a capture that did not open raises, is not touched further, and none is kept; otherwise it gets the width, the height and 30 fps; without a valid frame in the warm-up it is released, the call raises and none is kept; with one, it is kept; a failed AVFoundation capture on darwin ends released, AVFoundation is untouched elsewhere, and the default capture is untouched when AVFoundation is used |
| Camera.CameraManager.Read | camera_manager.py:84-88 | raises when closed, and otherwise returns the capture's read unchanged; the capture's released flag and settings are kept |
| Camera.CameraManager.Close | camera_manager.py:90-94 | releases the capture when there is one, keeping its script and settings; it leaves no capture and is idempotent |
| Orchestrator.Enrich | pipeline.py:55-57 | the defaults and the mode `step` gives an event; `FinishMeaning` proves the fields that result |
| Orchestrator.Finish | pipeline.py:54-62 | the event as `step` hands it to the store; `FinishMeaning` proves what each field becomes |
| Orchestrator.FinishMeaning | pipeline.py:54-62 | each event keeps its `type` and `confidence` or gets the mode and 0.0; `mode` is set; `meta` is replaced by non-empty dispatcher metadata and otherwise kept; every other field is untouched |
| Orchestrator.MotionMetaReplaced | pipeline.py:60-62 | a motion event's detector meta (area, bounding box) is always dropped for the dispatcher's snapshot metadata |
| Orchestrator.Pipeline.constructor | pipeline.py:15-35 | mode "motion", monitoring on, a default motion detector, and the gesture detector or the no-op fallback |
| Orchestrator.Pipeline.SetMode | pipeline.py:37-40 | only "motion" or "gesture" are accepted; anything else raises and leaves the mode unchanged |
| Orchestrator.Pipeline.Dispatch | pipeline.py:55-62 | one event is enriched, dispatched with the frame, and given the metadata |
| Orchestrator.Pipeline.HandleEvents | pipeline.py:54-64 | every event is dispatched and added once, in detector order: the log grows by exactly the records and memory is their window |
| Orchestrator.Pipeline.Step | pipeline.py:42-66 | paused: the frame is returned and nothing changes; motion mode runs only the motion detector, and gesture mode only the gesture detector or the fallback; a motion error adds nothing and every event is dispatched and stored in order |
| WebRtc.Split | webrtc_server.py:318 | `str.split()` yields only non-empty words without whitespace |
| WebRtc.SplitJoin | webrtc_server.py:318 | splitting words joined by spaces gives the words back |
| WebRtc.ParseShowInt | webrtc_server.py:322-326 | `int(str(i)) == i` |
| WebRtc.RemoveAll | webrtc_server.py:321 | `str.replace(p, "")`, never longer than its input; `RemoveAbsent` and `RepeatedPrefixDropped` prove what it removes |
| WebRtc.RemoveAbsent | webrtc_server.py:321 | `replace` leaves a string without the prefix unchanged |
| WebRtc.ParseCandidateLine | webrtc_server.py:318-327 | the fields of a candidate line, or why it is refused; `ParseFormatted` proves the round trip and `CandidateFrom` when a line is refused |
| WebRtc.ParseFormatted | webrtc_server.py:318-327 | parsing a candidate line gives back foundation, component, protocol, priority, ip, port and type, whatever the seventh word and the words after the eighth |
| WebRtc.RepeatedPrefixDropped | webrtc_server.py:321 | `replace` drops every "candidate:", not only the leading one |
| WebRtc.CandidateFrom | webrtc_server.py:313-348 | a candidate is added only from a string of 8 or more words whose first starts with "candidate:", with the parsed fields and the message's `sdpMid` and `sdpMLineIndex`; an unexpected format is exactly the short or unprefixed line |
| WebRtc.RouteAsWritten | webrtc_server.py:150-158 | the detector dispatch as written; `GestureRouteRaisesAsWritten` proves that its gesture branch raises |
| WebRtc.GestureRouteRaisesAsWritten | webrtc_server.py:150 | as written, every frame in gesture mode raises on the missing `available` attribute; other modes are unaffected |
| WebRtc.RouteFor | webrtc_server.py:150-158 | the dispatch never raises once availability is known |
| WebRtc.RouteMeaning | webrtc_server.py:150-158 | gesture detector iff gesture mode and available; motion detector iff motion mode; pass-through otherwise |
| WebRtc.WaitingFrame | webrtc_server.py:165-177 | a black 640x480x3 frame at time 0 |
| WebRtc.DetectionMessages | webrtc_server.py:152-158 | `detection_results` is sent exactly when there are events |
| WebRtc.SignalingServer.constructor | webrtc_server.py:44-61 | mode "gesture", empty tables and fresh detectors |
| WebRtc.SignalingServer.SetModeHttp | webrtc_server.py:206-217 | "gesture" or "motion" becomes the mode and is broadcast; anything else gets 400 and changes nothing |
| WebRtc.SignalingServer.HandleModeChange | webrtc_server.py:353-361 | the same whitelist, with the change announced to the sender only; an invalid mode is silently ignored |
| WebRtc.SignalingServer.AddPeer | webrtc_server.py:248-249 | a new connection tagged with the client's id joins `pcs` |
| WebRtc.SignalingServer.StartTrack | webrtc_server.py:98-104 | the client's frame count starts at 0 |
| WebRtc.SignalingServer.FrameArrived | webrtc_server.py:117-122 | the frame becomes the newest, and the client's count is the track's count |
| WebRtc.SignalingServer.HandleDisconnect | webrtc_server.py:223-232 | the client's count and exactly its connections are removed; other entries stay |
| WebRtc.SignalingServer.MonitorTick | webrtc_server.py:64-78 | no clients are reported as such; otherwise every entry is reported, a count of 0 as a warning with the full id and any other count with the first 8 characters of the id; then the counts are cleared |
| WebRtc.SignalingServer.HandleIceCandidate | webrtc_server.py:313-348 | exactly the connections tagged with the id get the candidate, when it converts; the rest are unchanged |
| WebRtc.SignalingServer.Recv | webrtc_server.py:139-181 | the waiting frame while nothing has arrived; otherwise the newest frame goes through the detector chosen by the corrected dispatch `RouteFor` (see the Findings row), with the gesture detector's availability a parameter, and keeps its timing; events are sent only when there are some; a motion error raises |
| Dashboard.ApiMode | server.py:126-145 | a truthy body that is not an object raises; a missing or falsy one counts as `{}`; `cmd == "monitoring"` sets monitoring to `bool(enabled)` (default true) and ignores `mode`; otherwise a valid mode is set and echoed; anything else gets 400 and changes nothing |
| Dashboard.PassMessages | server.py:102-113 | at most a heartbeat and then one data message, never `hello`; `PassDataEvents` proves when the data message is sent |
| Dashboard.PassDataEvents | server.py:107-113 | a pass sends the newest event exactly when there is one and it differs from the last sent |
| Dashboard.PassKeepsStreamOk | server.py:93-115 | the stream keeps `hello` first and only, never sends the same event twice in a row, and remembers the last one sent |
| Dashboard.EventStream.constructor | server.py:94-97 | the stream opens with `hello` and nothing seen |
| Dashboard.EventStream.Pass | server.py:99-115 | a heartbeat after more than 2.0 s, then the newest event from `latest(1)` when it changed; the stream stays sound |
| Dashboard.FeedFrame | server.py:48-58 | a failed read or one without a frame streams nothing and changes nothing; while monitoring is off, the raw frame is streamed and nothing changes; while on, the frame goes through `Pipeline.Step`: what is streamed is `step`'s annotated frame for the current mode, the detected events are stored in order, and a motion detector error ends the stream without storing anything |

## Left out

- OpenCV image operations are abstract: grayscale, blur, difference, threshold, dilate, contours, areas, bounding rectangles, drawing, flip, overlay blending, `imwrite`, `imencode`. A detector gets the grayscale image and the contours as inputs, and drawing is recorded as marks on the frame.
- MediaPipe inference is abstract: a hand is its 21 landmarks, already truncated to pixels, and the skeleton drawing is one mark.
- Floating point: the EMA weight, `area / 10000` and the clocks are `real`.
- Time stamps and the local time of snapshot names are opaque strings passed in. Sleeps are left out.
- Locks, threads, the asyncio loop, `run_coroutine_threadsafe` and the aiortc/av track lifecycle are left out. Everything is sequential.
- The `run_forever_generator` throttle (pipeline.py:68-77) is left out: it only paces time.
- JSON text is not modelled. A log line, an SSE data line and a Socket.IO payload are the record itself; sorted-key JSON is taken to be injective.
- The alert is an optional function that returns or raises. The `vision_test` import is not part of this model.
- `Actions.__init__` is left out: it only creates the directory and loads the alert. The dispatcher's configuration is a value.
- The store constructor's `os.makedirs` is left out.
- EventLog.EventStore.Add: log writes are taken to succeed. In the code the record reaches memory before the log file is opened (event_store.py:35-37). A failed open or write, from a full disk or a permission error, would leave memory ahead of the log and raise out of `step` (pipeline.py:54-64), so the frame's remaining events would not be stored. The invariant that memory is a tail of the log holds only under this assumption.
- The `cursor_pos` tuple of a gesture event is a list value (`VList`), since JSON writes tuples and lists alike as arrays.
- Python's `str()` of a value is the `render` function of the dispatcher's configuration, left unconstrained. So the text the alert message shows for a given type or confidence is not spelled out.
- `Camera.Capture` scripts `cv2.VideoCapture`: a released or unopened capture reads as a failed read. The properties set are recorded, not honoured.
- `Camera.CameraManager.WarmUpLoop` takes the number of reads as a parameter. `Open` passes 25.
- `Camera.CameraManager`'s `__enter__` and `__exit__` are left out: they only call `open` and `close`.
- `WebRtc.ParseInt`: only ASCII digits, an optional sign and single underscores are accepted. Python's `int` also takes other Unicode decimal digits and surrounding whitespace, which a split word cannot contain.
- `WebRtc.SignalingServer.HandleIceCandidate`: `addIceCandidate` is taken to accept the candidate, which is recorded on the connection.
- The clear-canvas HTTP route and socket handler (webrtc_server.py:197-204, 363-369) are left out. They call `gesture_detector.clear()` and read `available`, which `GestureDetector` does not define.
- The rest of `handle_offer` is left out: the SDP exchange, the connection-state callbacks and the ICE emission. Only its `pcs` bookkeeping is modelled.
- The health and static-file routes are left out.
- Log output, and the order the monitor prints clients in, are not modelled. A tick is a map of report lines.
- The MJPEG loop of `video_feed` is modelled as one pass (`Dashboard.FeedFrame`). The camera opening, the encoding failure and the multipart bytes are left out.
- Browser code, `demo_system.py`, `debug.py`, `wsgi.py` and `main.py` are not part of this model. `config.py` supplies the constants: 200 events in memory and the default mode "motion".

## Findings

| source | as written | input that shows it | evidently intended | confidence | as-written member | corrected member |
|---|---|---|---|---|---|---|
| webrtc_server.py:150 | the gesture branch reads `gesture_detector.available`, which `GestureDetector` does not define, so the lookup raises `AttributeError` | any frame received while `current_mode == "gesture"`, the server's initial mode | run the gesture detector in gesture mode when it is available | not executed | WebRtc.GestureRouteRaisesAsWritten | WebRtc.RouteMeaning |
