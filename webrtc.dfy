/** The decision and bookkeeping logic of the WebRTC signalling server: the
    ICE candidate line parser (the `candidate` attribute of section 5.1 of
    RFC 8839), the mode whitelist of the HTTP and socket handlers, the
    per-frame detector dispatch of the returned video track, the cleanup on
    disconnect and the frame-count monitor. */
module WebRtc {
  import opened PyValues
  import opened Imaging
  import opened AdaptiveMotion
  import opened GestureTracking

  // ---------------------------------------------------------------------
  // Python's `str.split()` with no arguments

  /** The characters Python's `str.split()` treats as whitespace. */
  predicate IsSpace(c: char) {
    c == ' ' || ('\U{9}' <= c <= '\U{D}') || ('\U{1C}' <= c <= '\U{1F}') ||
    c == '\U{85}' || c == '\U{A0}' || c == '\U{1680}' || ('\U{2000}' <= c <= '\U{200A}') ||
    c == '\U{2028}' || c == '\U{2029}' || c == '\U{202F}' || c == '\U{205F}' || c == '\U{3000}'
  }

  /** A word of a split: non-empty, without whitespace. */
  predicate Token(t: string) {
    |t| > 0 && forall i :: 0 <= i < |t| ==> !IsSpace(t[i])
  }

  /** The length of the word `s` starts with. */
  function WordLen(s: string): (n: nat)
    ensures n <= |s|
    ensures forall i :: 0 <= i < n ==> !IsSpace(s[i])
    ensures n < |s| ==> IsSpace(s[n])
  {
    if s == [] || IsSpace(s[0]) then 0 else 1 + WordLen(s[1..])
  }

  /** `s.split()`: the maximal runs of non-whitespace, in order. */
  function Split(s: string): (r: seq<string>)
    ensures forall i :: 0 <= i < |r| ==> Token(r[i])
    decreases |s|
  {
    if s == [] then []
    else if IsSpace(s[0]) then Split(s[1..])
    else
      var n := WordLen(s);
      [s[..n]] + Split(s[n..])
  }

  /** `" ".join(ts)`. */
  function Join(ts: seq<string>): string {
    if ts == [] then ""
    else if |ts| == 1 then ts[0]
    else ts[0] + " " + Join(ts[1..])
  }

  lemma {:induction false} WordLenOfWord(t: string, u: string)
    requires forall i :: 0 <= i < |t| ==> !IsSpace(t[i])
    requires u == [] || IsSpace(u[0])
    ensures WordLen(t + u) == |t|
    decreases |t|
  {
    if t != [] {
      assert (t + u)[1..] == t[1..] + u;
      WordLenOfWord(t[1..], u);
    } else {
      assert t + u == u;
    }
  }

  /** Splitting words joined by single spaces gives the words back. */
  lemma {:induction false} SplitJoin(ts: seq<string>)
    requires forall i :: 0 <= i < |ts| ==> Token(ts[i])
    ensures Split(Join(ts)) == ts
    decreases |ts|
  {
    if ts == [] {
    } else if |ts| == 1 {
      var t := ts[0];
      WordLenOfWord(t, []);
      assert t + [] == t;
      assert t[..|t|] == t && t[|t|..] == [];
    } else {
      var t, j := ts[0], Join(ts[1..]);
      var s := t + " " + j;
      assert s == t + (" " + j);
      WordLenOfWord(t, " " + j);
      assert s[..|t|] == t;
      assert s[|t|..] == " " + j;
      assert (" " + j)[1..] == j;
      SplitJoin(ts[1..]);
    }
  }

  // ---------------------------------------------------------------------
  // Python's `int(token)` in base 10

  predicate IsDigit(c: char) { '0' <= c <= '9' }

  function DigitValue(c: char): nat
    requires IsDigit(c)
  {
    c as int - '0' as int
  }

  function DigitChar(d: nat): (c: char)
    requires d < 10
    ensures IsDigit(c) && DigitValue(c) == d
  {
    ('0' as int + d) as char
  }

  predicate AllDigits(s: string) {
    forall i :: 0 <= i < |s| ==> IsDigit(s[i])
  }

  /** The digits of an integer literal as `int()` accepts them: digits with
      single underscores between them. */
  predicate DigitGroups(d: string) {
    && |d| > 0 && IsDigit(d[0]) && IsDigit(d[|d| - 1])
    && (forall i :: 0 <= i < |d| ==> IsDigit(d[i]) || d[i] == '_')
    && (forall i :: 0 <= i < |d| - 1 ==> !(d[i] == '_' && d[i + 1] == '_'))
  }

  /** The digits without the underscores. */
  function Digits(d: string): (r: string)
    ensures (forall i :: 0 <= i < |d| ==> IsDigit(d[i]) || d[i] == '_') ==> AllDigits(r)
  {
    if d == [] then [] else (if d[0] == '_' then [] else [d[0]]) + Digits(d[1..])
  }

  /** The value of a string of decimal digits. */
  function DecimalValue(ds: string): nat
    requires AllDigits(ds)
  {
    if ds == [] then 0 else DecimalValue(ds[..|ds| - 1]) * 10 + DigitValue(ds[|ds| - 1])
  }

  /** `int(t)` for a token: an optional sign, then digit groups; None where
      Python raises `ValueError`. */
  function ParseInt(t: string): Option<int> {
    var signed := |t| > 0 && (t[0] == '-' || t[0] == '+');
    var body := if signed then t[1..] else t;
    if !DigitGroups(body) then None
    else
      var v: int := DecimalValue(Digits(body));
      Some(if signed && t[0] == '-' then -v else v)
  }

  /** `str(n)` for a non-negative integer. */
  function ShowNat(n: nat): (s: string)
    ensures |s| > 0 && AllDigits(s)
  {
    if n < 10 then [DigitChar(n)] else ShowNat(n / 10) + [DigitChar(n % 10)]
  }

  /** `str(i)`. */
  function ShowInt(i: int): (s: string)
    ensures Token(s)
  {
    if i < 0 then "-" + ShowNat(-i) else ShowNat(i)
  }

  lemma {:induction false} DecimalShowNat(n: nat)
    ensures DecimalValue(ShowNat(n)) == n
    decreases n
  {
    if n >= 10 {
      var s := ShowNat(n);
      assert s[..|s| - 1] == ShowNat(n / 10);
      DecimalShowNat(n / 10);
    }
  }

  lemma {:induction false} DigitsOfDigits(s: string)
    requires AllDigits(s)
    ensures Digits(s) == s
    decreases |s|
  {
    if s != [] {
      DigitsOfDigits(s[1..]);
    }
  }

  lemma ParseShowNat(n: nat)
    ensures var s := ShowNat(n);
      DigitGroups(s) && DecimalValue(Digits(s)) == n
  {
    var s := ShowNat(n);
    DecimalShowNat(n);
    DigitsOfDigits(s);
  }

  /** `int(str(i)) == i`. */
  lemma ParseShowInt(i: int)
    ensures ParseInt(ShowInt(i)) == Some(i)
  {
    if i < 0 {
      var s := ShowNat(-i);
      ParseShowNat(-i);
      assert ("-" + s)[0] == '-';
      assert ("-" + s)[1..] == s;
    } else {
      var s := ShowNat(i);
      ParseShowNat(i);
      assert IsDigit(s[0]);
    }
  }

  // ---------------------------------------------------------------------
  // The candidate line

  const CandidatePrefix: string := "candidate:"

  predicate StartsWith(s: string, p: string) {
    |p| <= |s| && s[..|p|] == p
  }

  /** `s.replace(p, "")`: every occurrence, scanning left to right. */
  function RemoveAll(s: string, p: string): (r: string)
    requires |p| > 0
    ensures |r| <= |s|
    decreases |s|
  {
    if |s| < |p| then s
    else if s[..|p|] == p then RemoveAll(s[|p|..], p)
    else [s[0]] + RemoveAll(s[1..], p)
  }

  predicate Occurs(s: string, p: string) {
    exists i :: 0 <= i <= |s| && StartsWith(s[i..], p)
  }

  lemma {:induction false} RemoveAbsent(s: string, p: string)
    requires |p| > 0 && !Occurs(s, p)
    ensures RemoveAll(s, p) == s
    decreases |s|
  {
    if |s| >= |p| {
      assert s[0..] == s;
      assert !StartsWith(s[0..], p);
      assert !Occurs(s[1..], p) by {
        forall i | 0 <= i <= |s[1..]| ensures !StartsWith(s[1..][i..], p) {
          assert s[1..][i..] == s[i + 1..];
        }
      }
      RemoveAbsent(s[1..], p);
    }
  }

  /** The fields `_add_candidate` extracts from a candidate line. */
  datatype Fields = Fields(foundation: string, component: int, protocol: string, priority: int,
                           ip: string, port: int, candidateType: string)

  datatype LineParse =
    | Unexpected      // fewer than 8 words, or no "candidate:" prefix
    | NotAnInteger    // `int()` raised on the component, priority or port
    | Parsed(fields: Fields)

  /** The tokenizer and field extraction of `_add_candidate`. */
  function ParseCandidateLine(line: string): LineParse {
    var parts := Split(line);
    if !(|parts| >= 8 && StartsWith(parts[0], CandidatePrefix)) then Unexpected
    else
      var component := ParseInt(parts[1]);
      var priority := ParseInt(parts[3]);
      var port := ParseInt(parts[5]);
      if component.None? || priority.None? || port.None? then NotAnInteger
      else Parsed(Fields(RemoveAll(parts[0], CandidatePrefix), component.value, parts[2],
                         priority.value, parts[4], port.value, parts[7]))
  }

  /** Fields that a candidate line can carry. */
  predicate Printable(f: Fields) {
    && (forall i :: 0 <= i < |f.foundation| ==> !IsSpace(f.foundation[i]))
    && !Occurs(f.foundation, CandidatePrefix)
    && Token(f.protocol) && Token(f.ip) && Token(f.candidateType)
  }

  /** A candidate line with these fields, any word in the `typ` position and
      any further words (`generation 0`, ...). */
  function FormatCandidate(f: Fields, typWord: string, extras: seq<string>): string {
    Join([CandidatePrefix + f.foundation, ShowInt(f.component), f.protocol, ShowInt(f.priority),
          f.ip, ShowInt(f.port), typWord, f.candidateType] + extras)
  }

  /** Parsing a formatted candidate line gives its fields back, whatever the
      seventh word and the words after the eighth. */
  lemma ParseFormatted(f: Fields, typWord: string, extras: seq<string>)
    requires Printable(f) && Token(typWord)
    requires forall i :: 0 <= i < |extras| ==> Token(extras[i])
    ensures ParseCandidateLine(FormatCandidate(f, typWord, extras)) == Parsed(f)
  {
    var first := CandidatePrefix + f.foundation;
    var ts := [first, ShowInt(f.component), f.protocol, ShowInt(f.priority),
               f.ip, ShowInt(f.port), typWord, f.candidateType] + extras;
    assert Token(first) by {
      forall i | 0 <= i < |first| ensures !IsSpace(first[i]) {
        if i >= |CandidatePrefix| {
          assert first[i] == f.foundation[i - |CandidatePrefix|];
        }
      }
    }
    forall i | 0 <= i < |ts| ensures Token(ts[i]) {
    }
    SplitJoin(ts);
    assert first[..|CandidatePrefix|] == CandidatePrefix;
    assert first[|CandidatePrefix|..] == f.foundation;
    RemoveAbsent(f.foundation, CandidatePrefix);
    ParseShowInt(f.component);
    ParseShowInt(f.priority);
    ParseShowInt(f.port);
  }

  /** Python's `replace` drops every "candidate:", not only the leading one. */
  lemma RepeatedPrefixDropped(rest: string)
    requires !Occurs(rest, CandidatePrefix)
    ensures RemoveAll(CandidatePrefix + CandidatePrefix + rest, CandidatePrefix) == rest
  {
    var s := CandidatePrefix + CandidatePrefix + rest;
    assert s[..|CandidatePrefix|] == CandidatePrefix;
    assert s[|CandidatePrefix|..] == CandidatePrefix + rest;
    assert (CandidatePrefix + rest)[..|CandidatePrefix|] == CandidatePrefix;
    assert (CandidatePrefix + rest)[|CandidatePrefix|..] == rest;
    RemoveAbsent(rest, CandidatePrefix);
  }

  /** An ICE candidate as it is added to a peer connection. */
  datatype Candidate = Candidate(fields: Fields, sdpMid: Value, sdpMLineIndex: Value)

  datatype CandidateOutcome =
    | AddCandidate(candidate: Candidate)
    | UnexpectedFormat          // logged as an unexpected format
    | CandidateError            // an exception, caught and logged

  /** What `_add_candidate` does with the message for one matching
      connection: a missing or non-string `candidate`, a non-integer field and
      a missing `sdpMid` or `sdpMLineIndex` all raise. */
  function CandidateFrom(data: Dict): (r: CandidateOutcome)
    ensures r.AddCandidate? ==>
              && "candidate" in data && data["candidate"].VStr?
              && ParseCandidateLine(data["candidate"].s) == Parsed(r.candidate.fields)
              && "sdpMid" in data && "sdpMLineIndex" in data
              && r.candidate.sdpMid == data["sdpMid"] && r.candidate.sdpMLineIndex == data["sdpMLineIndex"]
    ensures r == UnexpectedFormat <==>
              "candidate" in data && data["candidate"].VStr? && ParseCandidateLine(data["candidate"].s) == Unexpected
  {
    if "candidate" !in data || !data["candidate"].VStr? then CandidateError
    else
      match ParseCandidateLine(data["candidate"].s)
      case Unexpected => UnexpectedFormat
      case NotAnInteger => CandidateError
      case Parsed(f) =>
        if "sdpMid" !in data || "sdpMLineIndex" !in data then CandidateError
        else AddCandidate(Candidate(f, data["sdpMid"], data["sdpMLineIndex"]))
  }

  // ---------------------------------------------------------------------
  // The per-frame dispatch of the returned video track

  predicate IsMode(m: string) {
    m == "gesture" || m == "motion"
  }

  datatype Route = GestureRoute | MotionRoute | PassThrough | MissingAttribute

  /** The dispatch as written: the gesture branch reads the attribute
      `available`, which the gesture detector does not define, so in gesture
      mode the lookup raises `AttributeError`. */
  function RouteAsWritten(mode: string): Route {
    if mode == "gesture" then MissingAttribute
    else if mode == "motion" then MotionRoute
    else PassThrough
  }

  /** The dispatch with the detector's availability given as `available`. */
  function RouteFor(mode: string, available: bool): (r: Route)
    ensures r != MissingAttribute
  {
    if mode == "gesture" && available then GestureRoute
    else if mode == "motion" then MotionRoute
    else PassThrough
  }

  /** As written, every frame in gesture mode, the server's initial mode,
      raises; other modes are unaffected. */
  lemma GestureRouteRaisesAsWritten(mode: string)
    ensures RouteAsWritten("gesture") == MissingAttribute
    ensures mode != "gesture" ==> RouteAsWritten(mode) == RouteFor(mode, true)
  {
  }

  /** With availability known, the gesture detector runs exactly in gesture
      mode when it is available, the motion detector exactly in motion mode,
      and everything else passes the frame through. */
  lemma RouteMeaning(mode: string, available: bool)
    ensures RouteFor(mode, available) == GestureRoute <==> mode == "gesture" && available
    ensures RouteFor(mode, available) == MotionRoute <==> mode == "motion"
    ensures RouteFor(mode, available) == PassThrough <==> !(mode == "motion" || (mode == "gesture" && available))
  {
  }

  /** An `av.VideoFrame`: the image and its timing. */
  datatype VideoFrame = VideoFrame(image: Frame, pts: int, timeBase: real)

  /** The first eight characters of an id, as the log lines print it. */
  function ShortId(sid: string): (r: string)
    ensures |r| == Min(8, |sid|) && r == sid[..|r|]
  {
    sid[..Min(8, |sid|)]
  }

  /** The frame sent while no video has arrived: a black 640x480 image with
      two captions, at time 0 with a time base of 1/30. */
  function WaitingFrame(sid: string): (v: VideoFrame)
    ensures v.image.height == 480 && v.image.width == 640 && v.image.channels == 3
    ensures v.image.pixels == Black && v.pts == 0
  {
    VideoFrame(Frame(480, 640, 3, Black, false,
                     [Caption("Waiting for video...", Point(50, 240)),
                      Caption("Client: " + ShortId(sid), Point(50, 280))]),
               0, 1.0 / 30.0)
  }

  /** Events as a Socket.IO payload. */
  function EventsPayload(es: seq<Event>): Value {
    VList(seq(|es|, i requires 0 <= i < |es| => VDict(es[i])))
  }

  /** One Socket.IO message: its name, payload and room (None broadcasts). */
  datatype Emit = Emit(name: string, payload: Value, room: Option<string>)

  /** The `detection_results` message for a frame's events: sent only when
      there are some. */
  function DetectionMessages(es: seq<Event>, sid: string): (r: seq<Emit>)
    ensures r == [] <==> es == []
  {
    if es == [] then [] else [Emit("detection_results", EventsPayload(es), Some(sid))]
  }

  datatype RecvOutcome = Sent(frame: VideoFrame) | RecvRaised

  // ---------------------------------------------------------------------
  // Server state

  /** A peer connection; `sid` is the attribute set when it is created. */
  class Peer {
    const sid: Option<string>
    var candidates: seq<Candidate>

    constructor (sid: Option<string>)
      ensures this.sid == sid && candidates == []
    {
      this.sid := sid;
      candidates := [];
    }
  }

  /** The `VideoTransformTrack` of one client: frames received so far and
      the newest one. */
  class Track {
    const sid: string
    var frameCount: nat
    var lastFrame: Option<VideoFrame>

    constructor (sid: string)
      ensures this.sid == sid && frameCount == 0 && lastFrame == None
    {
      this.sid := sid;
      frameCount := 0;
      lastFrame := None;
    }
  }

  /** What one monitor tick reports for a client. */
  datatype TickLine = NoFramesWarning(sid: string) | FramesReceived(shortId: string, count: int)

  function TickLineFor(sid: string, count: int): TickLine {
    if count == 0 then NoFramesWarning(sid) else FramesReceived(ShortId(sid), count)
  }

  function TickLines(counts: map<string, int>): (r: map<string, TickLine>)
    ensures r.Keys == counts.Keys
    ensures forall sid :: sid in counts ==> r[sid] == TickLineFor(sid, counts[sid])
  {
    map sid | sid in counts :: TickLineFor(sid, counts[sid])
  }

  datatype Tick = NoActiveClients | Checked(lines: map<string, TickLine>)

  /** An HTTP reply: a status and a JSON body, or a handler that raised. */
  datatype HttpReply = Json(status: nat, body: Dict) | InternalError

  class SignalingServer {
    /** The global `current_mode`. */
    var currentMode: string
    /** `frame_counts`: frames received per client. */
    var frameCounts: map<string, int>
    /** `pcs`: the live peer connections. */
    var pcs: set<Peer>
    /** The Socket.IO messages sent so far. */
    var outbox: seq<Emit>
    const gestureDetector: GestureDetector
    const motionDetector: MotionDetector

    /** The mode is always one the whitelist admits. */
    ghost predicate Valid()
      reads this
    {
      IsMode(currentMode)
    }

    constructor ()
      ensures Valid() && currentMode == "gesture"
      ensures frameCounts == map[] && pcs == {} && outbox == []
      ensures fresh(gestureDetector) && gestureDetector.State() == Tracker(None, Origin)
      ensures !gestureDetector.drawSkeleton
      ensures fresh(motionDetector) && motionDetector.avg == null
    {
      currentMode := "gesture";
      frameCounts := map[];
      pcs := {};
      outbox := [];
      gestureDetector := new GestureDetector(false);
      motionDetector := new MotionDetector.Default();
    }

    /** The HTTP `set_mode`: the mode of the JSON body, when it is "gesture"
        or "motion", becomes the current mode and is broadcast; anything else
        is answered with 400 and changes nothing. A body that is not an
        object makes the handler raise. */
    method SetModeHttp(body: Value) returns (reply: HttpReply)
      requires Valid()
      modifies this
      ensures Valid()
      ensures frameCounts == old(frameCounts) && pcs == old(pcs)
      ensures !body.VDict? ==> reply == InternalError && currentMode == old(currentMode) && outbox == old(outbox)
      ensures body.VDict? ==>
                var m := Get(body.entries, "mode", VNone);
                && (m.VStr? && IsMode(m.s) ==>
                      && currentMode == m.s
                      && outbox == old(outbox) + [Emit("mode_changed", VDict(map["mode" := m]), None)]
                      && reply == Json(200, map["ok" := VBool(true), "mode" := m]))
                && (!(m.VStr? && IsMode(m.s)) ==>
                      && currentMode == old(currentMode) && outbox == old(outbox)
                      && reply == Json(400, map["ok" := VBool(false), "error" := VStr("Invalid mode")]))
    {
      if !body.VDict? {
        return InternalError;
      }
      var m := Get(body.entries, "mode", VNone);
      if m.VStr? && IsMode(m.s) {
        currentMode := m.s;
        outbox := outbox + [Emit("mode_changed", VDict(map["mode" := m]), None)];
        return Json(200, map["ok" := VBool(true), "mode" := m]);
      }
      reply := Json(400, map["ok" := VBool(false), "error" := VStr("Invalid mode")]);
    }

    /** The socket `mode_change` handler: the same whitelist, the change is
        announced to the sender only, and an invalid mode is ignored without
        a reply. */
    method HandleModeChange(sid: string, data: Value)
      requires Valid()
      modifies this
      ensures Valid()
      ensures frameCounts == old(frameCounts) && pcs == old(pcs)
      ensures var m := if data.VDict? then Get(data.entries, "mode", VNone) else VNone;
        && (m.VStr? && IsMode(m.s) ==>
              currentMode == m.s &&
              outbox == old(outbox) + [Emit("mode_changed", VDict(map["mode" := m]), Some(sid))])
        && (!(m.VStr? && IsMode(m.s)) ==> currentMode == old(currentMode) && outbox == old(outbox))
    {
      if !data.VDict? {
        return;
      }
      var m := Get(data.entries, "mode", VNone);
      if m.VStr? && IsMode(m.s) {
        currentMode := m.s;
        outbox := outbox + [Emit("mode_changed", VDict(map["mode" := m]), Some(sid))];
      }
    }

    /** `handle_offer`'s bookkeeping: a new connection tagged with the
        client's id joins `pcs`. */
    method AddPeer(sid: string) returns (p: Peer)
      modifies this
      ensures fresh(p) && p.sid == Some(sid) && p.candidates == []
      ensures pcs == old(pcs) + {p}
      ensures currentMode == old(currentMode) && frameCounts == old(frameCounts) && outbox == old(outbox)
    {
      p := new Peer(Some(sid));
      pcs := pcs + {p};
    }

    /** `VideoTransformTrack(track, sid)`: the client's count starts at 0. */
    method StartTrack(sid: string) returns (t: Track)
      modifies this
      ensures fresh(t) && t.sid == sid && t.frameCount == 0 && t.lastFrame == None
      ensures frameCounts == old(frameCounts)[sid := 0]
      ensures currentMode == old(currentMode) && pcs == old(pcs) && outbox == old(outbox)
    {
      t := new Track(sid);
      frameCounts := frameCounts[sid := 0];
    }

    /** One iteration of the frame reader: the frame is kept as the newest,
        and the client's count is the track's count. */
    method FrameArrived(t: Track, v: VideoFrame)
      modifies this, t
      ensures t.frameCount == old(t.frameCount) + 1 && t.lastFrame == Some(v)
      ensures frameCounts == old(frameCounts)[t.sid := t.frameCount]
      ensures currentMode == old(currentMode) && pcs == old(pcs) && outbox == old(outbox)
    {
      t.frameCount := t.frameCount + 1;
      t.lastFrame := Some(v);
      frameCounts := frameCounts[t.sid := t.frameCount];
    }

    /** `handle_disconnect`: the client's count and every connection tagged
        with its id are dropped; other entries stay. */
    method HandleDisconnect(sid: string)
      modifies this
      ensures frameCounts == old(frameCounts) - {sid}
      ensures pcs == set p | p in old(pcs) && p.sid != Some(sid)
      ensures currentMode == old(currentMode) && outbox == old(outbox)
    {
      if sid in frameCounts {
        frameCounts := frameCounts - {sid};
      }
      var todo := pcs;
      while todo != {}
        invariant todo <= old(pcs)
        invariant pcs == set p | p in old(pcs) && (p in todo || p.sid != Some(sid))
        invariant frameCounts == old(frameCounts) - {sid}
        invariant currentMode == old(currentMode) && outbox == old(outbox)
        decreases |todo|
      {
        var p :| p in todo;
        if p.sid == Some(sid) {
          pcs := pcs - {p};
        }
        todo := todo - {p};
      }
    }

    /** One check of `monitor_frame_counts`: every client is reported, then
        the counts are cleared. */
    method MonitorTick() returns (report: Tick)
      modifies this
      ensures frameCounts == map[]
      ensures old(frameCounts) == map[] ==> report == NoActiveClients
      ensures old(frameCounts) != map[] ==> report == Checked(TickLines(old(frameCounts)))
      ensures currentMode == old(currentMode) && pcs == old(pcs) && outbox == old(outbox)
    {
      if frameCounts == map[] {
        return NoActiveClients;
      }
      var lines: map<string, TickLine> := map[];
      var todo := frameCounts.Keys;
      while todo != {}
        invariant todo <= frameCounts.Keys
        invariant lines.Keys == frameCounts.Keys - todo
        invariant forall sid :: sid in lines ==> lines[sid] == TickLineFor(sid, frameCounts[sid])
        decreases |todo|
      {
        var sid :| sid in todo;
        lines := lines[sid := TickLineFor(sid, frameCounts[sid])];
        todo := todo - {sid};
      }
      assert lines == TickLines(frameCounts);
      report := Checked(lines);
      frameCounts := map[];
    }

    /** `_add_candidate` for client `sid`: every connection tagged with the
        id gets the candidate when the message converts; nothing is added
        otherwise. */
    method HandleIceCandidate(sid: string, data: Dict) returns (outcome: Option<CandidateOutcome>)
      modifies pcs
      ensures outcome.Some? <==> exists p :: p in pcs && p.sid == Some(sid)
      ensures outcome.Some? ==> outcome.value == CandidateFrom(data)
      ensures forall p :: p in pcs ==>
                p.candidates == old(p.candidates) +
                  (if p.sid == Some(sid) && CandidateFrom(data).AddCandidate?
                   then [CandidateFrom(data).candidate] else [])
    {
      var result := CandidateFrom(data);
      outcome := None;
      var todo := pcs;
      while todo != {}
        invariant todo <= pcs
        invariant outcome.Some? <==> exists p :: p in pcs - todo && p.sid == Some(sid)
        invariant outcome.Some? ==> outcome.value == result
        invariant forall p :: p in todo ==> p.candidates == old(p.candidates)
        invariant forall p :: p in pcs - todo ==>
                    p.candidates == old(p.candidates) +
                      (if p.sid == Some(sid) && result.AddCandidate? then [result.candidate] else [])
        decreases |todo|
      {
        var p :| p in todo;
        if p.sid == Some(sid) {
          outcome := Some(result);
          if result.AddCandidate? {
            p.candidates := p.candidates + [result.candidate];
          }
        }
        todo := todo - {p};
      }
    }

    /** `recv()` on a client's track. Without a frame yet, the waiting frame;
        otherwise the newest frame goes through the detector `RouteFor`
        picks (the motion detector gets the grayscale frame and contours, the
        gesture detector the hands), keeps its timing, and the detector's
        events are sent to the client when there are any. A motion detector
        that raises makes `recv` raise. */
    method Recv(t: Track, available: bool, hands: seq<Hand>, gray: Gray, contours: seq<Contour>,
                timestamp: string) returns (r: RecvOutcome)
      requires Valid()
      modifies this, gestureDetector, motionDetector, motionDetector.avg
      ensures Valid()
      ensures currentMode == old(currentMode) && frameCounts == old(frameCounts) && pcs == old(pcs)
      ensures t.lastFrame.None? ==>
                && r == Sent(WaitingFrame(t.sid)) && outbox == old(outbox)
                && unchanged(gestureDetector, motionDetector)
      ensures t.lastFrame.Some? && RouteFor(currentMode, available) == PassThrough ==>
                && r == Sent(t.lastFrame.value) && outbox == old(outbox)
                && unchanged(gestureDetector, motionDetector)
      ensures t.lastFrame.Some? && RouteFor(currentMode, available) == GestureRoute ==>
                var v := t.lastFrame.value;
                var res := FrameStep(old(gestureDetector.State()), gestureDetector.drawSkeleton, v.image, hands, timestamp);
                && gestureDetector.State() == res.tracker
                && r == Sent(VideoFrame(res.out, v.pts, v.timeBase))
                && outbox == old(outbox) + DetectionMessages(res.events, t.sid)
                && unchanged(motionDetector)
      ensures t.lastFrame.Some? && RouteFor(currentMode, available) == MotionRoute ==>
                var v := t.lastFrame.value;
                && unchanged(gestureDetector)
                && (old(motionDetector.avg) == null ==>
                      && motionDetector.avg != null && fresh(motionDetector.avg)
                      && motionDetector.avg[..] == gray.px
                      && r == Sent(v) && outbox == old(outbox))
                && (old(motionDetector.avg) != null && !old(motionDetector.Fits(gray)) ==>
                      r == RecvRaised && outbox == old(outbox))
                && (old(motionDetector.avg) != null && old(motionDetector.Fits(gray)) ==>
                      var es := MotionEvents(contours, motionDetector.minArea, timestamp);
                      && motionDetector.avg == old(motionDetector.avg) && motionDetector.avg != null
                      && motionDetector.avg[..] == Ema(old(motionDetector.avg[..]), gray.px, motionDetector.weight)
                      && r == Sent(VideoFrame(Draw(v.image, BoxMarks(Qualifying(contours, motionDetector.minArea))),
                                              v.pts, v.timeBase))
                      && outbox == old(outbox) + DetectionMessages(es, t.sid))
    {
      if t.lastFrame.None? {
        return Sent(WaitingFrame(t.sid));
      }
      var v := t.lastFrame.value;
      var img := v.image;
      var route := RouteFor(currentMode, available);
      if route == GestureRoute {
        var out, events := gestureDetector.Process(img, hands, timestamp);
        outbox := outbox + DetectionMessages(events, t.sid);
        img := out;
      } else if route == MotionRoute {
        var m := motionDetector.Process(img, gray, contours, timestamp);
        if m.None? {
          return RecvRaised;
        }
        outbox := outbox + DetectionMessages(m.value.events, t.sid);
        img := m.value.annotated;
      }
      r := Sent(VideoFrame(img, v.pts, v.timeBase));
    }
  }
}
