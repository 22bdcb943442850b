/** The camera owner: opens a capture with a platform-dependent backend and a
    fallback, proves it can deliver a real frame with a bounded warm-up, hands
    out reads, and releases it. The capture device is modelled as a script
    of the read results it will deliver; sleeps are left out. */
module Camera {
  import opened PyValues
  import opened Imaging

  /** The number of warm-up reads `open` allows. */
  const WarmUpReads: nat := 25

  /** The frame rate `open` requests. */
  const RequestedFps: real := 30.0

  datatype Backend = AVFoundation | DefaultBackend

  /** The capture properties `open` sets. */
  datatype Prop = FrameWidth | FrameHeight | Fps

  /** What `cap.read()` returns: a flag and, possibly, a frame. */
  datatype ReadResult = ReadResult(ok: bool, frame: Option<Frame>)

  /** The result of a read that failed, or of reading a closed device. */
  const NoRead: ReadResult := ReadResult(false, None)

  /** A read that delivered a real frame: ok, a frame, and `frame.size > 0`. */
  predicate ValidRead(r: ReadResult) {
    r.ok && r.frame.Some? && NonEmpty(r.frame.value)
  }

  /** The next result of a script, and the script after that read. */
  function Head(s: seq<ReadResult>): (r: ReadResult)
    ensures s == [] ==> r == NoRead
  {
    if s == [] then NoRead else s[0]
  }

  function Tail(s: seq<ReadResult>): (r: seq<ReadResult>)
    ensures |r| == if s == [] then 0 else |s| - 1
  {
    if s == [] then [] else s[1..]
  }

  /** The script left after `n` reads of an open device. */
  function Drop(s: seq<ReadResult>, n: nat): (r: seq<ReadResult>)
    ensures r == s[Min(n, |s|)..]
  {
    s[Min(n, |s|)..]
  }

  /** The outcome of the warm-up: whether a valid frame arrived within
      `tries` reads, and how many reads were made. */
  datatype WarmUpOutcome = WarmUpOutcome(found: bool, used: nat)

  function WarmUp(s: seq<ReadResult>, tries: nat): (w: WarmUpOutcome)
    ensures w.used <= tries
    ensures w.found ==> w.used > 0
    decreases tries
  {
    if tries == 0 then WarmUpOutcome(false, 0)
    else if ValidRead(Head(s)) then WarmUpOutcome(true, 1)
    else
      var rest := WarmUp(Tail(s), tries - 1);
      WarmUpOutcome(rest.found, rest.used + 1)
  }

  /** The warm-up succeeds exactly when one of the first `tries` scripted
      reads is valid; it stops right after the first valid one, and makes all
      `tries` reads when none is. */
  lemma {:induction false} WarmUpMeaning(s: seq<ReadResult>, tries: nat)
    ensures var w := WarmUp(s, tries);
      && (w.found <==> exists k :: 0 <= k < tries && k < |s| && ValidRead(s[k]))
      && (w.found ==> 1 <= w.used && w.used - 1 < |s| && ValidRead(s[w.used - 1]) &&
                      forall j :: 0 <= j < w.used - 1 ==> !ValidRead(s[j]))
      && (!w.found ==> w.used == tries)
    decreases tries
  {
    if tries > 0 && !ValidRead(Head(s)) {
      WarmUpMeaning(Tail(s), tries - 1);
      var w := WarmUp(s, tries);
      if s != [] {
        assert Tail(s) == s[1..];
        if exists k :: 0 <= k < tries && k < |s| && ValidRead(s[k]) {
          var k :| 0 <= k < tries && k < |s| && ValidRead(s[k]);
          assert k != 0;
          assert Tail(s)[k - 1] == s[k];
        }
        if w.found {
          forall j | 0 <= j < w.used - 1 ensures !ValidRead(s[j]) {
            if j > 0 {
              assert s[j] == Tail(s)[j - 1];
            }
          }
        }
      }
    }
  }

  /** An outcome counted after `k` earlier reads. */
  function Shifted(w: WarmUpOutcome, k: nat): (r: WarmUpOutcome)
    ensures r.found == w.found && r.used == w.used + k
  {
    WarmUpOutcome(w.found, w.used + k)
  }

  /** One read of the warm-up: a valid first read ends it, any other read
      leaves the rest of the warm-up to the rest of the script. */
  lemma WarmUpStep(s: seq<ReadResult>, tries: nat)
    requires tries > 0
    ensures ValidRead(Head(s)) ==> WarmUp(s, tries) == WarmUpOutcome(true, 1)
    ensures !ValidRead(Head(s)) ==> WarmUp(s, tries) == Shifted(WarmUp(Tail(s), tries - 1), 1)
  {
  }

  /** Reading once more drops one more result. */
  lemma DropTail(s: seq<ReadResult>, n: nat)
    ensures Drop(s, n + 1) == Tail(Drop(s, n))
  {
  }

  /** A capture handle as `cv2.VideoCapture(index, backend)` returns it:
      whether the device opened, and the reads it will deliver. */
  class Capture {
    const backend: Backend
    const deviceOpened: bool
    var released: bool
    var script: seq<ReadResult>
    var settings: map<Prop, real>

    constructor (backend: Backend, deviceOpened: bool, script: seq<ReadResult>)
      ensures this.backend == backend && this.deviceOpened == deviceOpened && this.script == script
      ensures !released && settings == map[]
    {
      this.backend := backend;
      this.deviceOpened := deviceOpened;
      this.script := script;
      released := false;
      settings := map[];
    }

    /** `isOpened()`: opened and not yet released. */
    predicate IsOpened()
      reads this
    {
      deviceOpened && !released
    }

    /** `read()`: the next scripted result while open, a failed read
        otherwise. */
    method Read() returns (r: ReadResult)
      modifies this
      ensures old(IsOpened()) ==> r == Head(old(script)) && script == Tail(old(script))
      ensures !old(IsOpened()) ==> r == NoRead && script == old(script)
      ensures released == old(released) && settings == old(settings)
    {
      if !IsOpened() {
        return NoRead;
      }
      r := Head(script);
      script := Tail(script);
    }

    /** `set(prop, value)`: the property is recorded as requested. */
    method Set(prop: Prop, value: real)
      modifies this
      ensures settings == old(settings)[prop := value]
      ensures released == old(released) && script == old(script)
    {
      settings := settings[prop := value];
    }

    /** `release()`. */
    method Release()
      modifies this
      ensures released && !IsOpened()
      ensures script == old(script) && settings == old(settings)
    {
      released := true;
    }
  }

  /** Why a camera call raised. */
  datatype CameraError = CouldNotOpen(index: int) | CouldNotRead(index: int) | NotOpened

  datatype Outcome<T> = Ok(value: T) | Failed(error: CameraError)

  /** `_open_capture`'s choice: AVFoundation first on macOS, the default
      backend otherwise or when AVFoundation did not open. */
  function ChosenCapture(darwin: bool, avf: Capture, dflt: Capture): Capture
    reads avf
  {
    if darwin && avf.IsOpened() then avf else dflt
  }

  class CameraManager {
    const index: int
    const width: int
    const height: int
    /** `_cap`: the capture in use, null while closed. */
    var cap: Capture?

    constructor (index: int, width: int, height: int)
      ensures this.index == index && this.width == width && this.height == height && cap == null
    {
      this.index, this.width, this.height := index, width, height;
      cap := null;
    }

    /** `_open_capture()`. `avf` and `dflt` are what `cv2.VideoCapture`
        returns for the AVFoundation and the default backend. */
    method OpenCapture(darwin: bool, avf: Capture, dflt: Capture) returns (c: Capture)
      requires avf != dflt
      modifies avf
      ensures c == old(ChosenCapture(darwin, avf, dflt))
      ensures darwin && !old(avf.IsOpened()) ==> avf.released
      ensures !(darwin && !old(avf.IsOpened())) ==> unchanged(avf)
      ensures avf.script == old(avf.script) && avf.settings == old(avf.settings)
    {
      if darwin {
        if avf.IsOpened() {
          return avf;
        }
        avf.Release();
        return dflt;
      }
      return dflt;
    }

    /** The warm-up loop: up to `tries` reads, stopping at the first valid
        one; `open` allows 25. */
    method WarmUpLoop(c: Capture, tries: nat) returns (valid: bool)
      requires c.IsOpened()
      modifies c
      ensures var w := WarmUp(old(c.script), tries);
        valid == w.found && c.script == Drop(old(c.script), w.used)
      ensures c.IsOpened() && c.settings == old(c.settings)
    {
      ghost var s0 := c.script;
      var last := NoRead;
      var i := 0;
      while i < tries
        invariant 0 <= i <= tries
        invariant c.IsOpened() && c.settings == old(c.settings)
        invariant c.script == Drop(s0, i)
        invariant WarmUp(s0, tries) == Shifted(WarmUp(c.script, tries - i), i)
        invariant !ValidRead(last)
      {
        ghost var before := c.script;
        last := c.Read();
        WarmUpStep(before, tries - i);
        DropTail(s0, i);
        if ValidRead(last) {
          return true;
        }
        i := i + 1;
      }
      valid := ValidRead(last);
    }

    /** `open()`. A manager that is already open is left as it is. Otherwise
        the chosen capture must open, gets the requested size and frame rate,
        and must deliver a valid frame within the warm-up, failing which it is
        released; only then is it kept. */
    method Open(darwin: bool, avf: Capture, dflt: Capture) returns (r: Outcome<()>)
      requires avf != dflt
      modifies this, avf, dflt
      ensures old(cap) != null ==> r == Ok(()) && cap == old(cap) && unchanged(avf, dflt)
      ensures var c := old(ChosenCapture(darwin, avf, dflt));
        old(cap) == null && !old(c.IsOpened()) ==> r == Failed(CouldNotOpen(index)) && cap == null
      ensures var c := old(ChosenCapture(darwin, avf, dflt));
        old(cap) == null && old(c.IsOpened()) ==>
          var w := WarmUp(old(c.script), WarmUpReads);
          && c.script == Drop(old(c.script), w.used)
          && c.settings == old(c.settings)[FrameWidth := width as real][FrameHeight := height as real][Fps := RequestedFps]
          && (w.found ==> r == Ok(()) && cap == c && c.IsOpened())
          && (!w.found ==> r == Failed(CouldNotRead(index)) && cap == null && c.released)
      // The capture not chosen: on macOS a failed AVFoundation capture is
      // released; otherwise it is left as it was, and so is the default one
      // when AVFoundation is used.
      ensures old(cap) == null && darwin && !old(avf.IsOpened()) ==>
                avf.released && avf.script == old(avf.script) && avf.settings == old(avf.settings)
      ensures old(cap) == null && !darwin ==> unchanged(avf)
      ensures old(cap) == null && old(ChosenCapture(darwin, avf, dflt)) == avf ==> unchanged(dflt)
      // A capture that did not open is not touched further.
      ensures var c := old(ChosenCapture(darwin, avf, dflt));
        old(cap) == null && !old(c.IsOpened()) ==> c.script == old(c.script) && c.settings == old(c.settings)
    {
      if cap != null {
        return Ok(());
      }
      var c := OpenCapture(darwin, avf, dflt);
      if !c.IsOpened() {
        return Failed(CouldNotOpen(index));
      }
      c.Set(FrameWidth, width as real);
      c.Set(FrameHeight, height as real);
      c.Set(Fps, RequestedFps);
      var valid := WarmUpLoop(c, WarmUpReads);
      if !valid {
        c.Release();
        return Failed(CouldNotRead(index));
      }
      cap := c;
      r := Ok(());
    }

    /** `read()`: an error while closed, otherwise the capture's own result,
        unchanged. */
    method Read() returns (r: Outcome<ReadResult>)
      modifies cap
      ensures cap == old(cap)
      ensures old(cap) == null ==> r == Failed(NotOpened)
      ensures old(cap) != null ==>
                && r == Ok(if old(cap.IsOpened()) then Head(old(cap.script)) else NoRead)
                && cap.script == (if old(cap.IsOpened()) then Tail(old(cap.script)) else old(cap.script))
                && cap.released == old(cap.released) && cap.settings == old(cap.settings)
    {
      if cap == null {
        return Failed(NotOpened);
      }
      var rr := cap.Read();
      r := Ok(rr);
    }

    /** `close()`: releases the capture if there is one; closing a closed
        manager does nothing. */
    method Close()
      modifies this, cap
      ensures cap == null
      ensures old(cap) != null ==>
                old(cap).released && old(cap).script == old(cap.script) && old(cap).settings == old(cap.settings)
    {
      if cap != null {
        cap.Release();
        cap := null;
      }
    }
  }
}
