/** The action dispatcher: snapshots for some event types, an optional alert
    for others, and the metadata map reporting what was done. */
module Dispatch {
  import opened PyValues
  import opened Imaging

  /** What the alert function does when called: returns, or raises an
      exception whose text is `reason`. */
  datatype AlertReply = Delivered | Raised(reason: string)

  /** The alert capability: `send(message, image_path)`. */
  datatype Notifier = Notifier(send: (string, Option<string>) -> AlertReply)

  /** The dispatcher's configuration, fixed at construction: the snapshot
      directory, the alert function if one could be loaded, and Python's
      `str()` of a value (used to print the confidence). */
  datatype Actions = Actions(snapshotDir: string, alert: Option<Notifier>, render: Value -> string)

  /** A snapshot written by `cv2.imwrite`. */
  datatype Snapshot = Snapshot(path: string, frame: Frame)

  /** One call to the alert function. */
  datatype AlertCall = AlertCall(message: string, image: Option<string>)

  /** The result of `trigger`: the metadata it returns, plus the side effects
      it had. */
  datatype Dispatched = Dispatched(meta: Dict, saved: Option<Snapshot>, alerted: Option<AlertCall>)

  predicate IsSnapshotType(t: Value) {
    t == VStr("motion") || t == VStr("security_alert") || t == VStr("gesture")
  }

  predicate IsAlertType(t: Value) {
    t == VStr("motion") || t == VStr("security_alert")
  }

  /** `os.path.join(dir, name)` on POSIX with one component. */
  function PathJoin(dir: string, name: string): (r: string)
    ensures |name| > 0 && name[0] == '/' ==> r == name
    ensures (|name| == 0 || name[0] != '/') ==>
              (r == dir + name <==> dir == "" || dir[|dir| - 1] == '/')
    ensures (|name| == 0 || name[0] != '/') ==>
              (r == dir + "/" + name <==> dir != "" && dir[|dir| - 1] != '/')
    ensures r[|r| - |name|..] == name
  {
    if |name| > 0 && name[0] == '/' then name
    else if dir == "" || dir[|dir| - 1] == '/' then dir + name
    else dir + "/" + name
  }

  /** The file name `<type>_<stamp>.jpg`, `stamp` being the local time as
      `%Y%m%d_%H%M%S`. */
  function SnapshotName(eventType: string, stamp: string): string {
    eventType + "_" + stamp + ".jpg"
  }

  /** `maybe_snapshot`: a path exactly for the three snapshot types. */
  function MaybeSnapshot(a: Actions, event: Event, stamp: string): (r: Option<string>)
    ensures r.Some? <==> IsSnapshotType(Get(event, "type", VStr("")))
    ensures r.Some? ==>
              var name := SnapshotName(Get(event, "type", VStr("")).s, stamp);
              r.value == PathJoin(a.snapshotDir, name) && r.value[|r.value| - |name|..] == name
  {
    var t := Get(event, "type", VStr(""));
    if IsSnapshotType(t) then Some(PathJoin(a.snapshotDir, SnapshotName(t.s, stamp))) else None
  }

  /** The alert message: `"🚨 Event: <type> | conf=<confidence>"`. */
  function AlertMessage(a: Actions, event: Event): string {
    "\U{1F6A8} Event: " + a.render(Get(event, "type", VNone)) +
    " | conf=" + a.render(Get(event, "confidence", VNone))
  }

  /** `trigger(event, frame)`; `stamp` is the local clock as the snapshot
      name prints it. */
  function Trigger(a: Actions, event: Event, frame: Frame, stamp: string): (r: Dispatched)
    ensures r.meta.Keys <= {"snapshot", "discord"}
  {
    var path := MaybeSnapshot(a, event, stamp);
    var saved := if path.Some? then Some(Snapshot(path.value, frame)) else None;
    var meta0: Dict := if path.Some? && path.value != "" then map["snapshot" := VStr(path.value)] else map[];
    if a.alert.Some? && IsAlertType(Get(event, "type", VNone)) then
      var call := AlertCall(AlertMessage(a, event), path);
      var reply := a.alert.value.send(call.message, call.image);
      var status := if reply.Delivered? then "sent" else "failed: " + reply.reason;
      Dispatched(meta0["discord" := VStr(status)], saved, Some(call))
    else
      Dispatched(meta0, saved, None)
  }

  /** The snapshot rule: a snapshot is saved, with the given frame, and
      reported in the metadata, exactly when the event type is one of the
      three snapshot types. */
  lemma TriggerSnapshot(a: Actions, event: Event, frame: Frame, stamp: string)
    ensures var r := Trigger(a, event, frame, stamp);
      var t := Get(event, "type", VStr(""));
      && (r.saved.Some? <==> IsSnapshotType(t))
      && ("snapshot" in r.meta <==> IsSnapshotType(t))
      && (r.saved.Some? ==>
            && r.saved.value.frame == frame
            && r.meta["snapshot"] == VStr(r.saved.value.path)
            && r.saved.value.path == PathJoin(a.snapshotDir, SnapshotName(t.s, stamp)))
  {
    var path := MaybeSnapshot(a, event, stamp);
    if path.Some? {
      var t := Get(event, "type", VStr(""));
      var name := SnapshotName(t.s, stamp);
      assert |name| > 0;
      assert path.value[|path.value| - |name|..] == name;
      assert path.value != "";
    }
  }

  /** The alert rule: the alert function is called exactly when it is
      available and the type is motion or security_alert, with the message
      and the snapshot path; its outcome is recorded under "discord" and
      never propagated. */
  lemma TriggerAlert(a: Actions, event: Event, frame: Frame, stamp: string)
    ensures var r := Trigger(a, event, frame, stamp);
      var t := Get(event, "type", VNone);
      && (r.alerted.Some? <==> a.alert.Some? && IsAlertType(t))
      && ("discord" in r.meta <==> r.alerted.Some?)
      && (r.alerted.Some? ==>
            && r.alerted.value.message == AlertMessage(a, event)
            && r.saved.Some?
            && r.alerted.value.image == Some(r.saved.value.path)
            && var reply := a.alert.value.send(r.alerted.value.message, r.alerted.value.image);
               r.meta["discord"] == VStr(if reply.Delivered? then "sent" else "failed: " + reply.reason))
  {
    var t := Get(event, "type", VNone);
    if IsAlertType(t) {
      assert Get(event, "type", VStr("")) == t;
    }
  }

  /** Gesture events are photographed but never alerted on. */
  lemma TriggerGesture(a: Actions, event: Event, frame: Frame, stamp: string)
    requires Get(event, "type", VNone) == VStr("gesture")
    ensures var r := Trigger(a, event, frame, stamp);
      r.saved.Some? && r.alerted.None? && r.meta.Keys == {"snapshot"}
  {
    assert Get(event, "type", VStr("")) == VStr("gesture");
    TriggerSnapshot(a, event, frame, stamp);
  }

  /** An event of any other type, or with no type, yields no snapshot, no
      alert and an empty metadata map. */
  lemma TriggerOtherTypes(a: Actions, event: Event, frame: Frame, stamp: string)
    requires !IsSnapshotType(Get(event, "type", VStr("")))
    ensures Trigger(a, event, frame, stamp) == Dispatched(map[], None, None)
  {
    assert MaybeSnapshot(a, event, stamp) == None;
    assert !IsAlertType(Get(event, "type", VNone)) by {
      if "type" in event {
        assert Get(event, "type", VNone) == Get(event, "type", VStr(""));
      }
    }
  }
}
