/** The frame-processing state machine of `IntelligentCamera`: camera
    start/stop with warm-up, the self-healing read path, the per-frame
    detection-to-alert pipeline, the siren flags and the event-log throttle.

    The camera device, the audio mixer and the database are outside the model;
    what the class does to them is recorded in three ghost logs (`device`,
    `mixer`, `sink`). Everything the outside world decides (whether a device
    index opens, whether the device delivers a frame, what the detectors report,
    the clock, whether the siren file exists) is a parameter. */
module Camera {
  import opened Labels
  import opened Throttle
  import opened Detection

  /** Throwaway reads after a successful open. */
  const WarmUpReads: nat := 10

  /** `self.cap`: no capture object, or one that opened, that did not open, or
      that has been released. */
  datatype Handle = NoHandle | Opened(index: nat) | Unopened | Released

  /** A call on the capture device. */
  datatype DeviceOp = Open(index: nat) | Read | Release

  /** A call on the audio mixer: load the siren and play it looped, or stop. */
  datatype MixerCall = PlayLooped | StopAudio

  /** What `get_frame` returns, less the pixels: the standby screen, the
      reloading screen, or a camera frame with its status banner. */
  datatype FrameResult = Standby | Reloading | Rendered(statusText: string, color: Bgr)

  function Reads(n: nat): seq<DeviceOp> {
    seq(n, _ => Read)
  }

  /** The devices `start_camera` tries: index 0, then index 1 if 0 did not open. */
  function OpenAttempts(opens0: bool): seq<DeviceOp> {
    [Open(0)] + (if opens0 then [] else [Open(1)])
  }

  function HandleAfterStart(opens0: bool, opens1: bool): Handle {
    if opens0 then Opened(0) else if opens1 then Opened(1) else Unopened
  }

  /** The mixer is started and stopped in turn, starting with a start. */
  ghost predicate Alternates(m: seq<MixerCall>) {
    (m != [] ==> m[0] == PlayLooped) && forall i :: 0 < i < |m| ==> m[i] != m[i - 1]
  }

  /** The siren is sounding after the mixer calls `m`. */
  ghost predicate Sounding(m: seq<MixerCall>) {
    m != [] && m[|m| - 1] == PlayLooped
  }

  /** The mixer effect of `play_siren`. */
  function PlayEffect(enabled: bool, active: bool, sirenFileExists: bool): seq<MixerCall> {
    if enabled && !active && sirenFileExists then [PlayLooped] else []
  }

  /** The mixer effect of `stop_siren`. */
  function StopEffect(active: bool): seq<MixerCall> {
    if active then [StopAudio] else []
  }

  /** The log after the weapon block and then the pose block of one frame holds
      the forwarded part of the frame's submissions, which is at most one entry. */
  lemma FrameLog(log0: seq<LogEntry>, last: real, w: seq<string>, pose: Option<Pose>, now: real,
                 log1: seq<LogEntry>, log2: seq<LogEntry>)
    requires log1 == log0 + Forwarded(last, Stamp(WeaponSubmissions(w), now))
    requires log2 == log1 + Forwarded(LastEmit(last, Stamp(WeaponSubmissions(w), now)),
                                      Stamp(PoseSubmissions(PrimaryAlert(w, pose)), now))
    ensures log2 == log0 + Forwarded(last, Stamp(FrameSubmissions(w, pose), now))
    ensures LastEmit(LastEmit(last, Stamp(WeaponSubmissions(w), now)),
                     Stamp(PoseSubmissions(PrimaryAlert(w, pose)), now))
            == LastEmit(last, Stamp(FrameSubmissions(w, pose), now))
    ensures |log2| <= |log0| + 1
  {
    var a := PrimaryAlert(w, pose);
    StampAppend(WeaponSubmissions(w), PoseSubmissions(a), now);
    LogAfterTwoRuns(log0, last, Stamp(WeaponSubmissions(w), now), Stamp(PoseSubmissions(a), now), log1, log2);
    OneEventPerFrame(last, now, FrameSubmissions(w, pose));
  }

  class IntelligentCamera {
    var cap: Handle
    var isRunning: bool
    var sirenEnabled: bool
    var sirenActive: bool
    var lastLogTime: real
    /** Whether the weapon model file existed when the camera was created. */
    const modelLoaded: bool

    ghost var device: seq<DeviceOp>
    ghost var mixer: seq<MixerCall>
    /** The events handed to the database session, oldest first. */
    ghost var sink: seq<LogEntry>

    /** The object invariant: a capture object exists exactly while running; the
        logged events are spaced by more than the cooldown and the throttle
        remembers the newest; the siren flag says whether the mixer is playing. */
    ghost predicate Valid()
      reads this
    {
      HandleValid() && ThrottleValid() && SirenValid()
    }

    ghost predicate HandleValid()
      reads this`isRunning, this`cap
    {
      !isRunning <==> cap == NoHandle
    }

    ghost predicate ThrottleValid()
      reads this`lastLogTime, this`sink
    {
      Spaced(0.0, sink) && lastLogTime == LastTime(0.0, sink)
    }

    ghost predicate SirenValid()
      reads this`sirenActive, this`mixer
    {
      Alternates(mixer) && (sirenActive <==> Sounding(mixer))
    }

    constructor (modelFileExists: bool)
      ensures Valid()
      ensures cap == NoHandle && !isRunning && sirenEnabled && !sirenActive && lastLogTime == 0.0
      ensures modelLoaded == modelFileExists
      ensures device == [] && mixer == [] && sink == []
    {
      cap := NoHandle;
      isRunning := false;
      sirenEnabled := true;
      sirenActive := false;
      modelLoaded := modelFileExists;
      lastLogTime := 0.0;
      device, mixer, sink := [], [], [];
    }

    /** Opens device 0, falling back to device 1, and warms an opened device up.
        Does nothing while running; marks the camera running even when neither
        device opened. */
    method StartCamera(opens0: bool, opens1: bool)
      requires Valid()
      modifies this`cap, this`isRunning, this`device
      ensures Valid() && isRunning
      ensures old(isRunning) ==> cap == old(cap) && device == old(device)
      ensures !old(isRunning) ==>
        cap == HandleAfterStart(opens0, opens1)
        && device == old(device) + OpenAttempts(opens0)
                     + (if opens0 || opens1 then Reads(WarmUpReads) else [])
    {
      if !isRunning {
        cap := if opens0 then Opened(0) else Unopened;
        device := device + [Open(0)];
        if !cap.Opened? {
          cap := if opens1 then Opened(1) else Unopened;
          device := device + [Open(1)];
        }
        if cap.Opened? {
          ghost var afterOpen := device;
          for i := 0 to WarmUpReads
            invariant device == afterOpen + Reads(i)
          {
            device := device + [Read];
          }
        }
        isRunning := true;
      }
    }

    /** Shuts the camera down and silences the siren. */
    method StopCamera()
      requires Valid()
      modifies this`cap, this`isRunning, this`device, this`sirenActive, this`mixer
      ensures Valid() && !isRunning && cap == NoHandle && !sirenActive
      ensures device == old(device) + (if old(cap) != NoHandle then [Release] else [])
      ensures mixer == old(mixer) + StopEffect(old(sirenActive))
      ensures old(!isRunning && cap == NoHandle && !sirenActive) ==> unchanged(this)
    {
      ghost var wasStopped := !isRunning && cap == NoHandle && !sirenActive;
      isRunning := false;
      if cap != NoHandle {
        device := device + [Release];
        cap := NoHandle;
      }
      StopSiren();
      assert wasStopped ==> mixer == old(mixer);
    }

    method StopSiren()
      requires SirenValid()
      modifies this`sirenActive, this`mixer
      ensures SirenValid() && !sirenActive
      ensures mixer == old(mixer) + StopEffect(old(sirenActive))
    {
      if sirenActive {
        mixer := mixer + [StopAudio];
        sirenActive := false;
      }
    }

    method PlaySiren(sirenFileExists: bool)
      requires SirenValid()
      modifies this`sirenActive, this`mixer
      ensures SirenValid()
      ensures sirenActive == (old(sirenActive) || (sirenEnabled && sirenFileExists))
      ensures mixer == old(mixer) + PlayEffect(sirenEnabled, old(sirenActive), sirenFileExists)
    {
      if sirenEnabled && !sirenActive {
        if sirenFileExists {
          mixer := mixer + [PlayLooped];
          sirenActive := true;
        }
      }
    }

    /** The operator's alarm toggle. It only gates future activation: a siren
        that is playing keeps playing. */
    method SetSirenEnabled(enabled: bool)
      requires Valid()
      modifies this`sirenEnabled
      ensures Valid() && sirenEnabled == enabled
      ensures sirenActive == old(sirenActive) && mixer == old(mixer)
    {
      sirenEnabled := enabled;
    }

    /** Hands the event to the database unless one was handed over within the
        cooldown. The timestamp moves whether or not the commit succeeds. */
    method LogDb(eventType: string, details: string, severity: Severity, now: real)
      requires ThrottleValid()
      modifies this`lastLogTime, this`sink
      ensures ThrottleValid()
      ensures Admits(old(lastLogTime), now) ==>
        lastLogTime == now && sink == old(sink) + [LogEntry(eventType, details, severity, now)]
      ensures !Admits(old(lastLogTime), now) ==> lastLogTime == old(lastLogTime) && sink == old(sink)
    {
      if now - lastLogTime > Cooldown {
        SpacedSnoc(0.0, sink, LogEntry(eventType, details, severity, now));
        lastLogTime := now;
        sink := sink + [LogEntry(eventType, details, severity, now)];
      }
    }

    /** The weapon-detection block: visits every box of every result, and logs
        and reports each weapon box. */
    method ScanWeapons(results: seq<seq<string>>, now: real)
      returns (threat: bool, text: string, color: Bgr)
      requires ThrottleValid()
      modifies this`lastLogTime, this`sink
      ensures ThrottleValid()
      ensures StatusState(WeaponLabels(Flatten(results)), None, threat, text, color)
      ensures sink == old(sink) + Forwarded(old(lastLogTime), WeaponCandidates(Flatten(results), now))
      ensures lastLogTime == LastEmit(old(lastLogTime), WeaponCandidates(Flatten(results), now))
    {
      threat, text, color := false, StatusText(Secure), StatusColor(Secure);
      ghost var sink0, last0 := sink, lastLogTime;
      for r := 0 to |results|
        invariant ThrottleValid()
        invariant StatusState(WeaponLabels(Flatten(results[..r])), None, threat, text, color)
        invariant sink == sink0 + Forwarded(last0, WeaponCandidates(Flatten(results[..r]), now))
        invariant lastLogTime == LastEmit(last0, WeaponCandidates(Flatten(results[..r]), now))
      {
        ghost var f0, f1 := Flatten(results[..r]), Flatten(results[..r + 1]);
        ghost var c0, c1 := WeaponCandidates(f0, now), WeaponCandidates(results[r], now);
        ghost var sink1 := sink;
        threat, text, color := ScanBoxes(results[r], now, threat, text, color);
        FlattenStep(results, r);
        WeaponScanAppend(f0, results[r], now);
        LogAfterTwoRuns(sink0, last0, c0, c1, sink1, sink);
        if WeaponLabels(results[r]) == [] {
          assert WeaponLabels(f1) == WeaponLabels(f0);
        } else {
          assert PrimaryAlert(WeaponLabels(f1), None) == PrimaryAlert(WeaponLabels(results[r]), None);
        }
      }
      assert results[..|results|] == results;
    }

    /** The inner loop of the weapon-detection block, over the boxes of one
        result: each weapon box overwrites the status and is offered to the log. */
    method ScanBoxes(boxes: seq<string>, now: real, threat0: bool, text0: string, color0: Bgr)
      returns (threat: bool, text: string, color: Bgr)
      requires ThrottleValid()
      modifies this`lastLogTime, this`sink
      ensures ThrottleValid()
      ensures WeaponLabels(boxes) == [] ==> threat == threat0 && text == text0 && color == color0
      ensures WeaponLabels(boxes) != [] ==> StatusState(WeaponLabels(boxes), None, threat, text, color)
      ensures sink == old(sink) + Forwarded(old(lastLogTime), WeaponCandidates(boxes, now))
      ensures lastLogTime == LastEmit(old(lastLogTime), WeaponCandidates(boxes, now))
    {
      threat, text, color := threat0, text0, color0;
      ghost var sink0, last0 := sink, lastLogTime;
      for b := 0 to |boxes|
        invariant ThrottleValid()
        invariant WeaponLabels(boxes[..b]) == [] ==> threat == threat0 && text == text0 && color == color0
        invariant WeaponLabels(boxes[..b]) != [] ==> StatusState(WeaponLabels(boxes[..b]), None, threat, text, color)
        invariant sink == sink0 + Forwarded(last0, WeaponCandidates(boxes[..b], now))
        invariant lastLogTime == LastEmit(last0, WeaponCandidates(boxes[..b], now))
      {
        BoxStep(boxes, b, now);
        ghost var cands := WeaponCandidates(boxes[..b], now);
        var name := Lower(boxes[b]);
        if HasKeyword(name) {
          if name !in ["person", "face"] {
            threat := true;
            text := StatusText(Weapon(name));
            color := StatusColor(Weapon(name));
            ghost var sinkBefore, lastBefore := sink, lastLogTime;
            LogDb("WEAPON DETECTED", "Obj: " + name, Critical, now);
            LogAfterOne(sink0, last0, cands, LogEntry("WEAPON DETECTED", "Obj: " + name, Critical, now),
                        sinkBefore, lastBefore, sink, lastLogTime);
          }
        }
      }
      assert boxes[..|boxes|] == boxes;
    }

    /** The pose-detection block: with landmarks present, the fall test and
        then the hands-raised test, each reported and logged only when no weapon
        was found. */
    method ScanPose(ghost weapons: seq<string>, pose: Option<Pose>, now: real,
                    threat0: bool, text0: string, color0: Bgr)
      returns (threat: bool, text: string, color: Bgr)
      requires ThrottleValid()
      requires StatusState(weapons, None, threat0, text0, color0)
      modifies this`lastLogTime, this`sink
      ensures ThrottleValid()
      ensures StatusState(weapons, pose, threat, text, color)
      ensures sink == old(sink) + Forwarded(old(lastLogTime),
                                    Stamp(PoseSubmissions(PrimaryAlert(weapons, pose)), now))
      ensures lastLogTime == LastEmit(old(lastLogTime),
                                    Stamp(PoseSubmissions(PrimaryAlert(weapons, pose)), now))
    {
      threat, text, color := threat0, text0, color0;
      if pose.Some? {
        var p := pose.value;
        if Abs(p.noseY - p.hipY) < 0.2 {
          if !threat {
            threat, text, color := true, StatusText(Fall), StatusColor(Fall);
            LogDb("FALL DETECTED", "Person Down", High, now);
          }
        } else if p.leftWristY < p.leftEyeY {
          if !threat {
            threat, text, color := true, StatusText(HandsRaised), StatusColor(HandsRaised);
            LogDb("SUSPICIOUS", "Hands Up", Medium, now);
          }
        }
      }
    }

    /** The two detection blocks of a frame, weapons first and then pose, with
        the status they leave behind and the events they log. */
    method Detect(results: seq<seq<string>>, pose: Option<Pose>, now: real)
      returns (threat: bool, text: string, color: Bgr)
      requires ThrottleValid()
      modifies this`lastLogTime, this`sink
      ensures ThrottleValid()
      ensures StatusState(Weapons(modelLoaded, results), pose, threat, text, color)
      ensures
        var cands := Stamp(FrameSubmissions(Weapons(modelLoaded, results), pose), now);
        sink == old(sink) + Forwarded(old(lastLogTime), cands)
        && lastLogTime == LastEmit(old(lastLogTime), cands)
      ensures |sink| <= |old(sink)| + 1
    {
      ghost var w := Weapons(modelLoaded, results);
      threat, text, color := false, StatusText(Secure), StatusColor(Secure);
      if modelLoaded {
        threat, text, color := ScanWeapons(results, now);
      }
      ghost var sink1 := sink;
      threat, text, color := ScanPose(w, pose, now, threat, text, color);
      FrameLog(old(sink), old(lastLogTime), w, pose, now, sink1, sink);
    }

    /** A frame the camera delivered: weapon detection, pose detection, then the
        siren follows whether a threat was found. */
    method ProcessFrame(results: seq<seq<string>>, pose: Option<Pose>, now: real,
                        sirenFileExists: bool)
      returns (out: FrameResult)
      requires Valid()
      modifies this`sirenActive, this`mixer, this`lastLogTime, this`sink
      ensures Valid()
      ensures
        var w := Weapons(modelLoaded, results);
        var a := PrimaryAlert(w, pose);
        var cands := Stamp(FrameSubmissions(w, pose), now);
        out == Rendered(StatusText(a), StatusColor(a))
        && sink == old(sink) + Forwarded(old(lastLogTime), cands)
        && lastLogTime == LastEmit(old(lastLogTime), cands)
        && (a == Secure ==> !sirenActive && mixer == old(mixer) + StopEffect(old(sirenActive)))
        && (a != Secure ==>
              sirenActive == (old(sirenActive) || (sirenEnabled && sirenFileExists))
              && mixer == old(mixer) + PlayEffect(sirenEnabled, old(sirenActive), sirenFileExists))
      ensures |sink| <= |old(sink)| + 1
    {
      var threat, text, color := Detect(results, pose, now);
      ghost var a := PrimaryAlert(Weapons(modelLoaded, results), pose);
      assert threat == (a != Secure) && text == StatusText(a) && color == StatusColor(a);
      assert sirenActive == old(sirenActive) && mixer == old(mixer);

      if threat {
        PlaySiren(sirenFileExists);
      } else {
        StopSiren();
      }
      out := Rendered(text, color);
    }

    /** One pull of the frame stream. */
    method GetFrame(frameDelivered: bool, reopens0: bool, reopens1: bool,
                    results: seq<seq<string>>, pose: Option<Pose>, now: real,
                    sirenFileExists: bool)
      returns (out: FrameResult)
      requires Valid()
      modifies this`cap, this`isRunning, this`device, this`sirenActive, this`mixer,
               this`lastLogTime, this`sink
      ensures Valid()
      // Standby: nothing is read, detected, sounded or logged.
      ensures old(!isRunning || cap == NoHandle) ==> out == Standby && unchanged(this)
      // A failed read: the handle is released and the restart is a no-op.
      ensures old(isRunning && cap != NoHandle && !(cap.Opened? && frameDelivered)) ==>
        out == Reloading && isRunning && cap == Released
        && device == old(device) + [Read, Release]
        && sirenActive == old(sirenActive) && mixer == old(mixer)
        && sink == old(sink) && lastLogTime == old(lastLogTime)
      // A rendered frame.
      ensures old(isRunning && cap.Opened? && frameDelivered) ==>
        var w := Weapons(modelLoaded, results);
        var a := PrimaryAlert(w, pose);
        var cands := Stamp(FrameSubmissions(w, pose), now);
        out == Rendered(StatusText(a), StatusColor(a))
        && isRunning && cap == old(cap) && device == old(device) + [Read]
        && sink == old(sink) + Forwarded(old(lastLogTime), cands)
        && lastLogTime == LastEmit(old(lastLogTime), cands)
        && (a == Secure ==> !sirenActive && mixer == old(mixer) + StopEffect(old(sirenActive)))
        && (a != Secure ==>
              sirenActive == (old(sirenActive) || (sirenEnabled && sirenFileExists))
              && mixer == old(mixer) + PlayEffect(sirenEnabled, old(sirenActive), sirenFileExists))
      ensures |sink| <= |old(sink)| + 1
    {
      if !isRunning || cap == NoHandle {
        return Standby;
      }
      var success := cap.Opened? && frameDelivered;
      device := device + [Read];
      if !success {
        device := device + [Release];
        cap := Released;
        StartCamera(reopens0, reopens1);
        return Reloading;
      }
      out := ProcessFrame(results, pose, now, sirenFileExists);
    }
  }
}
