/** What one rendered frame of `get_frame` decides from the detectors' outputs:
    which boxes count as weapons, how the pose landmarks are tested, which
    single alert is shown (Weapon > Fall > HandsRaised > Secure), its banner text
    and colour, and which events are submitted to the log throttle. */
module Detection {
  import opened Labels
  import opened Throttle

  datatype Option<T> = None | Some(value: T)

  /** The normalised vertical coordinates of the four pose landmarks read. */
  datatype Pose = Pose(noseY: real, hipY: real, leftWristY: real, leftEyeY: real)

  /** The primary status of a rendered frame. */
  datatype Alert = Secure | Weapon(name: string) | Fall | HandsRaised

  /** An OpenCV colour, in blue-green-red order. */
  datatype Bgr = Bgr(blue: int, green: int, red: int)

  /** An event offered to `log_db`, before the clock stamps it. */
  datatype Submission = Submission(eventType: string, details: string, severity: Severity)

  /** A lower-cased class name that makes its box a weapon. */
  predicate IsWeaponLabel(name: string) {
    HasKeyword(name) && name !in ["person", "face"]
  }

  /** The boxes of all detector results, in the order the nested loops visit them. */
  function Flatten(results: seq<seq<string>>): seq<string>
    decreases |results|
  {
    if results == [] then [] else Flatten(results[..|results| - 1]) + results[|results| - 1]
  }

  /** The lower-cased class names of the weapon boxes, in visiting order. */
  function WeaponLabels(names: seq<string>): seq<string>
    decreases |names|
  {
    if names == [] then []
    else
      var name := Lower(names[|names| - 1]);
      WeaponLabels(names[..|names| - 1]) + (if IsWeaponLabel(name) then [name] else [])
  }

  /** The weapon labels of a frame; none when no model file was loaded. */
  function Weapons(modelLoaded: bool, results: seq<seq<string>>): seq<string> {
    if modelLoaded then WeaponLabels(Flatten(results)) else []
  }

  function Abs(x: real): real {
    if x < 0.0 then -x else x
  }

  /** The fall heuristic: nose and hip nearly level. */
  predicate FallTest(p: Pose) {
    Abs(p.noseY - p.hipY) < 0.2
  }

  /** The hands-raised heuristic: left wrist above (numerically below) left eye. */
  predicate HandsTest(p: Pose) {
    p.leftWristY < p.leftEyeY
  }

  /** The detectors that fire on a frame, in priority order. The weapon detector
      reports the last weapon box; the pose detector reports a fall, or else
      raised hands. */
  function Firings(weapons: seq<string>, pose: Option<Pose>): seq<Alert> {
    (if weapons != [] then [Weapon(weapons[|weapons| - 1])] else [])
    + (if pose.Some? && FallTest(pose.value) then [Fall] else [])
    + (if pose.Some? && !FallTest(pose.value) && HandsTest(pose.value) then [HandsRaised] else [])
  }

  /** The first detector to fire wins; a frame on which none fires is secure. */
  function PrimaryAlert(weapons: seq<string>, pose: Option<Pose>): Alert {
    var f := Firings(weapons, pose);
    if f == [] then Secure else f[0]
  }

  function StatusText(a: Alert): string {
    match a
    case Secure => "SYSTEM SECURE"
    case Weapon(name) => "THREAT: " + Upper(name)
    case Fall => "FALL DETECTED"
    case HandsRaised => "HANDS RAISED"
  }

  function StatusColor(a: Alert): Bgr {
    match a
    case Secure => Bgr(0, 255, 0)
    case Weapon(_) => Bgr(0, 0, 255)
    case Fall => Bgr(0, 165, 255)
    case HandsRaised => Bgr(0, 255, 255)
  }

  function WeaponSubmission(name: string): Submission {
    Submission("WEAPON DETECTED", "Obj: " + name, Critical)
  }

  function FallSubmission(): Submission {
    Submission("FALL DETECTED", "Person Down", High)
  }

  function HandsSubmission(): Submission {
    Submission("SUSPICIOUS", "Hands Up", Medium)
  }

  function WeaponSubmissions(weapons: seq<string>): seq<Submission> {
    seq(|weapons|, i requires 0 <= i < |weapons| => WeaponSubmission(weapons[i]))
  }

  /** The pose detector submits an event only when it is the primary alert. */
  function PoseSubmissions(a: Alert): seq<Submission> {
    match a
    case Fall => [FallSubmission()]
    case HandsRaised => [HandsSubmission()]
    case _ => []
  }

  /** Everything a rendered frame offers to `log_db`, in call order. */
  function FrameSubmissions(weapons: seq<string>, pose: Option<Pose>): seq<Submission> {
    WeaponSubmissions(weapons) + PoseSubmissions(PrimaryAlert(weapons, pose))
  }

  /** Submissions made at clock reading `now`. */
  function Stamp(subs: seq<Submission>, now: real): seq<LogEntry> {
    seq(|subs|, i requires 0 <= i < |subs| => LogEntry(subs[i].eventType, subs[i].details, subs[i].severity, now))
  }

  /** The log candidates of the weapon boxes among `names`, at clock reading `now`. */
  function WeaponCandidates(names: seq<string>, now: real): seq<LogEntry> {
    Stamp(WeaponSubmissions(WeaponLabels(names)), now)
  }

  // ---- Facts the camera's loops rely on ----

  lemma FlattenStep(results: seq<seq<string>>, r: nat)
    requires r < |results|
    ensures Flatten(results[..r + 1]) == Flatten(results[..r]) + results[r]
  {
    assert results[..r + 1][..r] == results[..r];
  }

  lemma WeaponLabelsStep(names: seq<string>, name: string)
    ensures WeaponLabels(names + [name]) ==
      WeaponLabels(names) + (if IsWeaponLabel(Lower(name)) then [Lower(name)] else [])
  {
    assert (names + [name])[..|names|] == names;
  }

  /** Visiting box `b`: a weapon box adds its entry to the candidates and
      becomes the reported weapon; any other box changes nothing. */
  lemma BoxStep(boxes: seq<string>, b: nat, now: real)
    requires b < |boxes|
    ensures var name := Lower(boxes[b]);
      IsWeaponLabel(name) ==>
        WeaponCandidates(boxes[..b + 1], now) ==
          WeaponCandidates(boxes[..b], now) + [LogEntry("WEAPON DETECTED", "Obj: " + name, Critical, now)]
        && PrimaryAlert(WeaponLabels(boxes[..b + 1]), None) == Weapon(name)
    ensures !IsWeaponLabel(Lower(boxes[b])) ==> WeaponLabels(boxes[..b + 1]) == WeaponLabels(boxes[..b])
  {
    var name := Lower(boxes[b]);
    var w := WeaponLabels(boxes[..b]);
    assert boxes[..b + 1] == boxes[..b] + [boxes[b]];
    WeaponLabelsStep(boxes[..b], boxes[b]);
    if IsWeaponLabel(name) {
      WeaponSubmissionsStep(w, name);
      StampStep(WeaponSubmissions(w), WeaponSubmission(name), now);
    }
  }

  lemma StampStep(subs: seq<Submission>, s: Submission, now: real)
    ensures Stamp(subs + [s], now) == Stamp(subs, now) + [LogEntry(s.eventType, s.details, s.severity, now)]
  {
  }

  lemma WeaponSubmissionsStep(weapons: seq<string>, name: string)
    ensures WeaponSubmissions(weapons + [name]) == WeaponSubmissions(weapons) + [WeaponSubmission(name)]
  {
  }

  /** The locals `threat_detected`, `status_text` and `status_color` agree
      with the alert chosen for `weapons` and `pose`. */
  ghost predicate StatusState(weapons: seq<string>, pose: Option<Pose>, threat: bool, text: string, color: Bgr) {
    var a := PrimaryAlert(weapons, pose);
    threat == (a != Secure) && text == StatusText(a) && color == StatusColor(a)
  }

  lemma {:induction false} WeaponLabelsAppend(first: seq<string>, second: seq<string>)
    ensures WeaponLabels(first + second) == WeaponLabels(first) + WeaponLabels(second)
  {
    if second == [] {
      assert first + second == first;
    } else {
      var init := second[..|second| - 1];
      assert first + second == (first + init) + [second[|second| - 1]];
      assert second == init + [second[|second| - 1]];
      WeaponLabelsAppend(first, init);
      WeaponLabelsStep(first + init, second[|second| - 1]);
      WeaponLabelsStep(init, second[|second| - 1]);
    }
  }

  /** Scanning `first` and then `second`: the candidates concatenate, and the
      status is that of `second` unless `second` has no weapon box. */
  lemma WeaponScanAppend(first: seq<string>, second: seq<string>, now: real)
    ensures WeaponCandidates(first + second, now) == WeaponCandidates(first, now) + WeaponCandidates(second, now)
    ensures WeaponLabels(second) == [] ==> WeaponLabels(first + second) == WeaponLabels(first)
    ensures WeaponLabels(second) != [] ==>
      PrimaryAlert(WeaponLabels(first + second), None) == PrimaryAlert(WeaponLabels(second), None)
  {
    var w0, w1 := WeaponLabels(first), WeaponLabels(second);
    WeaponLabelsAppend(first, second);
    WeaponSubmissionsAppend(w0, w1);
    StampAppend(WeaponSubmissions(w0), WeaponSubmissions(w1), now);
  }

  lemma WeaponSubmissionsAppend(first: seq<string>, second: seq<string>)
    ensures WeaponSubmissions(first + second) == WeaponSubmissions(first) + WeaponSubmissions(second)
  {
  }

  lemma StampAppend(first: seq<Submission>, second: seq<Submission>, now: real)
    ensures Stamp(first + second, now) == Stamp(first, now) + Stamp(second, now)
  {
  }

  // ---- Properties of the specification ----

  /** A label is reported as a weapon exactly when some box has that lower-cased
      class name and it passes the keyword test and the person/face exclusion. */
  lemma {:induction false} WeaponLabelsIff(names: seq<string>, name: string)
    ensures name in WeaponLabels(names) <==>
      exists i :: 0 <= i < |names| && Lower(names[i]) == name && IsWeaponLabel(name)
  {
    if names != [] {
      var init := names[..|names| - 1];
      WeaponLabelsIff(init, name);
      if exists i :: 0 <= i < |init| && Lower(init[i]) == name && IsWeaponLabel(name) {
        var i :| 0 <= i < |init| && Lower(init[i]) == name && IsWeaponLabel(name);
        assert names[i] == init[i];
      }
      if exists i :: 0 <= i < |names| && Lower(names[i]) == name && IsWeaponLabel(name) {
        var i :| 0 <= i < |names| && Lower(names[i]) == name && IsWeaponLabel(name);
        if i < |init| {
          assert init[i] == names[i];
        }
      }
    }
  }

  /** The box with detector class name `className` counts as a weapon. */
  predicate WeaponBox(className: string) {
    IsWeaponLabel(Lower(className))
  }

  /** Box `i` is a weapon box and no later box is. */
  ghost predicate LastWeaponBox(names: seq<string>, i: int) {
    0 <= i < |names| && WeaponBox(names[i]) && forall j :: i < j < |names| ==> !WeaponBox(names[j])
  }

  /** No label is reported exactly when no box is a weapon box. */
  lemma {:induction false} NoWeaponLabels(names: seq<string>)
    ensures WeaponLabels(names) == [] <==> forall i :: 0 <= i < |names| ==> !WeaponBox(names[i])
  {
    if names != [] {
      var init := names[..|names| - 1];
      NoWeaponLabels(init);
      assert forall i :: 0 <= i < |init| ==> init[i] == names[i];
    }
  }

  /** The reported (banner) label is the class name of the last weapon box. */
  lemma {:induction false} LastWeaponLabel(names: seq<string>)
    requires WeaponLabels(names) != []
    ensures exists i :: (LastWeaponBox(names, i)
      && WeaponLabels(names)[|WeaponLabels(names)| - 1] == Lower(names[i]))
  {
    var n := |names| - 1;
    var init := names[..n];
    if WeaponBox(names[n]) {
      assert LastWeaponBox(names, n);
    } else {
      LastWeaponLabel(init);
      var i :| LastWeaponBox(init, i)
        && WeaponLabels(init)[|WeaponLabels(init)| - 1] == Lower(init[i]);
      assert names[i] == init[i];
      forall j | i < j < |names| ensures !WeaponBox(names[j]) {
        if j < n { assert names[j] == init[j]; }
      }
      assert LastWeaponBox(names, i);
    }
  }

  /** Without a loaded model no box is a weapon, whatever the detector returned. */
  lemma NoModelNoWeapons(results: seq<seq<string>>)
    ensures Weapons(false, results) == []
  {
  }

  /** The priority the banner follows, case by case. */
  lemma Priority(weapons: seq<string>, pose: Option<Pose>)
    ensures PrimaryAlert(weapons, pose).Weapon? <==> weapons != []
    ensures weapons != [] ==> PrimaryAlert(weapons, pose) == Weapon(weapons[|weapons| - 1])
    ensures PrimaryAlert(weapons, pose) == Fall <==>
      weapons == [] && pose.Some? && FallTest(pose.value)
    ensures PrimaryAlert(weapons, pose) == HandsRaised <==>
      weapons == [] && pose.Some? && !FallTest(pose.value) && HandsTest(pose.value)
    ensures PrimaryAlert(weapons, pose) == Secure <==>
      weapons == [] && (pose.None? || (!FallTest(pose.value) && !HandsTest(pose.value)))
  {
  }

  /** A weapon suppresses both pose alerts even when both pose tests hold; the
      pose then submits nothing. */
  lemma WeaponSuppressesPose(weapons: seq<string>, pose: Option<Pose>)
    requires weapons != []
    ensures PrimaryAlert(weapons, pose) != Fall && PrimaryAlert(weapons, pose) != HandsRaised
    ensures FrameSubmissions(weapons, pose) == WeaponSubmissions(weapons)
  {
  }

  /** The banner colour tells the alert kinds apart; only a secure frame is green. */
  lemma ColorIdentifiesKind(a: Alert, b: Alert)
    ensures StatusColor(a) == StatusColor(b) <==> (a.Weapon? && b.Weapon?) || a == b
    ensures StatusColor(a) == Bgr(0, 255, 0) <==> a == Secure
  {
  }

  /** Only a weapon alert's banner text begins "THREAT: ". */
  lemma ThreatTextOnlyForWeapons(a: Alert)
    ensures |StatusText(a)| >= 8 && StatusText(a)[..8] == "THREAT: " <==> a.Weapon?
  {
    match a
    case Weapon(name) => assert ("THREAT: " + Upper(name))[..8] == "THREAT: ";
    case _ => assert StatusText(a)[0] != 'T';
  }

  /** Each weapon box submits one critical event naming its label, after which
      at most one pose event follows. */
  lemma SubmissionsShape(weapons: seq<string>, pose: Option<Pose>)
    ensures |WeaponSubmissions(weapons)| == |weapons| <= |FrameSubmissions(weapons, pose)| <= |weapons| + 1
    ensures forall i :: 0 <= i < |weapons| ==>
      FrameSubmissions(weapons, pose)[i] == Submission("WEAPON DETECTED", "Obj: " + weapons[i], Critical)
  {
  }

  /** All of a frame's submissions share one clock reading, so at most one of
      them reaches the database: the first, when the cooldown has passed. */
  lemma OneEventPerFrame(last: real, now: real, subs: seq<Submission>)
    ensures Forwarded(last, Stamp(subs, now)) ==
      if subs != [] && Admits(last, now) then Stamp(subs, now)[..1] else []
  {
    SameInstant(last, now, Stamp(subs, now));
  }
}
