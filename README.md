# IntelliSurveil camera core in Dafny

This project models the frame-processing state machine of the `IntelligentCamera` class in `camera.py`:

- starting the camera: open device 0, fall back to device 1, then ten warm-up reads;
- stopping the camera;
- the siren flags and the `play_siren` / `stop_siren` hysteresis;
- the 4.0-second event-log throttle of `log_db`;
- the three outcomes of `get_frame`: standby screen, reloading screen after a failed read, or a rendered frame with a status banner.

A rendered frame runs the weapon detector's boxes through the keyword allow-list. Then the pose landmarks go through the fall test and the hands-raised test. One alert is chosen, in the priority Weapon > Fall > HandsRaised > Secure. It sets the banner text and colour, starts or stops the siren, and offers events to the throttle.

The project has four modules:

- `Labels` (`labels.dfy`): ASCII case mapping, Python's substring test `k in label`, and the nine weapon keywords.
- `Throttle` (`throttle.dfy`): the cooldown guard as a pure fold over the candidate events. `Forwarded` is what reaches the database; `LastEmit` is the stored timestamp. Lemmas prove the spacing, burst and append properties.
- `Detection` (`detection.dfy`): the pure specification of one rendered frame. It covers which boxes are weapons (`WeaponLabels`), the pose tests, the chosen alert (`PrimaryAlert`), the banner text and colour, and the submitted events (`FrameSubmissions`).
- `Camera` (`camera.dfy`): the class `IntelligentCamera` with the source's mutable fields. Its methods keep the source's loops: the warm-up loop and the nested loops over results and boxes.

The class has three parts. Each method's `ensures` ties the new state to the specification functions.

- **Parameters.** The outside world is passed in: whether a device index opens, whether the device delivers a frame, the detector's class names, the pose landmarks, the clock reading and whether the siren file exists.
- **Ghost logs.** Three ghost logs record what the class does to the outside world:
  - `device`: open, read and release calls;
  - `mixer`: looped play and stop;
  - `sink`: events handed to the database session.
- **Object invariant.** `Valid()` holds three facts:
  - a capture object exists exactly while running;
  - the logged events are more than 4.0 apart, and `lastLogTime` is the newest one's time;
  - `sirenActive` says whether the mixer's last call was a looped play, and plays and stops alternate.

The model follows the code as written, including these less obvious behaviours:

- **The restart never happens.** After a failed read, the handle is released but not cleared, and `start_camera` is called while `is_running` is still true, so it does nothing (`camera.py:43`, `camera.py:105-106`). A released handle never reads again, so every later frame is the reloading screen until the camera is stopped. `GetFrame` states this.
- **A camera with no device still runs.** When neither device opens, `start_camera` still sets `is_running`. The frames that follow are reloading screens, not standby.
- **The throttle's comparison is strict.** An event passes only when more than 4.0 units have passed (`camera.py:81`). Exactly 4.0 is not enough.
- **The siren can sound while disabled.** Toggling `siren_enabled` off does not stop a siren that is already playing. So `sirenActive` does not imply `sirenEnabled`; the model's invariant leaves that out.

## Model

| member | source | states |
|---|---|---|
| Camera.IntelligentCamera.constructor | camera.py:12-39 | No handle, not running, siren enabled and silent, last log time 0, empty logs; the model is loaded exactly when its file exists |
| Camera.IntelligentCamera.StartCamera | camera.py:41-56 | Already running: handle and device unchanged. Otherwise: open 0, open 1 only if 0 failed, exactly ten warm-up reads only if a device opened, and running afterwards even if none opened |
| Camera.IntelligentCamera.StopCamera | camera.py:59-66 | Ends not running, with no handle and a silent siren. Releases the handle only if there was one, and stops the mixer only if the siren was sounding. On an already stopped camera it changes nothing, so calling it twice equals calling it once |
| Camera.IntelligentCamera.StopSiren | camera.py:68-71 | Siren off afterwards; the mixer is stopped exactly when the siren was sounding |
| Camera.IntelligentCamera.PlaySiren | camera.py:73-78 | The siren becomes active and one looped play is issued exactly when enabled, not yet active and the file exists; otherwise nothing changes |
| Camera.IntelligentCamera.SetSirenEnabled | app.py:110-112 | Only the enabled flag changes; a sounding siren keeps sounding |
| Camera.IntelligentCamera.LogDb | camera.py:80-88 | With more than 4.0 elapsed, appends the event and moves the timestamp to now; otherwise log and timestamp are unchanged. The spacing invariant is kept |
| Camera.IntelligentCamera.ScanWeapons | camera.py:119-139 | After the nested loops, the status is that of the last weapon box, or unchanged if there is none. The log holds the throttled weapon events of all boxes in visiting order |
| Camera.IntelligentCamera.ScanBoxes | camera.py:125-139 | The inner loop over one result's boxes: the status follows the last weapon box, and each weapon box offers one critical event to the throttle |
| Camera.IntelligentCamera.ScanPose | camera.py:141-163 | The fall test, else the hands test, each reported and logged only when no weapon was found; the status and log match the specification's chosen alert |
| Camera.IntelligentCamera.Detect | camera.py:115-163 | Both detection blocks: the status matches `PrimaryAlert` and the log gains the throttled frame submissions, at most one entry, because a frame's log_db calls share one clock reading |
| Camera.IntelligentCamera.ProcessFrame | camera.py:114-175 | A rendered frame shows the chosen alert's text and colour. With no threat the siren ends silent; with a threat `play_siren`'s effect happens once. The log gains at most one entry, because a frame's log_db calls share one clock reading |
| Camera.IntelligentCamera.GetFrame | camera.py:90-112 | Standby changes nothing. A failed read releases the handle, stays running, leaves siren and log alone and shows reloading. A delivered frame is processed as in `ProcessFrame`, adding at most one log entry because a frame's log_db calls share one clock reading |
| Camera.FrameLog | camera.py:136-163 | Logging the weapon events, then the pose event, equals throttling the frame's submissions as one run, and adds at most one entry, because a frame's log_db calls share one clock reading |
| Labels.ContainsIff | camera.py:130 | The recursive substring search holds exactly when some window of the label equals the keyword |
| Labels.UpperOfLower | camera.py:127-134 | Upper-casing the lower-cased label gives the label upper-cased |
| Labels.KeywordsAreLowerCase | camera.py:122-130 | Every allow-list keyword is already lower case, so testing the lower-cased label against the keywords is the same as testing it against the lower-cased keywords |
| Labels.PersonAndFaceHaveNoKeyword | camera.py:130-132 | Neither "person" nor "face" contains a keyword, so the exclusion after the keyword test never removes a box |
| Throttle.ForwardedAppend | camera.py:80-88 | Throttling two runs in turn, the second starting from the timestamp the first left, equals throttling their concatenation |
| Throttle.LogAfterTwoRuns | camera.py:80-88 | A log that received the forwarded part of one run and then of the next holds the forwarded part of both |
| Throttle.LogAfterOne | camera.py:80-88 | A log after one more guarded submission holds the forwarded part of the longer run |
| Throttle.ForwardedSpaced | camera.py:80-88 | For any candidates, consecutive forwarded events are more than 4.0 apart (the first measured from the starting timestamp), and the stored timestamp is the newest forwarded one |
| Throttle.ForwardedFromCandidates | camera.py:80-88 | The throttle only drops: it forwards no more than was offered, and only offered events |
| Throttle.SpacedAllForwarded | camera.py:80-88 | Candidates already more than 4.0 apart are all forwarded |
| Throttle.FirstAdmittedIsForwarded | camera.py:80-88 | A first candidate that passes the guard is the first event forwarded |
| Throttle.SameInstant | camera.py:80-88 | Candidates sharing one clock reading forward only the first, and exactly when that reading passes the guard |
| Throttle.WindowAtMostOne | camera.py:80-88 | Candidates within a 4.0-long window forward at most one event |
| Throttle.Burst | camera.py:80-88 | A burst within a 4.0-long window forwards at most one event, and exactly one when its first candidate passes the guard |
| Detection.WeaponLabelsIff | camera.py:124-132 | A label is reported exactly when some box's lower-cased class name equals it and passes the keyword test and the exclusion |
| Detection.NoWeaponLabels | camera.py:124-132 | No weapon is reported exactly when no box is a weapon box |
| Detection.LastWeaponLabel | camera.py:124-135 | The banner's label is the lower-cased class name of the last weapon box |
| Detection.BoxStep | camera.py:130-136 | Visiting a weapon box adds its critical event and makes it the reported weapon; any other box changes nothing |
| Detection.WeaponLabelsAppend | camera.py:124-125 | The weapon labels of two runs of boxes are those of each, concatenated |
| Detection.WeaponScanAppend | camera.py:124-136 | The weapon candidates of two runs concatenate, and the reported weapon is that of the second run if it has one |
| Detection.Priority | camera.py:152-163 | The alert is a weapon iff some box is one, and then the last. A fall iff no weapon and the fall test holds. Raised hands iff no weapon, no fall and the hands test holds. Secure otherwise |
| Detection.WeaponSuppressesPose | camera.py:153-163 | With a weapon, neither pose alert is chosen and the pose block submits nothing |
| Detection.ColorIdentifiesKind | camera.py:116-162 | Two alerts share a banner colour exactly when they are the same kind; only a secure frame is green |
| Detection.ThreatTextOnlyForWeapons | camera.py:116-161 | The banner reads "THREAT: ..." exactly for a weapon alert |
| Detection.SubmissionsShape | camera.py:136-163 | Each weapon box submits ("WEAPON DETECTED", "Obj: label", CRITICAL) in order, followed by at most one pose event |
| Detection.OneEventPerFrame | camera.py:81-163 | Because a frame's log_db calls share one clock reading, only the first of its submissions can reach the database, and only when the cooldown has passed |

## Left out

- **Drawing and encoding.** Pixel work, JPEG encoding and the `INTELLISURVEIL: ` banner prefix are left out (OpenCV's `putText`, `rectangle`, `flip`, `cvtColor`, `imencode`). A frame result carries only the status text and colour.
- **The box caption.** The box's caption with its confidence percentage and its rectangle are drawing only.
- **Detector internals.** YOLO inference, its 0.30 confidence threshold and `model.names` become a sequence of class names per result. MediaPipe pose estimation becomes an optional record of four landmark heights.
- **Audio.** pygame's mixer calls are recorded in the ghost `mixer` log. `os.path.exists` on the model and siren files is a boolean parameter.
- **The database.** `db.session.add` is the ghost `sink`. The commit and its swallowed exception cannot affect camera state, so the commit outcome is not modelled. `database.py` is not part of this model.
- **The web layer.** Routes, sessions, the lazily created global camera and the streaming generator are not part of this model. `app.py` appears only for the siren toggle.
- **Concurrency.** The code has none. Calls are modelled one at a time.
- **Numbers.** Time and landmark coordinates are exact `real` numbers, not floating point. The clock is read once per frame: `LogDb` takes `now`, and every `log_db` call in one frame shares that reading. The source reads `time.time()` twice in `log_db`; that is not modelled.
- **Case mapping.** `lower()` and `upper()` are modelled on ASCII letters only; other Unicode case mappings are not modelled.
- Camera.IntelligentCamera.Valid: has no 'siren active only if enabled' invariant; the code does not keep one, because a disabled siren keeps playing.
