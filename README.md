# Local recording and camera supervision, modelled in Dafny

This project models the recording and camera-supervision core of the
react-native WebRTC module's Android side:

- `LocalRecorder.kt`:
  - the disk-space warden `checkDiskSize`;
  - one recording segment (`LocalRecordSession`) and its supervisor `LocalRecorder`, which rolls segments over every five minutes;
  - one legacy-camera session (`AbstractCameraSession`) with its `create` protocol, profile-tier choice and frame orientation;
  - the camera supervisor `CameraHandler`, which re-opens the camera a minute after it fails or closes.
- `rewrite/CameraCapturer.java`: the capturer's open/retry/switch state machine.

Code that changes state in place is modelled as classes with `modifies`
clauses and a `Valid()` invariant. Pure computations (thresholds,
orientation, the tier loop's result, the sweep) are functions with lemmas.
Every Android call is an input:

- the volume statistics and directory listing;
- whether each delete succeeds;
- which `MediaRecorder` or `Camera` step throws, and whether the exception has a message;
- which qualities `CamcorderProfile.get` supports;
- the display rotation and the device names.

A job posted with `Handler.postDelayed` is a pending entry carrying the
version it captured. Firing it is an explicit operation (`Tick`).

| file | module | models |
|---|---|---|
| `common.dfy` | `Common` | optional values and the outcome of a platform call that may throw |
| `name_order.dfy` | `NameOrder` | the `String.compareTo` order used to sort file names |
| `disk_warden.dfy` | `DiskWarden` | `checkDiskSize`: threshold, candidates, sort, sweep |
| `record_session.dfy` | `RecordSession` | `LocalRecordSession` |
| `local_recorder.dfy` | `LocalRecording` | `LocalRecorder` and its segment jobs |
| `camera_session.dfy` | `CameraSession` | `AbstractCameraSession`: `create`, tiers, orientation, the session object |
| `camera_handler.dfy` | `CameraHandling` | `CameraHandler` and its re-create jobs |
| `camera_capturer.dfy` | `Capturer` | `CameraCapturer` |

## Behaviour worth knowing

- **Frame orientation.** `getFrameOrientation` subtracts the display rotation from 360 for a *back*-facing lens (`LocalRecorder.kt:588-590`). `FrameOrientation` follows this.
- **Recording sessions that fail early are not rebuilt by the segment jobs.** `shouldRecreate` is set only once preparation passes the recorder configuration (`LocalRecorder.kt:216`). A segment job keeps a held session whose `shouldRecreate` is unset and only re-posts itself (`LocalRecorder.kt:347-348`). So a session that failed before that point is kept by every later segment job, and recording does not restart until `startRecord` is called again. A recording session, by contrast, always has `shouldRecreate` set, so it is rolled over on every job. See `LocalRecording.LocalRecorder.Tick` and `RecordSession.LocalRecordSession.constructor`.
- **Camera-open failures are not always retried.** The camera handler retries only on `onFailure` or on the close of the session it holds. Four cases get neither:
  - An exception without a message in the configuration block (including the missing-profile `pro!!`) releases the camera but calls nothing (`Unreported`).
  - A message-less exception in the first two catch blocks makes `e.message!!` throw out of `create` (`Escaped`).
  - `Camera.getCameraInfo` (`LocalRecorder.kt:534`), `setDisplayOrientation(0)` and `setFrameRotation` (`:554-555`) run outside any `try`. A throw from any of them leaves `create` with the camera still open and nothing reported (`Escaped(false)`).
  - A preview failure inside the new session is not retried either. That session closes before the handler holds it, and the handler then holds the stopped session.

  See `CameraSession.Create` and `CameraHandling.CameraHandler.CreateSession`.
- **A throwing `Camera.lock` cuts `stopRecord` short.** `releaseMediaRecorder` drops the recorder before it takes the camera lock (`LocalRecorder.kt:131-132`). A throwing lock is caught there, and the release is reported as failed. `stopRecord` then calls `camera.lock()` again outside any `try` (`LocalRecorder.kt:116`). When that throws too, the exception leaves `stopRecord` with the session still marked recording and the camera unlocked. It then leaves `stopRecordPrivate` with the session still held, and leaves `createSession` before any new segment or job. A segment job that throws this way posts no next job, and its exception is not caught on the `Handler`'s thread. See `RecordSession.LocalRecordSession.StopRecord` and the `escaped` results of `LocalRecording.LocalRecorder`.
- **The recording camera is shared.** `createSession` hands the camera stored by `startRecord` to every new `LocalRecordSession` (`LocalRecorder.kt:322, 335`). Its lock is one piece of state, the `Camera` object in `RecordSession`. A session that fails after `unlock` and cannot release its recorder leaves the camera unlocked for the next session.
- `LocalRecorder.setNext` posts a job even when recording is off; that job then does nothing. The camera handler's `setNext` posts nothing when not running.

## Model

| member | source | states |
|---|---|---|
| `NameOrder.NameLeTotal` | android/src/main/java/com/oney/WebRTCModule/LocalRecorder.kt:267-269 | Any two file names are comparable under the `compareTo` order used to sort the listing. |
| `NameOrder.NameLeTransitive` | android/src/main/java/com/oney/WebRTCModule/LocalRecorder.kt:267-269 | The name order is transitive, so sorting by it is well defined. |
| `NameOrder.NameLeAntisymmetric` | android/src/main/java/com/oney/WebRTCModule/LocalRecorder.kt:267-269 | Two names ordered both ways are equal. |
| `DiskWarden.Threshold` | android/src/main/java/com/oney/WebRTCModule/LocalRecorder.kt:253-257 | The reserve is 1 GiB, raised by a tenth of the volume exactly when at most one external media directory exists (and the tenth is non-zero). Bounds: between 1 GiB and 1 GiB + total/10. |
| `DiskWarden.AfterLastDotIsSuffix` | android/src/main/java/com/oney/WebRTCModule/LocalRecorder.kt:275 | The text after the last dot (`File.extension`) is a dot-free suffix of the name, preceded by a dot. |
| `DiskWarden.ExtensionAfterLastDot` | android/src/main/java/com/oney/WebRTCModule/LocalRecorder.kt:275 | A name without a dot has an empty extension; otherwise its extension is the text after its last dot. |
| `DiskWarden.CandidateIsExtensionTest` | android/src/main/java/com/oney/WebRTCModule/LocalRecorder.kt:273-275 | The candidate test (a non-directory whose name ends in a dot and a case-insensitive `3gp` or `mp4`) holds exactly when the entry is not a directory and its `File.extension`, lower-cased, is `3gp` or `mp4`. |
| `DiskWarden.SegmentNamesAreCandidates` | android/src/main/java/com/oney/WebRTCModule/LocalRecorder.kt:87 | Every segment file the recorder names (`<stamp>.3gp`) has extension `3gp` and is a deletion candidate for the warden. |
| `DiskWarden.InsertByNamePermutation` | android/src/main/java/com/oney/WebRTCModule/LocalRecorder.kt:265-269 | Inserting adds exactly the inserted entry to the listing's entries. |
| `DiskWarden.InsertByNameSorted` | android/src/main/java/com/oney/WebRTCModule/LocalRecorder.kt:265-269 | Inserting into a sorted listing keeps it sorted by name. |
| `DiskWarden.SortByNameSortedPermutation` | android/src/main/java/com/oney/WebRTCModule/LocalRecorder.kt:265-269 | The sorted listing is in ascending name order and is a permutation of the listing. |
| `DiskWarden.DeletableAreCandidates` | android/src/main/java/com/oney/WebRTCModule/LocalRecorder.kt:272-278 | Every entry a full sweep could delete is an entry of the listing that passes the removal test (for the warden: a candidate whose delete succeeds). |
| `DiskWarden.CheckDiskSize` | android/src/main/java/com/oney/WebRTCModule/LocalRecorder.kt:247-298 | Returns exactly the outcome of the `Warden` specification: nothing when not writable or already above the threshold, a failure when the listing is missing, the sweep of the name-sorted listing otherwise. |
| `DiskWarden.DeleteUntilReserve` | android/src/main/java/com/oney/WebRTCModule/LocalRecorder.kt:270-289 | The loop (skip non-candidates and failed deletes, add each deleted length, stop right after the delete that reaches the threshold) deletes exactly the files of the `Sweep` specification, in order. |
| `DiskWarden.SweepIsPrefix` | android/src/main/java/com/oney/WebRTCModule/LocalRecorder.kt:271-289 | What the sweep deletes is a prefix of the deletable candidates in visiting order. |
| `DiskWarden.SweepStopsAtThreshold` | android/src/main/java/com/oney/WebRTCModule/LocalRecorder.kt:282-286 | When the sweep stops before the last deletable candidate, available plus reclaimed bytes reach the threshold. |
| `DiskWarden.SweepIsShortest` | android/src/main/java/com/oney/WebRTCModule/LocalRecorder.kt:271-289 | No shorter prefix of the deletable candidates reaches the threshold: the sweep stops at the first delete that does. |
| `DiskWarden.SweepIsShortestPrefix` | android/src/main/java/com/oney/WebRTCModule/LocalRecorder.kt:271-289 | The deleted files are the shortest prefix of the deletable candidates that reaches the threshold, or all of them. |
| `DiskWarden.SweepDeletesOnlyCandidates` | android/src/main/java/com/oney/WebRTCModule/LocalRecorder.kt:272-278 | Only entries of the listing that pass the removal test (for the warden: non-directory `3gp`/`mp4` files whose delete succeeded) are ever deleted. |
| `DiskWarden.DeletableSorted` | android/src/main/java/com/oney/WebRTCModule/LocalRecorder.kt:265-278 | Filtering a name-sorted listing down to the entries that pass the removal test keeps name order. |
| `DiskWarden.WardenPolicy` | android/src/main/java/com/oney/WebRTCModule/LocalRecorder.kt:247-298 | Files are deleted exactly when the directory is writable, available space is below the threshold and the listing exists. The deleted files are then the shortest qualifying prefix of the candidates, all taken from the listing, and deleted in ascending name order. |
| `RecordSession.LocalRecordSession.constructor` | android/src/main/java/com/oney/WebRTCModule/LocalRecorder.kt:90-103 | After construction the session records exactly when preparing and starting succeeded. `shouldRecreate` is set exactly when preparing got past configuration, and the file name exactly when `setOutputFile` ran. The recorder is handed back unless reset/release throw. The shared camera's lock is untouched if no recorder was created. After a failed `unlock`, the lock is taken if the release succeeds. Once `unlock` ran, the lock is held exactly when the session is not recording and reset, release and `Camera.lock` succeeded. `Valid` holds. |
| `RecordSession.LocalRecordSession.PrepareVideoRecorder` | android/src/main/java/com/oney/WebRTCModule/LocalRecorder.kt:149-229 | Steps run in order up to the first that throws. That step decides which of recorder, `shouldRecreate` and file name are set, and whether the camera was unlocked. A failure releases the recorder. The camera is locked again only if that release and its `Camera.lock` succeed; otherwise it keeps the state the steps left it in. |
| `RecordSession.LocalRecordSession.ReleaseMediaRecorder` | android/src/main/java/com/oney/WebRTCModule/LocalRecorder.kt:126-140 | Release reports success exactly when a recorder exists and reset, release and `Camera.lock` do not throw. The recorder is gone whenever reset/release succeeded, even if the lock then threw. The camera becomes locked on success and is otherwise left as it was. |
| `RecordSession.LocalRecordSession.StopRecord` | android/src/main/java/com/oney/WebRTCModule/LocalRecorder.kt:108-119 | Stopping a recording session requests one media-index refresh of its file. The call escapes exactly when it was recording and `Camera.lock` throws. On escape the session stays recording with the camera unlocked; otherwise it ends not recording with the camera locked. The recorder remains only if reset/release threw. Stopping a session that is not recording changes neither the session nor the camera. |
| `LocalRecording.LocalRecorder.constructor` | android/src/main/java/com/oney/WebRTCModule/LocalRecorder.kt:308-317 | A new recorder starts with recording on, version 0, no camera, no session and no pending job. |
| `LocalRecording.LocalRecorder.SetNext` | android/src/main/java/com/oney/WebRTCModule/LocalRecorder.kt:341-354 | Posting a segment job strictly increments the version and records the job with that version, which is then live. |
| `LocalRecording.LocalRecorder.StopHeldSession` | android/src/main/java/com/oney/WebRTCModule/LocalRecorder.kt:357-362 | The held session is stopped and dropped. A recording one gets its file refreshed and its camera's lock back; one that was not recording, and its camera, are left untouched. If its `stopRecord` throws, the session is kept, still recording, with the camera unlocked, and the call escapes. No camera other than the held session's can change, so with no held session nothing changes. The version and job list are unchanged. |
| `LocalRecording.LocalRecorder.CreateSession` | android/src/main/java/com/oney/WebRTCModule/LocalRecorder.kt:331-337 | The previous session is stopped first. If that stop throws, nothing else happens: same session, same version, same jobs. Otherwise, with `Record` on, a fresh session exists on the recorder's camera, recording iff preparing and starting succeed, and exactly one job with the new version is appended. With `Record` off, no session remains, no job is posted and the old session's camera is left closed. The recorder's camera is untouched unless the stopped session used it or a new segment starts on it. |
| `LocalRecording.LocalRecorder.StartRecord` | android/src/main/java/com/oney/WebRTCModule/LocalRecorder.kt:320-328 | The camera is stored and recording is turned on. Unless stopping the old session throws, that session is stopped. With `Record` on, a fresh session exists on the given camera, recording iff preparing and starting succeed. The version goes up by one, so every earlier job is stale and the one new job is live. With `Record` off, no session remains and no job is posted. The given camera is untouched unless the stopped session used it or a new segment starts on it. |
| `LocalRecording.LocalRecorder.Tick` | android/src/main/java/com/oney/WebRTCModule/LocalRecorder.kt:344-353 | A job acts iff recording is on and its version is current. Whatever happens, the job leaves the list. A stale job changes nothing else, not even the camera. A held session with `shouldRecreate` unset is kept untouched, with its camera, and one new live job is appended. Otherwise the segment is rolled over. If closing the old segment throws, the old session stays and no job is posted. Otherwise it is stopped: with `Record` on, a fresh session on the recorder's camera, recording iff preparing and starting succeed, and one live job follow; with `Record` off, no session remains and the version is unchanged. Without a new segment, the recorder's camera changes only if the stopped session used it. |
| `LocalRecording.LocalRecorder.TakeJob` | android/src/main/java/com/oney/WebRTCModule/LocalRecorder.kt:344-346 | The job that fires leaves the pending list, and no other job does. The version it captured is at most the current one. A camera has been supplied. |
| `LocalRecording.LocalRecorder.StopRecord` | android/src/main/java/com/oney/WebRTCModule/LocalRecorder.kt:365-370 | Recording ends off, and the version and job list are unchanged, so no pending job can act. The held session is stopped and dropped, with its camera's lock back if it was recording, unless its `stopRecord` throws. In that case it stays held, recording, with the camera unlocked. No camera other than the held session's can change. |
| `CameraSession.ReportOrEscape` | android/src/main/java/com/oney/WebRTCModule/LocalRecorder.kt:499-513 | The catch blocks that report `e.message!!`: a message means `onFailure`, none means the exception escapes `create`; the camera is released as the caller says. |
| `CameraSession.Rem360` | android/src/main/java/com/oney/WebRTCModule/LocalRecorder.kt:593 | Kotlin's truncating `% 360`: the result lies strictly between -360 and 360, is congruent to the input, and has the input's sign. |
| `CameraSession.DeviceOrientation` | android/src/main/java/com/oney/WebRTCModule/LocalRecorder.kt:596-605 | Rotation codes 0..3 map to 0/90/180/270 degrees; any other code maps to 0. |
| `CameraSession.FrameOrientation` | android/src/main/java/com/oney/WebRTCModule/LocalRecorder.kt:581-594 | A lock of 0..3 yields lock*90. Otherwise, for a non-negative mount angle, the result is in [0,360) and congruent mod 360 to mount + display degrees (front lens) or mount - display degrees (back lens). |
| `CameraSession.SelectProfile` | android/src/main/java/com/oney/WebRTCModule/LocalRecorder.kt:518-530 | The tier loop over `resolution..formats.size` returns the first tier's profile that the platform supports, as `FirstTierFrom` defines it. |
| `CameraSession.FirstTierIsFirstSupported` | android/src/main/java/com/oney/WebRTCModule/LocalRecorder.kt:518-530 | The chosen profile belongs to a supported tier at or after the setting, with every earlier tier in range unsupported. No profile is chosen exactly when every tier from there on is unsupported. |
| `CameraSession.Create` | android/src/main/java/com/oney/WebRTCModule/LocalRecorder.kt:487-575 | The session is handed over iff opening, texture, camera info, parameters, configuration and orientation succeed and a tier is supported. It then carries the first supported tier and the frame orientation. After opening, every caught failure releases the camera, and nothing is released before opening. Message-less failures escape in the first two catch blocks and go unreported in the third. A throw from the unguarded camera-info or orientation calls escapes with the camera still open. |
| `CameraSession.CameraSession.constructor` | android/src/main/java/com/oney/WebRTCModule/LocalRecorder.kt:412-455 | A started session is RUNNING with the recorder hook started. If the preview fails it is at once STOPPED and released once, with an error reported only if the exception had a message. |
| `CameraSession.CameraSession.StopInternal` | android/src/main/java/com/oney/WebRTCModule/LocalRecorder.kt:461-475 | Only the RUNNING to STOPPED transition stops the hook, releases the camera and announces the close, each exactly once; on a stopped session it is a no-op. |
| `CameraSession.CameraSession.Stop` | android/src/main/java/com/oney/WebRTCModule/LocalRecorder.kt:419-425 | Stopping is idempotent: the session ends STOPPED, and a close is announced only if it was running. |
| `CameraSession.CameraSession.OnCameraError` | android/src/main/java/com/oney/WebRTCModule/LocalRecorder.kt:431-444 | A camera fault stops the session, then reports eviction as a disconnect and any other code as an error with its message. |
| `CameraSession.ErrorMessage` | android/src/main/java/com/oney/WebRTCModule/LocalRecorder.kt:432-436 | The fault message is "Camera server died!" exactly for the server-died code. |
| `CameraHandling.CameraHandler.constructor` | android/src/main/java/com/oney/WebRTCModule/LocalRecorder.kt:717-724 | A new handler is not running, at version 0, with no session and no pending job. |
| `CameraHandling.CameraHandler.SetNext` | android/src/main/java/com/oney/WebRTCModule/LocalRecorder.kt:746-757 | While running, posting a re-create strictly increments the version and records a live job; when not running, nothing changes. |
| `CameraHandling.CameraHandler.StopHeldSession` | android/src/main/java/com/oney/WebRTCModule/LocalRecorder.kt:759-764 | The held session is stopped and dropped. Its close schedules a re-create exactly when it was running and the handler runs. |
| `CameraHandling.CameraHandler.CreateSession` | android/src/main/java/com/oney/WebRTCModule/LocalRecorder.kt:733-744 | Every job pending before the call becomes stale. The old session is stopped. `onDone` holds a fresh session, running iff the preview started. A live re-create is pending iff the handler runs and either the old session closed or opening failed with a report. |
| `CameraHandling.CameraHandler.Start` | android/src/main/java/com/oney/WebRTCModule/LocalRecorder.kt:726-731 | The handler runs and a session is opened at once; every earlier job becomes stale. The old session is stopped. After `onDone` a fresh session is held, running iff the preview started; otherwise none is. A live re-create is pending iff the old session was running or the open failed with a report. After an unreported or escaped first open, no job is live: the version moves on and the job list is unchanged. |
| `CameraHandling.CameraHandler.Tick` | android/src/main/java/com/oney/WebRTCModule/LocalRecorder.kt:750-756 | A job re-creates the session iff the handler runs and its version is current; a stale job changes only the job list. An acting job stops the old session and makes every job pending before it stale. After `onDone` it holds a fresh session, running iff the preview started; after a failure it holds none. A live re-create is pending iff the old session was running or opening failed with a report; otherwise only the version moves on. |
| `CameraHandling.CameraHandler.TakeJob` | android/src/main/java/com/oney/WebRTCModule/LocalRecorder.kt:750-753 | The job that fires leaves the pending list, and no other job does. The version it captured is at most the current one. |
| `CameraHandling.CameraHandler.CameraFault` | android/src/main/java/com/oney/WebRTCModule/LocalRecorder.kt:700-716 | A fault of the held session stops it. When it was running and the handler runs, the close schedules a live re-create; otherwise nothing is scheduled. |
| `CameraHandling.CameraHandler.Stop` | android/src/main/java/com/oney/WebRTCModule/LocalRecorder.kt:766-771 | The handler stops running with no session, the held one stopped, so no pending job acts. |
| `Capturer.ValidateCameraName` | android/src/main/java/com/oney/WebRTCModule/rewrite/CameraCapturer.java:212-218 | The constructor accepts exactly a listed camera name; with no devices the error is "no cameras". |
| `Capturer.IndexOf` | android/src/main/java/com/oney/WebRTCModule/rewrite/CameraCapturer.java:313 | `indexOf` gives the first position of the name, or -1 exactly when it is absent. |
| `Capturer.SwitchTarget` | android/src/main/java/com/oney/WebRTCModule/rewrite/CameraCapturer.java:309-315 | The next camera is listed. It follows the first occurrence of the current name, wrapping around; with the current name unlisted it is the first device; with distinct names it differs from the current camera. |
| `Capturer.SwitchErrorReport` | android/src/main/java/com/oney/WebRTCModule/rewrite/CameraCapturer.java:356-362 | A switch error reaches the switch handler exactly when there is one. |
| `Capturer.SwitchRefusal` | android/src/main/java/com/oney/WebRTCModule/rewrite/CameraCapturer.java:367-379 | A switch is refused unless the target is listed, no switch is under way and a session is opening or open. An unknown target is reported first, then a switch under way, then a capturer that is not running. |
| `Capturer.CameraCapturer.constructor` | android/src/main/java/com/oney/WebRTCModule/rewrite/CameraCapturer.java:185-219 | A constructed capturer is idle on the requested camera: not initialized, not opening, no session, no switch. |
| `Capturer.CameraCapturer.Initialize` | android/src/main/java/com/oney/WebRTCModule/rewrite/CameraCapturer.java:221-226 | Initialization enables capture and changes no session state. |
| `Capturer.CameraCapturer.StartCapture` | android/src/main/java/com/oney/WebRTCModule/rewrite/CameraCapturer.java:228-246 | Before `initialize` it throws. Opening starts only when no session is opening or open: the format is recorded, 3 attempts are set and an open is posted. Otherwise nothing changes. The camera, the switch state, its handler and target, notices and stop requests are never touched. `Valid` is kept. |
| `Capturer.CameraCapturer.SwitchCameraInternal` | android/src/main/java/com/oney/WebRTCModule/rewrite/CameraCapturer.java:364-407 | A refused switch changes nothing but the handler's error. While opening, the target becomes PENDING. Otherwise the current session is dropped and its stop posted; the target is adopted and opened with exactly 1 attempt (IN_PROGRESS). `Valid` is kept. |
| `Capturer.CameraCapturer.DeferSwitch` | android/src/main/java/com/oney/WebRTCModule/rewrite/CameraCapturer.java:381-386 | While a session opens, the switch becomes PENDING with its handler and target remembered; only those three fields change. |
| `Capturer.CameraCapturer.BeginSwitch` | android/src/main/java/com/oney/WebRTCModule/rewrite/CameraCapturer.java:388-400 | A switch from a current session becomes IN_PROGRESS: the session's stop is posted and it is dropped, the target is adopted and opened with one attempt. `Valid` is kept. |
| `Capturer.CameraCapturer.ReleaseCurrentSession` | android/src/main/java/com/oney/WebRTCModule/rewrite/CameraCapturer.java:274-283 | The statistics are released and the current session's stop is posted, the session dropped; nothing else changes. |
| `Capturer.CameraCapturer.StartOpening` | android/src/main/java/com/oney/WebRTCModule/rewrite/CameraCapturer.java:237-239 | Opening starts with the given attempt budget and an open job posted without delay; nothing else changes. |
| `Capturer.CameraCapturer.SwitchCamera` | android/src/main/java/com/oney/WebRTCModule/rewrite/CameraCapturer.java:305-319 | With fewer than two devices, only "No camera to switch to" is reported to the handler, and no switch field changes. Otherwise it has the full `switchCameraInternal` effect toward `SwitchTarget` of the current camera: a refusal is only reported; while opening, the target becomes PENDING; from a current session, the session is stopped and the target is opened with one attempt (IN_PROGRESS). |
| `Capturer.CameraCapturer.SwitchCameraTo` | android/src/main/java/com/oney/WebRTCModule/rewrite/CameraCapturer.java:321-328 | A switch to a named camera has the full `switchCameraInternal` effect. An unknown name, a switch already under way, or a capturer that is not running is only reported to the handler. While opening, the name becomes the PENDING target. From a current session, the session is stopped and the name is opened with one attempt. |
| `Capturer.CameraCapturer.OnDone` | android/src/main/java/com/oney/WebRTCModule/rewrite/CameraCapturer.java:35-60 | Opening ends with the new session current, no frame seen and no stop posted. IN_PROGRESS becomes IDLE and tells the handler. PENDING clears its target and re-enters the switch with it. A known target starts an IN_PROGRESS switch from the new session. An unknown target only reports the error, keeping the handler, the camera, the attempts and the stops. `Valid` is kept. |
| `Capturer.CameraCapturer.BecomeCurrent` | android/src/main/java/com/oney/WebRTCModule/rewrite/CameraCapturer.java:41-44 | The opening session becomes current, with statistics and no frame seen; nothing else changes. |
| `Capturer.CameraCapturer.CompleteSwitch` | android/src/main/java/com/oney/WebRTCModule/rewrite/CameraCapturer.java:46-51 | An IN_PROGRESS switch ends IDLE; its handler, if any, is told the facing of the new camera and dropped. |
| `Capturer.CameraCapturer.AbandonSwitch` | android/src/main/java/com/oney/WebRTCModule/rewrite/CameraCapturer.java:71-78 | A switch under way ends IDLE; its handler, if any, is told the failure and dropped. |
| `Capturer.CameraCapturer.OnFailure` | android/src/main/java/com/oney/WebRTCModule/rewrite/CameraCapturer.java:62-92 | One attempt is used. With attempts left, the open is retried after 500 ms, and the switch and its handler are unchanged. Otherwise opening ends, and a switch under way becomes IDLE, its handler told and dropped. The failure is reported as a disconnect or an error. The current session, camera and stops never change. `Valid` is kept. |
| `Capturer.CameraCapturer.StopCapture` | android/src/main/java/com/oney/WebRTCModule/rewrite/CameraCapturer.java:257-290 | With no session opening, the capturer ends with no current session. A current session gets its stop posted and the observer is told; otherwise nothing changes. |
| `Capturer.CameraCapturer.ChangeCaptureFormat` | android/src/main/java/com/oney/WebRTCModule/rewrite/CameraCapturer.java:292-298 | The stop half posts the current session's stop and tells the observer, or changes nothing without a session. The start half then reopens with the new format, 3 attempts and an open posted, or throws before `initialize` with no session opening. The camera and the switch are untouched. |
| `Capturer.CameraCapturer.OnCameraOpeningEvent` | android/src/main/java/com/oney/WebRTCModule/rewrite/CameraCapturer.java:96-105 | An opening is announced only while no session is current. |
| `Capturer.CameraCapturer.OnCameraErrorEvent` | android/src/main/java/com/oney/WebRTCModule/rewrite/CameraCapturer.java:107-117 | Errors from a session other than the current one change nothing: no notice, no stop, same session and statistics. The current session's error is reported, then capture stops. |
| `Capturer.CameraCapturer.OnCameraDisconnectedEvent` | android/src/main/java/com/oney/WebRTCModule/rewrite/CameraCapturer.java:119-129 | Disconnects from other sessions change nothing: no notice, no stop, same session and statistics. The current session's disconnect is reported, then capture stops. |
| `Capturer.CameraCapturer.OnCameraClosedEvent` | android/src/main/java/com/oney/WebRTCModule/rewrite/CameraCapturer.java:131-140 | A close is announced when it comes from the current session or when no session is current. |
| `Capturer.CameraCapturer.OnFrameCapturedEvent` | android/src/main/java/com/oney/WebRTCModule/rewrite/CameraCapturer.java:142-157 | Only the current session's frames are delivered; the first one after an open is also announced. A frame from another session changes nothing, not even whether a first frame was seen. |

Module-level helpers without a row:
- `Extension`, `AfterLastDot`, `LowerChar`, `IsVideoExtension` and `IsCandidate` define `File.extension.toLowerCase()` and the candidate test.
- `InsertByName`, `SortByName` and `SortedByName` define the sort; the lemma `SortedCons` is a step of its proof.
- `Removable`, `Sweep`, `Deletable`, `Reclaimed` and `Warden` define the warden's result. `Sweep` and `Deletable` take the removal test as a parameter; the warden passes `Removable`. The lemmas `SweepStep` and `AppendAssociative` are steps of the loop's proof.
- `SwitchFailure` and `SwitchErrorMessage` name what a switch handler is told; `SwitchErrorMessage` gives the exact message string.
- `FirstTierFrom` and `UnsupportedBefore` define the tier loop's result.
- `CameraGivenBack`, `IntToString`, `NatToString`, `Digit`, `Distinct`, `StepIndex` and `Completed` are small helpers.
- The `Valid` and `LiveTick` predicates of each class.
- The functions `HeldCamera` and `Cameras` and the predicates `StopEscapes`, `Stopped`, `Closed` and `UntouchedUnlessHeld` of `LocalRecorder`, and `SwitchFieldsUnchanged` and `SwitchedInternally` of `CameraCapturer`, state the effects that several contracts share.

## Left out

- Android platform calls are inputs, not models. This covers `StatFs`, `File`, `MediaRecorder`, `Camera`, `CamcorderProfile`, `MediaScannerConnection`, `AudioManager` and `WindowManager`.
- Threading is not modelled: `synchronized` blocks, `stateLock.wait`/`notifyAll`, `checkIsOnCameraThread` and its "Wrong thread" exceptions. Operations are taken to run one at a time on the right thread.
- `stopCapture` waiting for an opening session, and its interrupted early return, are not modelled. `Capturer.CameraCapturer.StopCapture` requires that no session is opening.
- Capturer.CameraCapturer.ChangeCaptureFormat: inherits the `StopCapture` requirement that no session is opening. The source accepts a format change during an open, and its `stopCapture` waits for the open to finish (`CameraCapturer.java:257-270, 292-298`); that case is not modelled.
- The capturer's open-timeout runnable (`CameraCapturer.java:159-163, 249`) is a timer whose firing only reports an error; it is not modelled.
- `createOutputMediaFile` (`LocalRecorder.kt:61-88`) is not modelled. It covers storage permission and mount checks, the vendor storage path, `mkdirs`, the clock and the date format. The path it returns is an input. The warden it runs is `DiskWarden`, which is not wired into `RecordSession`: there, creating the output file is one step that may throw.
- Video and audio recorder settings (`LocalRecorder.kt:154-185`) are one `ConfigureRecorder` step that may throw. `RecordAudio` is not modelled.
- The commented-out in-place rollover block (`LocalRecorder.kt:187-215`) is not code and is not modelled.
- `updateFileExists` is modelled as one refresh request naming the file; the MIME lookup is left out.
- Camera configuration is not modelled: `findClosestCaptureFormat`, `findClosestPictureSize`, `updateCameraParameters`, `convertFrameRates` and `convertSizes` call library code (`CameraEnumerationAndroid`, `Camera.Parameters`) that is not part of this model. Choosing and applying the capture format is one `configure` step that may throw.
- The effects of the `SurfaceTextureHelper` calls (texture size, frame rotation), of `setDisplayOrientation(0)` and of `CameraHandler.preview` are left out: they concern rendering. That `setDisplayOrientation` and `setFrameRotation` may throw out of `create` is modelled, as the `orient` step.
- `CameraStatistics` is modelled only by whether it exists (`statisticsActive`).
- The handler's `onCameraOpening`, `onCameraError` and `onCameraDisconnected` have empty bodies, so they have no operation. `onDone` and `onFailure` are modelled inside `CreateSession`.
- `createCameraSession` is abstract in `CameraCapturer` and implemented in classes that are not part of this model. Its effect is the `OnDone`/`OnFailure` call that answers the posted open.
- `dispose` does exactly what `stopCapture` does; it has no separate member.
- `isScreencast`, `printStackTrace`, `getCameraName` and all logging change no state.
- Camera sessions and switch handlers are identified by number. Equality of Java object references becomes equality of these numbers.
- `NameOrder` compares names character by character. Java's `String.compareTo` compares UTF-16 code units, which differs only for characters outside the Basic Multilingual Plane.
- `LowerChar` lowers ASCII letters only. Kotlin's `toLowerCase` is locale-aware, but only ASCII can match `3gp`/`mp4`.
- The `Record`, `RecordResolution` and `LockOrientation` settings are parameters, not global state.
- LocalRecording.LocalRecorder.Tick: a segment job runs on the `Handler` created at `LocalRecorder.kt:317` and posted at `:344`. An exception escaping from it is uncaught on that thread, which normally ends the process. The model's state after an escaped `Tick` (the old session held, no new job) therefore describes the recorder only up to the throw; what follows an uncaught exception is not modelled.
- `RecordSession.LocalRecordSession.StopRecord` takes the media-index refresh request to succeed, so `MediaRecorder.stop` always runs. A refresh that throws would skip the stop, and the release would follow regardless.
