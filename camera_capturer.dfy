/**
 * `CameraCapturer`: the WebRTC-style capturer's open / retry / switch state
 * machine.
 *
 * Thread hops are explicit operations. The posted `createCameraSession`
 * job is `pendingOpen` (its delay); its answer arrives as `OnDone` or
 * `OnFailure`. The `stop()` posted for a dropped session is appended to
 * `stopRequests`. Camera sessions are identified by number, switch handlers
 * likewise, and the device list of the `CameraEnumerator` is a parameter
 * of each operation that reads it. Every callback the capturer makes to
 * its observers is appended, in order, to `notices`.
 */
module Capturer {
  import opened Common

  /** `MAX_OPEN_CAMERA_ATTEMPTS`, and the retry delay `OPEN_CAMERA_DELAY_MS`. */
  const MaxOpenCameraAttempts: int := 3
  const OpenCameraDelayMs: int := 500

  datatype SwitchState = Idle | Pending | InProgress

  /** Why the constructor throws. */
  datatype ConstructError = NoCamerasAttached | UnknownCameraName

  /** A callback the capturer makes: to its `CapturerObserver`, to its
      `CameraEventsHandler`, or to a `CameraSwitchHandler`. */
  datatype Notice =
    | CapturerStarted(success: bool)
    | CapturerStopped
    | FrameDelivered
    | CameraOpening(cameraName: string)
    | CameraError(message: string)
    | CameraDisconnected
    | CameraClosed
    | FirstFrameAvailable
    | SwitchDone(handler: nat, frontFacing: bool)
    | SwitchError(handler: nat, failure: SwitchFailure)

  /** Why a switch fails, as told to its switch handler. */
  datatype SwitchFailure =
    | NoCameraToSwitchTo
    | UnknownCamera(name: string)
    | SwitchAlreadyInProgress
    | CameraNotRunning
    | OpenFailed(error: string)     // the error of the last failed open attempt

  /** The message string the switch handler receives for a failure. */
  function SwitchErrorMessage(f: SwitchFailure): string
  {
    match f
    case NoCameraToSwitchTo => "No camera to switch to."
    case UnknownCamera(name) => "Attempted to switch to unknown camera device " + name
    case SwitchAlreadyInProgress => "Camera switch already in progress."
    case CameraNotRunning => "switchCamera: camera is not running."
    case OpenFailed(error) => error
  }

  /** The constructor's check of the requested camera name against the
      enumerator's device names. */
  function ValidateCameraName(name: string, devices: seq<string>): (r: Option<ConstructError>)
    ensures r.None? <==> name in devices
    ensures r == Some(NoCamerasAttached) <==> |devices| == 0
  {
    if |devices| == 0 then Some(NoCamerasAttached)
    else if name !in devices then Some(UnknownCameraName)
    else None
  }

  /** `List.indexOf`: the first position of `x` in `s`, or -1. */
  function IndexOf(s: seq<string>, x: string): (i: int)
    ensures -1 <= i < |s|
    ensures i == -1 <==> x !in s
    ensures 0 <= i ==> s[i] == x && x !in s[..i]
  {
    if |s| == 0 then -1
    else if s[0] == x then 0
    else
      var j := IndexOf(s[1..], x);
      assert s[1..][..if j < 0 then 0 else j] == s[1..1 + if j < 0 then 0 else j];
      if j == -1 then -1 else j + 1
  }

  /** No device name is listed twice. */
  predicate Distinct(s: seq<string>)
  {
    forall i, j :: 0 <= i < j < |s| ==> s[i] != s[j]
  }

  /** The camera `switchCamera()` moves to: the device after the current
      one in the enumerator's list, wrapping around; the first device when
      the current one is no longer listed. */
  function SwitchTarget(devices: seq<string>, current: string): (t: string)
    requires |devices| >= 2
    ensures t in devices
    ensures current !in devices ==> t == devices[0]
    ensures forall i :: 0 <= i < |devices| && devices[i] == current && current !in devices[..i] ==>
      t == devices[(i + 1) % |devices|]
    ensures Distinct(devices) ==> t != current
  {
    var i := IndexOf(devices, current);
    devices[(i + 1) % |devices|]
  }

  /** `reportCameraSwitchError`: the switch handler, if there is one, is
      told the error. */
  function SwitchErrorReport(handler: Option<nat>, failure: SwitchFailure): (r: seq<Notice>)
    ensures handler.None? <==> r == []
    ensures handler.Some? ==> r == [SwitchError(handler.value, failure)]
  {
    if handler.Some? then [SwitchError(handler.value, failure)] else []
  }

  /** The three refusals of `switchCameraInternal`, checked in this order:
      an unknown target, a switch already under way, a capturer with no
      session opening or open. What the switch handler is told. */
  function SwitchRefusal(selected: string, devices: seq<string>, state: SwitchState,
                         opening: bool, current: Option<nat>): (r: Option<SwitchFailure>)
    ensures r.None? <==> selected in devices && state == Idle && (opening || current.Some?)
    ensures selected !in devices ==> r == Some(UnknownCamera(selected))
    ensures selected in devices && state != Idle ==> r == Some(SwitchAlreadyInProgress)
    ensures r == Some(CameraNotRunning) <==> selected in devices && state == Idle && !opening && current.None?
  {
    if selected !in devices then Some(UnknownCamera(selected))
    else if state != Idle then Some(SwitchAlreadyInProgress)
    else if !opening && current.None? then Some(CameraNotRunning)
    else None
  }

  class CameraCapturer {
    var initialized: bool                 // initialize() has run
    var sessionOpening: bool
    var currentSession: Option<nat>
    var statisticsActive: bool            // cameraStatistics != null
    var cameraName: string
    var pendingCameraName: Option<string>
    var width: int
    var height: int
    var framerate: int
    var openAttemptsRemaining: int
    var switchState: SwitchState
    var switchHandler: Option<nat>        // switchEventsHandler
    var firstFrameObserved: bool
    var pendingOpen: Option<int>          // the posted open job and its delay
    var stopRequests: seq<nat>            // sessions handed a posted stop()
    var notices: seq<Notice>

    /** A switch happens only while a session is opening; a session is
        never both opening and current; exactly one open job is outstanding
        while opening, with an attempt left for it; the statistics exist
        exactly while a session is current; a pending switch knows its
        target; and nothing opens before `initialize`. */
    ghost predicate Valid()
      reads this
    {
      && (switchState != Idle ==> sessionOpening)
      && !(sessionOpening && currentSession.Some?)
      && (sessionOpening <==> pendingOpen.Some?)
      && (sessionOpening ==> openAttemptsRemaining >= 1)
      && (switchState == Pending ==> pendingCameraName.Some?)
      && (statisticsActive <==> currentSession.Some?)
      && (sessionOpening || currentSession.Some? ==> initialized)
    }

    /** The constructor: only a listed camera name is accepted (otherwise
        the constructor throws `ValidateCameraName`'s error). */
    constructor (name: string, devices: seq<string>)
      requires ValidateCameraName(name, devices).None?
      ensures Valid()
      ensures cameraName == name && !initialized
      ensures !sessionOpening && currentSession == None && switchState == Idle
      ensures pendingOpen == None && stopRequests == [] && notices == []
    {
      initialized := false;
      sessionOpening := false;
      currentSession := None;
      statisticsActive := false;
      cameraName := name;
      pendingCameraName := None;
      width := 0;
      height := 0;
      framerate := 0;
      openAttemptsRemaining := 0;
      switchState := Idle;
      switchHandler := None;
      firstFrameObserved := false;
      pendingOpen := None;
      stopRequests := [];
      notices := [];
    }

    /** `initialize`: receive the context, observer and camera thread. */
    method Initialize()
      requires Valid()
      modifies this`initialized
      ensures Valid()
      ensures initialized
      ensures sessionOpening == old(sessionOpening) && currentSession == old(currentSession)
      ensures switchState == old(switchState) && pendingOpen == old(pendingOpen)
      ensures notices == old(notices) && stopRequests == old(stopRequests)
    {
      initialized := true;
    }

    /** `startCapture`: throws before `initialize`; otherwise starts opening
        with the full attempt budget, unless a session is opening or open. */
    method StartCapture(w: int, h: int, fps: int) returns (thrown: bool)
      requires Valid()
      modifies this`width, this`height, this`framerate
      modifies this`sessionOpening, this`openAttemptsRemaining, this`pendingOpen
      ensures Valid()
      ensures initialized == old(initialized) && (thrown <==> !initialized)
      ensures old(initialized) && !old(sessionOpening) && old(currentSession).None? ==>
        sessionOpening && openAttemptsRemaining == MaxOpenCameraAttempts && pendingOpen == Some(0) &&
        width == w && height == h && framerate == fps &&
        currentSession == None && switchState == old(switchState) && cameraName == old(cameraName)
      ensures !(old(initialized) && !old(sessionOpening) && old(currentSession).None?) ==>
        sessionOpening == old(sessionOpening) && currentSession == old(currentSession) &&
        openAttemptsRemaining == old(openAttemptsRemaining) && pendingOpen == old(pendingOpen) &&
        width == old(width) && height == old(height) && framerate == old(framerate) &&
        switchState == old(switchState)
      ensures notices == old(notices) && stopRequests == old(stopRequests)
    {
      if !initialized {
        return true;
      }
      thrown := false;
      if !sessionOpening && currentSession.None? {
        width := w;
        height := h;
        framerate := fps;
        StartOpening(MaxOpenCameraAttempts);
      }
    }

    /** The fields a switch may change, other than `notices`, are as they were. */
    twostate predicate SwitchFieldsUnchanged()
      reads this
    {
      && sessionOpening == old(sessionOpening) && currentSession == old(currentSession)
      && cameraName == old(cameraName) && switchState == old(switchState)
      && switchHandler == old(switchHandler) && pendingCameraName == old(pendingCameraName)
      && openAttemptsRemaining == old(openAttemptsRemaining) && pendingOpen == old(pendingOpen)
      && stopRequests == old(stopRequests) && statisticsActive == old(statisticsActive)
    }

    /** The effect of `switchCameraInternal(handler, selected)`. A refused
        switch only reports to the handler. While a session opens, the
        handler and target are remembered (PENDING). Otherwise the current
        session's stop is posted, it is dropped, and the target is opened
        with a single attempt (IN_PROGRESS). */
    twostate predicate SwitchedInternally(handler: Option<nat>, selected: string, devices: seq<string>)
      reads this
    {
      var refusal := SwitchRefusal(selected, devices, old(switchState), old(sessionOpening), old(currentSession));
      && (refusal.Some? ==>
            notices == old(notices) + SwitchErrorReport(handler, refusal.value) && SwitchFieldsUnchanged())
      && (refusal.None? && old(sessionOpening) ==>
            && switchState == Pending && pendingCameraName == Some(selected) && switchHandler == handler
            && sessionOpening && pendingOpen == old(pendingOpen) && cameraName == old(cameraName)
            && currentSession == old(currentSession) && openAttemptsRemaining == old(openAttemptsRemaining)
            && stopRequests == old(stopRequests) && notices == old(notices))
      && (refusal.None? && !old(sessionOpening) ==>
            && old(currentSession).Some?
            && switchState == InProgress && switchHandler == handler
            && currentSession == None && stopRequests == old(stopRequests) + [old(currentSession).value]
            && cameraName == selected && sessionOpening && openAttemptsRemaining == 1
            && pendingOpen == Some(0) && notices == old(notices) && pendingCameraName == old(pendingCameraName))
    }

    /** `switchCameraInternal`: refuse an unknown camera, a switch already
        under way, or a capturer that is not running, changing nothing but
        the handler's error report. While a session opens, remember the
        target (PENDING). Otherwise drop the current session and reopen on
        the target with a single attempt (IN_PROGRESS). */
    method SwitchCameraInternal(handler: Option<nat>, selected: string, devices: seq<string>)
      requires Valid()
      modifies this`notices, this`switchHandler, this`switchState, this`pendingCameraName
      modifies this`statisticsActive, this`stopRequests, this`currentSession, this`cameraName
      modifies this`sessionOpening, this`openAttemptsRemaining, this`pendingOpen
      ensures Valid()
      ensures SwitchedInternally(handler, selected, devices)
    {
      var refusal := SwitchRefusal(selected, devices, switchState, sessionOpening, currentSession);
      if refusal.Some? {
        notices := notices + SwitchErrorReport(handler, refusal.value);
      } else if sessionOpening {
        DeferSwitch(handler, selected);
      } else {
        BeginSwitch(handler, selected);
      }
    }

    /** The PENDING branch of `switchCameraInternal`: remember the handler
        and the target until the opening session is done. */
    method DeferSwitch(handler: Option<nat>, selected: string)
      requires Valid() && sessionOpening && switchState == Idle
      modifies this`switchHandler, this`switchState, this`pendingCameraName
      ensures Valid()
      ensures switchState == Pending && pendingCameraName == Some(selected) && switchHandler == handler
    {
      switchHandler := handler;
      switchState := Pending;
      pendingCameraName := Some(selected);
    }

    /** The IN_PROGRESS branch of `switchCameraInternal`: post the stop of
        the current session and open the target with a single attempt. */
    method BeginSwitch(handler: Option<nat>, selected: string)
      requires Valid() && !sessionOpening && currentSession.Some? && switchState == Idle
      modifies this`switchHandler, this`switchState, this`statisticsActive, this`stopRequests
      modifies this`currentSession, this`cameraName, this`sessionOpening, this`openAttemptsRemaining, this`pendingOpen
      ensures Valid()
      ensures switchState == InProgress && switchHandler == handler
      ensures currentSession == None && stopRequests == old(stopRequests) + [old(currentSession).value]
      ensures cameraName == selected && sessionOpening && openAttemptsRemaining == 1 && pendingOpen == Some(0)
    {
      switchHandler := handler;
      switchState := InProgress;
      ReleaseCurrentSession();
      cameraName := selected;
      StartOpening(1);
    }

    /** Release the statistics, post `stop()` to the current session and
        drop it. */
    method ReleaseCurrentSession()
      requires currentSession.Some?
      modifies this`statisticsActive, this`stopRequests, this`currentSession
      ensures !statisticsActive && currentSession == None
      ensures stopRequests == old(stopRequests) + [old(currentSession).value]
    {
      statisticsActive := false;
      stopRequests := stopRequests + [currentSession.value];
      currentSession := None;
    }

    /** Start opening a session with `attempts` attempts: the open job is
        posted with no delay (`createSessionInternal(0)`). */
    method StartOpening(attempts: int)
      modifies this`sessionOpening, this`openAttemptsRemaining, this`pendingOpen
      ensures sessionOpening && openAttemptsRemaining == attempts && pendingOpen == Some(0)
    {
      sessionOpening := true;
      openAttemptsRemaining := attempts;
      pendingOpen := Some(0);
    }

    /** `switchCamera(handler)`, as run on the camera thread: with fewer
        than two devices report an error; otherwise switch to the next
        device after the current camera. */
    method SwitchCamera(handler: Option<nat>, devices: seq<string>)
      requires Valid()
      modifies this`notices, this`switchHandler, this`switchState, this`pendingCameraName
      modifies this`statisticsActive, this`stopRequests, this`currentSession, this`cameraName
      modifies this`sessionOpening, this`openAttemptsRemaining, this`pendingOpen
      ensures Valid()
      ensures |devices| < 2 ==>
        notices == old(notices) + SwitchErrorReport(handler, NoCameraToSwitchTo) && SwitchFieldsUnchanged()
      ensures |devices| >= 2 ==> SwitchedInternally(handler, SwitchTarget(devices, old(cameraName)), devices)
      ensures |devices| >= 2 && old(switchState) == Idle && !old(sessionOpening) && old(currentSession).Some? ==>
        cameraName == SwitchTarget(devices, old(cameraName)) && switchState == InProgress &&
        sessionOpening && openAttemptsRemaining == 1 && currentSession == None
      ensures |devices| >= 2 && old(switchState) == Idle && old(sessionOpening) ==>
        switchState == Pending && pendingCameraName == Some(SwitchTarget(devices, old(cameraName)))
    {
      if |devices| < 2 {
        notices := notices + SwitchErrorReport(handler, NoCameraToSwitchTo);
      } else {
        var target := SwitchTarget(devices, cameraName);
        SwitchCameraInternal(handler, target, devices);
      }
    }

    /** `switchCamera(handler, name)`, as run on the camera thread. */
    method SwitchCameraTo(handler: Option<nat>, name: string, devices: seq<string>)
      requires Valid()
      modifies this`notices, this`switchHandler, this`switchState, this`pendingCameraName
      modifies this`statisticsActive, this`stopRequests, this`currentSession, this`cameraName
      modifies this`sessionOpening, this`openAttemptsRemaining, this`pendingOpen
      ensures Valid()
      ensures SwitchedInternally(handler, name, devices)
    {
      SwitchCameraInternal(handler, name, devices);
    }

    /** `createSessionCallback.onDone`: the open job produced `session`. It
        becomes current; a switch in progress completes (the handler learns
        whether the new camera faces front); a pending switch is started
        now, towards the remembered camera. */
    method OnDone(session: nat, frontFacing: bool, devices: seq<string>)
      requires Valid()
      requires sessionOpening
      modifies this`notices, this`switchHandler, this`switchState, this`pendingCameraName
      modifies this`statisticsActive, this`stopRequests, this`currentSession, this`cameraName
      modifies this`sessionOpening, this`openAttemptsRemaining, this`pendingOpen
      modifies this`firstFrameObserved
      ensures Valid()
      ensures old(switchState) != Pending ==>
        !sessionOpening && pendingOpen == None && currentSession == Some(session) &&
        !firstFrameObserved && switchState == Idle && cameraName == old(cameraName) &&
        stopRequests == old(stopRequests) && openAttemptsRemaining == old(openAttemptsRemaining) &&
        pendingCameraName == old(pendingCameraName)
      ensures old(switchState) == Idle ==>
        notices == old(notices) + [CapturerStarted(true)] && switchHandler == old(switchHandler)
      ensures old(switchState) == InProgress ==>
        switchHandler == None &&
        notices == old(notices) + [CapturerStarted(true)] +
          (if old(switchHandler).Some? then [SwitchDone(old(switchHandler).value, frontFacing)] else [])
      // A pending switch is started from the new session as if requested now.
      ensures old(switchState) == Pending && old(pendingCameraName).value in devices ==>
        switchState == InProgress && cameraName == old(pendingCameraName).value &&
        stopRequests == old(stopRequests) + [session] && currentSession == None &&
        sessionOpening && openAttemptsRemaining == 1 && pendingOpen == Some(0) && pendingCameraName == None &&
        switchHandler == old(switchHandler) && notices == old(notices) + [CapturerStarted(true)]
      ensures old(switchState) == Pending && old(pendingCameraName).value !in devices ==>
        switchState == Idle && currentSession == Some(session) && !sessionOpening && pendingCameraName == None &&
        pendingOpen == None && !firstFrameObserved && cameraName == old(cameraName) &&
        switchHandler == old(switchHandler) && stopRequests == old(stopRequests) &&
        openAttemptsRemaining == old(openAttemptsRemaining) &&
        notices == old(notices) + [CapturerStarted(true)] +
          SwitchErrorReport(old(switchHandler), UnknownCamera(old(pendingCameraName).value))
    {
      notices := notices + [CapturerStarted(true)];
      BecomeCurrent(session);
      if switchState == InProgress {
        CompleteSwitch(frontFacing);
      } else if switchState == Pending {
        var selected := pendingCameraName.value;
        pendingCameraName := None;
        switchState := Idle;
        SwitchCameraInternal(switchHandler, selected, devices);
      }
    }

    /** A switch in progress is done: its handler, if any, learns whether
        the new camera faces front, and is dropped. */
    method CompleteSwitch(frontFacing: bool)
      modifies this`notices, this`switchHandler, this`switchState
      ensures notices == old(notices) + (if old(switchHandler).Some? then [SwitchDone(old(switchHandler).value, frontFacing)] else [])
      ensures switchHandler == None && switchState == Idle
    {
      if switchHandler.Some? {
        notices := notices + [SwitchDone(switchHandler.value, frontFacing)];
        switchHandler := None;
      }
      switchState := Idle;
    }

    /** The opening session becomes the current one, with fresh statistics
        and no frame seen yet. */
    method BecomeCurrent(session: nat)
      requires sessionOpening
      modifies this`sessionOpening, this`pendingOpen, this`currentSession, this`statisticsActive, this`firstFrameObserved
      ensures !sessionOpening && pendingOpen == None && currentSession == Some(session)
      ensures statisticsActive && !firstFrameObserved
    {
      sessionOpening := false;
      pendingOpen := None;
      currentSession := Some(session);
      statisticsActive := true;
      firstFrameObserved := false;
    }

    /** `createSessionCallback.onFailure`: one attempt is used up. With
        attempts left the open is retried after 500 ms; otherwise opening
        ends, any switch is abandoned (its handler told), and the failure is
        reported as a disconnect or an error. */
    method OnFailure(disconnected: bool, error: string)
      requires Valid()
      requires sessionOpening
      modifies this`notices, this`openAttemptsRemaining, this`sessionOpening, this`pendingOpen
      modifies this`switchHandler, this`switchState
      ensures Valid()
      ensures openAttemptsRemaining == old(openAttemptsRemaining) - 1
      ensures currentSession == old(currentSession) && cameraName == old(cameraName)
      ensures stopRequests == old(stopRequests)
      ensures openAttemptsRemaining > 0 || old(switchState) == Idle ==> switchHandler == old(switchHandler)
      ensures openAttemptsRemaining <= 0 && old(switchState) != Idle ==> switchHandler == None
      ensures openAttemptsRemaining > 0 ==>
        sessionOpening && pendingOpen == Some(OpenCameraDelayMs) && switchState == old(switchState) &&
        notices == old(notices) + [CapturerStarted(false)]
      ensures openAttemptsRemaining <= 0 ==>
        !sessionOpening && pendingOpen == None && switchState == Idle &&
        notices == old(notices) + [CapturerStarted(false)] +
          (if old(switchState) != Idle && old(switchHandler).Some? then [SwitchError(old(switchHandler).value, OpenFailed(error))] else []) +
          [if disconnected then CameraDisconnected else CameraError(error)]
    {
      notices := notices + [CapturerStarted(false)];
      openAttemptsRemaining := openAttemptsRemaining - 1;
      if openAttemptsRemaining <= 0 {
        sessionOpening := false;
        pendingOpen := None;
        if switchState != Idle {
          AbandonSwitch(OpenFailed(error));
        }
        notices := notices + [if disconnected then CameraDisconnected else CameraError(error)];
      } else {
        pendingOpen := Some(OpenCameraDelayMs);  // createSessionInternal(500)
      }
    }

    /** A switch under way ends in failure: its handler, if any, is told
        and dropped. */
    method AbandonSwitch(failure: SwitchFailure)
      modifies this`notices, this`switchHandler, this`switchState
      ensures notices == old(notices) + SwitchErrorReport(old(switchHandler), failure)
      ensures switchHandler == None && switchState == Idle
    {
      if switchHandler.Some? {
        notices := notices + [SwitchError(switchHandler.value, failure)];
        switchHandler := None;
      }
      switchState := Idle;
    }

    /** `stopCapture`, once no session is opening (the wait for the opening
        session is not modelled): drop the current session, if any, post its
        stop and tell the observer. */
    method StopCapture()
      requires Valid()
      requires !sessionOpening
      modifies this`statisticsActive, this`stopRequests, this`currentSession, this`notices
      ensures Valid()
      ensures currentSession == None && !sessionOpening
      ensures old(currentSession).Some? ==>
        stopRequests == old(stopRequests) + [old(currentSession).value] &&
        notices == old(notices) + [CapturerStopped]
      ensures old(currentSession).None? ==>
        stopRequests == old(stopRequests) && notices == old(notices)
      ensures cameraName == old(cameraName) && switchState == old(switchState) && pendingOpen == old(pendingOpen)
      ensures initialized == old(initialized)
    {
      if currentSession.Some? {
        ReleaseCurrentSession();
        notices := notices + [CapturerStopped];
      }
    }

    /** `changeCaptureFormat`: stop, then start again with the new format. */
    method ChangeCaptureFormat(w: int, h: int, fps: int) returns (thrown: bool)
      requires Valid()
      requires !sessionOpening
      modifies this`statisticsActive, this`stopRequests, this`currentSession, this`notices
      modifies this`width, this`height, this`framerate
      modifies this`sessionOpening, this`openAttemptsRemaining, this`pendingOpen
      ensures Valid()
      ensures thrown <==> !initialized
      // The stop half.
      ensures old(currentSession).Some? ==>
        stopRequests == old(stopRequests) + [old(currentSession).value] &&
        notices == old(notices) + [CapturerStopped]
      ensures old(currentSession).None? ==> stopRequests == old(stopRequests) && notices == old(notices)
      // The start half.
      ensures initialized ==>
        sessionOpening && currentSession == None && openAttemptsRemaining == MaxOpenCameraAttempts &&
        width == w && height == h && framerate == fps && pendingOpen == Some(0)
      ensures !initialized ==>
        !sessionOpening && currentSession == None && pendingOpen == old(pendingOpen) &&
        width == old(width) && height == old(height) && framerate == old(framerate)
    {
      StopCapture();
      thrown := StartCapture(w, h, fps);
    }

    /** `onCameraOpening` from a session being created: announced unless a
        session is already current. */
    method OnCameraOpeningEvent()
      requires Valid()
      modifies this`notices
      ensures Valid()
      ensures notices == old(notices) + (if old(currentSession).None? then [CameraOpening(cameraName)] else [])
      ensures currentSession == old(currentSession) && sessionOpening == old(sessionOpening)
    {
      if currentSession.None? {
        notices := notices + [CameraOpening(cameraName)];
      }
    }

    /** `onCameraError` from a session: ignored unless it is the current
        session, which is then reported and stopped. */
    method OnCameraErrorEvent(session: nat, error: string)
      requires Valid()
      modifies this`statisticsActive, this`stopRequests, this`currentSession, this`notices
      ensures Valid()
      ensures old(currentSession) != Some(session) ==>
        notices == old(notices) && currentSession == old(currentSession) &&
        stopRequests == old(stopRequests) && statisticsActive == old(statisticsActive)
      ensures old(currentSession) == Some(session) ==>
        currentSession == None && stopRequests == old(stopRequests) + [session] &&
        notices == old(notices) + [CameraError(error), CapturerStopped]
    {
      if currentSession == Some(session) {
        notices := notices + [CameraError(error)];
        StopCapture();
      }
    }

    /** `onCameraDisconnected` from a session: the same filter. */
    method OnCameraDisconnectedEvent(session: nat)
      requires Valid()
      modifies this`statisticsActive, this`stopRequests, this`currentSession, this`notices
      ensures Valid()
      ensures old(currentSession) != Some(session) ==>
        notices == old(notices) && currentSession == old(currentSession) &&
        stopRequests == old(stopRequests) && statisticsActive == old(statisticsActive)
      ensures old(currentSession) == Some(session) ==>
        currentSession == None && stopRequests == old(stopRequests) + [session] &&
        notices == old(notices) + [CameraDisconnected, CapturerStopped]
    {
      if currentSession == Some(session) {
        notices := notices + [CameraDisconnected];
        StopCapture();
      }
    }

    /** `onCameraClosed` from a session: announced when it is the current
        session or when no session is current. */
    method OnCameraClosedEvent(session: nat)
      requires Valid()
      modifies this`notices
      ensures Valid()
      ensures currentSession == old(currentSession)
      ensures notices == old(notices) +
        (if old(currentSession).None? || old(currentSession) == Some(session) then [CameraClosed] else [])
    {
      if currentSession.None? || currentSession == Some(session) {
        notices := notices + [CameraClosed];
      }
    }

    /** `onFrameCaptured` from a session: a frame of the current session is
        delivered, the first one after an open also announced. */
    method OnFrameCapturedEvent(session: nat)
      requires Valid()
      modifies this`notices, this`firstFrameObserved
      ensures Valid()
      ensures currentSession == old(currentSession)
      ensures old(currentSession) != Some(session) ==>
        notices == old(notices) && firstFrameObserved == old(firstFrameObserved)
      ensures old(currentSession) == Some(session) ==>
        firstFrameObserved &&
        notices == old(notices) + (if old(firstFrameObserved) then [] else [FirstFrameAvailable]) + [FrameDelivered]
    {
      if currentSession == Some(session) {
        if !firstFrameObserved {
          notices := notices + [FirstFrameAvailable];
          firstFrameObserved := true;
        }
        notices := notices + [FrameDelivered];
      }
    }
  }
}
