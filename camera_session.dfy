/**
 * One legacy-camera preview session (`AbstractCameraSession`): how a session
 * is opened (`create`), the recording-profile tier it picks, the frame
 * rotation it reports, and the session object itself with its
 * RUNNING/STOPPED state, its error callback and its stop path.
 *
 * Every Android call (`Camera.open`, `setPreviewTexture`, `CamcorderProfile.get`,
 * `Camera.getCameraInfo`, `camera.parameters`, the orientation setters,
 * `startPreview`, the display rotation) is an input.
 */
module CameraSession {
  import opened Common

  // ---------------------------------------------------------------------
  // Platform constants
  // ---------------------------------------------------------------------

  /** `CamcorderProfile.QUALITY_480P`, `QUALITY_720P`, `QUALITY_1080P`. */
  const Quality480P: int := 4
  const Quality720P: int := 5
  const Quality1080P: int := 6

  /** The recording tiers, best first, as indexed by the resolution setting. */
  const Formats: seq<int> := [Quality1080P, Quality720P, Quality480P]

  /** `Surface.ROTATION_0` .. `Surface.ROTATION_270`. */
  const Rotation0: int := 0
  const Rotation90: int := 1
  const Rotation180: int := 2
  const Rotation270: int := 3

  /** `Camera.CAMERA_ERROR_EVICTED` and `Camera.CAMERA_ERROR_SERVER_DIED`. */
  const CameraErrorEvicted: int := 2
  const CameraErrorServerDied: int := 100

  // ---------------------------------------------------------------------
  // Values
  // ---------------------------------------------------------------------

  /** A `CamcorderProfile`: the tier it describes and the video geometry used
      to pick the capture format. */
  datatype Profile = Profile(quality: int, width: int, height: int, frameRate: int)

  /** What `CamcorderProfile.get(quality)` does for one quality: it returns a
      profile, or throws because the device does not support that quality. */
  datatype Lookup = Found(profile: Profile) | Unsupported

  datatype Facing = FacingBack | FacingFront

  /** `Camera.CameraInfo`: which way the lens faces and its mount angle. */
  datatype CameraInfo = CameraInfo(facing: Facing, orientation: int)

  /** What `Camera.open(cameraId)` does. */
  datatype OpenResult =
    | OpenThrows(message: Option<string>)
    | OpenReturnedNull
    | Opened(info: CameraInfo)

  /** Everything `create` asks of the platform and of the global settings. */
  datatype CreateInputs = CreateInputs(
    open: OpenResult,              // Camera.open(cameraId)
    previewTexture: Step,          // camera.setPreviewTexture(...)
    resolution: int,               // LocalRecorder.RecordResolution
    get: int -> Lookup,            // CamcorderProfile.get(quality)
    cameraInfo: Step,              // Camera.getCameraInfo(cameraId, info), outside any try
    parameters: Step,              // reading camera.parameters
    configure: Step,               // choosing and applying the capture format
    lockOrientation: int,          // LocalRecorder.LockOrientation
    displayRotation: int,          // the default display's rotation code
    orient: Step,                  // setDisplayOrientation(0), setFrameRotation(...), outside any try
    startPreview: Step)            // camera.startPreview() in the new session

  /** How a `create` call ends. */
  datatype CreateOutcome =
    | Done(profile: Profile, frameRotation: int)  // onDone with a new session
    | Failed(cameraReleased: bool)                // onFailure(message)
    | Unreported                                  // camera released, no callback at all
    | Escaped(cameraReleased: bool)               // an exception left create

  /** Whether the camera that `create` opened was given back on this outcome. */
  predicate CameraGivenBack(outcome: CreateOutcome)
  {
    match outcome
    case Done(_, _) => false
    case Failed(released) => released
    case Unreported => true
    case Escaped(released) => released
  }

  /** A catch block that reports `e.message!!`: a missing message makes the
      `!!` itself throw out of `create`. */
  function ReportOrEscape(message: Option<string>, released: bool): (o: CreateOutcome)
    ensures o.Failed? <==> message.Some?
    ensures o.Escaped? <==> message.None?
    ensures CameraGivenBack(o) == released
  {
    if message.Some? then Failed(released) else Escaped(released)
  }

  // ---------------------------------------------------------------------
  // Orientation
  // ---------------------------------------------------------------------

  /** Kotlin's `rotation % 360` on `Int`: the remainder takes the sign of
      the dividend, unlike Dafny's `%`. */
  function Rem360(a: int): (r: int)
    ensures -360 < r < 360
    ensures (a - r) % 360 == 0
    ensures a >= 0 ==> 0 <= r
    ensures a <= 0 ==> r <= 0
  {
    if a >= 0 then a % 360 else -((-a) % 360)
  }

  /** `getDeviceOrientation`: the display rotation code in degrees; an
      unknown code counts as 0. */
  function DeviceOrientation(rotation: int): (degrees: int)
    ensures Rotation0 <= rotation <= Rotation270 ==> degrees == 90 * rotation
    ensures !(Rotation0 <= rotation <= Rotation270) ==> degrees == 0
  {
    if rotation == Rotation90 then 90
    else if rotation == Rotation180 then 180
    else if rotation == Rotation270 then 270
    else 0
  }

  /** `getFrameOrientation`: a lock setting 0..3 fixes the rotation to a
      multiple of 90 degrees; otherwise the display rotation, mirrored
      (360 - d) for a back-facing lens, plus the lens mount angle, taken
      modulo 360 with Kotlin's truncating `%`. */
  function FrameOrientation(lock: int, displayRotation: int, info: CameraInfo): (r: int)
    ensures 0 <= lock <= 3 ==> r == 90 * lock
    ensures !(0 <= lock <= 3) && info.orientation >= 0 ==>
      0 <= r < 360 &&
      (info.facing == FacingFront ==> (r - DeviceOrientation(displayRotation) - info.orientation) % 360 == 0) &&
      (info.facing == FacingBack ==> (r + DeviceOrientation(displayRotation) - info.orientation) % 360 == 0)
  {
    var rotation :=
      if 0 <= lock <= 3 then lock * 90
      else
        var device := DeviceOrientation(displayRotation);
        (if info.facing == FacingBack then 360 - device else device) + info.orientation;
    Rem360(rotation)
  }

  // ---------------------------------------------------------------------
  // Recording-profile tier
  // ---------------------------------------------------------------------

  /** The tier the loop of `create` settles on when it has reached index
      `i`: indices outside the tier list throw
      `ArrayIndexOutOfBoundsException`, and unsupported tiers throw too; the
      loop swallows both and moves on. */
  function FirstTierFrom(i: int, get: int -> Lookup): Option<Profile>
    decreases |Formats| - i
  {
    if i >= |Formats| then None
    else if i < 0 then FirstTierFrom(i + 1, get)
    else match get(Formats[i])
      case Found(p) => Some(p)
      case Unsupported => FirstTierFrom(i + 1, get)
  }

  /** Every tier index from `from` up to (not including) `k` that names a
      real tier is unsupported. */
  ghost predicate UnsupportedBefore(from: int, k: int, get: int -> Lookup)
  {
    forall j :: from <= j < k && 0 <= j < |Formats| ==> get(Formats[j]).Unsupported?
  }

  /** The tier loop of `create`: indices `resolution .. formats.size`
      inclusive; the first lookup that returns wins. */
  method SelectProfile(resolution: int, get: int -> Lookup) returns (pro: Option<Profile>)
    ensures pro == FirstTierFrom(resolution, get)
  {
    pro := None;
    var i := resolution;
    while i <= |Formats|
      invariant FirstTierFrom(i, get) == FirstTierFrom(resolution, get)
      decreases |Formats| + 1 - i
    {
      if 0 <= i < |Formats| {
        var found := get(Formats[i]);
        if found.Found? {
          pro := Some(found.profile);
          return;
        }
      }
      i := i + 1;
    }
  }

  /** What the tier loop settles on: the profile of the first supported tier
      at or after `from`, or nothing when every tier from there on is
      unsupported. */
  lemma {:induction false} FirstTierIsFirstSupported(from: int, get: int -> Lookup)
    ensures FirstTierFrom(from, get).None? <==> UnsupportedBefore(from, |Formats|, get)
    ensures FirstTierFrom(from, get).Some? ==>
      exists k :: from <= k < |Formats| && 0 <= k && UnsupportedBefore(from, k, get) &&
                  get(Formats[k]) == Found(FirstTierFrom(from, get).value)
    decreases |Formats| - from
  {
    if from < |Formats| {
      FirstTierIsFirstSupported(from + 1, get);
      if 0 <= from && get(Formats[from]).Found? {
        assert UnsupportedBefore(from, from, get);
      }
    }
  }

  // ---------------------------------------------------------------------
  // create
  // ---------------------------------------------------------------------

  /** `AbstractCameraSession.create`: open the camera, attach the preview
      texture, pick the profile tier, read the camera info, configure the
      camera, set the orientation and hand a new session to `onDone`. The
      new session itself is built by the caller (see
      `CameraSession.constructor`), with `inputs.startPreview`. */
  method Create(inputs: CreateInputs) returns (outcome: CreateOutcome)
    // Before the camera is opened nothing has to be given back; once it is
    // open every caught failure gives it back.
    ensures !outcome.Done? && !outcome.Escaped? ==> (CameraGivenBack(outcome) <==> inputs.open.Opened?)
    // An exception escapes from a catch block (`e.message!!` without a
    // message), or from a call outside any `try`; only the second catch
    // block gave the camera back first.
    ensures outcome.Escaped? <==>
      (inputs.open.OpenThrows? && inputs.open.message.None?) ||
      (inputs.open.Opened? && inputs.previewTexture == Throws(None)) ||
      (inputs.open.Opened? && inputs.previewTexture.Succeeds? && inputs.cameraInfo.Throws?) ||
      (inputs.open.Opened? && inputs.previewTexture.Succeeds? && inputs.cameraInfo.Succeeds? &&
       inputs.parameters.Succeeds? && inputs.configure.Succeeds? &&
       FirstTierFrom(inputs.resolution, inputs.get).Some? && inputs.orient.Throws?)
    ensures outcome.Escaped? ==>
      (CameraGivenBack(outcome) <==> inputs.open.Opened? && inputs.previewTexture.Throws?)
    // The open and texture failures are always reported when a message exists.
    ensures inputs.open.OpenReturnedNull? ==> outcome == Failed(false)
    ensures inputs.open.OpenThrows? ==> outcome == ReportOrEscape(inputs.open.message, false)
    ensures inputs.open.Opened? && inputs.previewTexture.Throws? ==>
      outcome == ReportOrEscape(inputs.previewTexture.message, true)
    // The session is handed over exactly when every step succeeds and some
    // tier is supported; it records the first supported tier.
    ensures outcome.Done? <==>
      inputs.open.Opened? && inputs.previewTexture.Succeeds? && inputs.cameraInfo.Succeeds? &&
      inputs.parameters.Succeeds? && inputs.configure.Succeeds? &&
      FirstTierFrom(inputs.resolution, inputs.get).Some? && inputs.orient.Succeeds?
    ensures outcome.Done? ==>
      FirstTierFrom(inputs.resolution, inputs.get) == Some(outcome.profile) &&
      outcome.frameRotation == FrameOrientation(inputs.lockOrientation, inputs.displayRotation, inputs.open.info)
    // A failure while configuring is reported only when the exception has a
    // message; a missing profile (`pro!!`) never is.
    ensures outcome.Unreported? <==>
      inputs.open.Opened? && inputs.previewTexture.Succeeds? && inputs.cameraInfo.Succeeds? &&
      (inputs.parameters == Throws(None) ||
       (inputs.parameters.Succeeds? &&
        (!FirstTierFrom(inputs.resolution, inputs.get).Some? || inputs.configure == Throws(None))))
  {
    match inputs.open {
      case OpenThrows(message) =>
        return ReportOrEscape(message, false);
      case OpenReturnedNull =>
        return Failed(false);
      case Opened(info) =>
        if inputs.previewTexture.Throws? {
          return ReportOrEscape(inputs.previewTexture.message, true);
        }
        var pro := SelectProfile(inputs.resolution, inputs.get);
        if inputs.cameraInfo.Throws? {
          return Escaped(false);
        }
        if inputs.parameters.Throws? {
          outcome := if inputs.parameters.message.Some? then Failed(true) else Unreported;
          return;
        }
        if pro.None? {
          // `pro!!` throws a NullPointerException without a message.
          return Unreported;
        }
        if inputs.configure.Throws? {
          outcome := if inputs.configure.message.Some? then Failed(true) else Unreported;
          return;
        }
        if inputs.orient.Throws? {
          return Escaped(false);
        }
        return Done(pro.value, FrameOrientation(inputs.lockOrientation, inputs.displayRotation, info));
    }
  }

  // ---------------------------------------------------------------------
  // The session object
  // ---------------------------------------------------------------------

  datatype SessionState = Running | Stopped

  /** What the session tells its `Events` listener about a camera fault. */
  datatype FaultReport = ReportedDisconnected | ReportedError(message: string)

  /** The session built by `onDone`. `startHooked`/`stopHooked` record the
      calls of the `CameraSessionHandler` hooks (`startCamera` hands the
      camera to the recorder, `stopCamera` takes it back). */
  class CameraSession {
    var state: SessionState
    var releases: nat          // camera.release() calls
    var closedEvents: nat      // Events.onCameraClosed calls
    var startHooked: bool
    var stopHooked: bool
    var reports: seq<FaultReport>

    /** The camera is given back, and the close announced, exactly once, when
        the session stops; the recorder hook is told to stop at that moment. */
    ghost predicate Valid()
      reads this
    {
      && releases == closedEvents
      && releases == (if state == Stopped then 1 else 0)
      && stopHooked == (state == Stopped)
    }

    /** The session's `init`: `startCapturing` sets RUNNING and starts the
        preview; a failing preview stops the session at once (and reports the
        error when the exception has a message); otherwise the recorder hook
        is started. */
    constructor (startPreview: Step)
      ensures Valid()
      ensures startPreview.Succeeds? ==> state == Running && startHooked && reports == []
      ensures startPreview.Throws? ==>
        state == Stopped && !startHooked &&
        reports == (if startPreview.message.Some? then [ReportedError(startPreview.message.value)] else [])
    {
      state := Running;
      releases := 0;
      closedEvents := 0;
      startHooked := false;
      stopHooked := false;
      reports := [];
      new;
      if startPreview.Throws? {
        var _ := StopInternal();
        if startPreview.message.Some? {
          reports := reports + [ReportedError(startPreview.message.value)];
        }
        return;
      }
      startHooked := true;
    }

    /** `stopInternal`: a no-op on a stopped session; otherwise stop the
        recorder hook, set STOPPED, release the camera and announce the close. */
    method StopInternal() returns (closed: bool)
      requires Valid()
      modifies this
      ensures Valid()
      ensures closed == (old(state) == Running)
      ensures state == Stopped
      ensures startHooked == old(startHooked) && reports == old(reports)
      ensures closedEvents == old(closedEvents) + (if closed then 1 else 0)
    {
      if state == Stopped {
        return false;
      }
      stopHooked := true;
      state := Stopped;
      releases := releases + 1;
      closedEvents := closedEvents + 1;
      return true;
    }

    /** `stop`: stop the session unless it already is stopped. `closed` says
        whether `onCameraClosed` was announced by this call. */
    method Stop() returns (closed: bool)
      requires Valid()
      modifies this
      ensures Valid()
      ensures closed == (old(state) == Running)
      ensures state == Stopped
      ensures startHooked == old(startHooked) && reports == old(reports)
    {
      closed := false;
      if state != Stopped {
        closed := StopInternal();
      }
    }

    /** The camera error callback: stop the session, then report an eviction
        as a disconnect and any other code as an error. */
    method OnCameraError(code: int) returns (closed: bool)
      requires Valid()
      modifies this
      ensures Valid()
      ensures closed == (old(state) == Running)
      ensures state == Stopped
      ensures startHooked == old(startHooked)
      ensures reports == old(reports) +
        [if code == CameraErrorEvicted then ReportedDisconnected else ReportedError(ErrorMessage(code))]
    {
      closed := StopInternal();
      if code == CameraErrorEvicted {
        reports := reports + [ReportedDisconnected];
      } else {
        reports := reports + [ReportedError(ErrorMessage(code))];
      }
    }
  }

  /** The message the error callback logs and reports. */
  function ErrorMessage(code: int): (m: string)
    ensures code == CameraErrorServerDied <==> m == "Camera server died!"
  {
    if code == CameraErrorServerDied then "Camera server died!"
    else
      var m := "Camera error: " + IntToString(code);
      assert m[7] != "Camera server died!"[7];
      m
  }

  /** Decimal rendering of an `Int` as in Kotlin string templates. */
  function IntToString(n: int): (s: string)
    ensures |s| >= 1
    ensures n < 0 <==> s[0] == '-'
  {
    if n < 0 then "-" + NatToString(-n) else NatToString(n)
  }

  function NatToString(n: nat): (s: string)
    ensures |s| >= 1
    ensures forall i :: 0 <= i < |s| ==> '0' <= s[i] <= '9'
  {
    if n < 10 then [Digit(n)] else NatToString(n / 10) + [Digit(n % 10)]
  }

  function Digit(d: nat): (c: char)
    requires d < 10
    ensures '0' <= c <= '9'
  {
    ['0', '1', '2', '3', '4', '5', '6', '7', '8', '9'][d]
  }
}
