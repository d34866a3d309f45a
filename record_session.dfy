/**
 * `LocalRecordSession`: one recording segment. Building the session prepares
 * a `MediaRecorder` on the shared camera and starts it; stopping it asks the
 * media index to pick up the finished file and gives the camera lock back.
 *
 * Each platform call that may throw is an input: `PrepareStep` names the
 * step of `prepareVideoRecorder` that throws (if any), and the other
 * fields say whether `MediaRecorder.start`, the reset/release pair and
 * `Camera.lock` throw. A throw from `Camera.lock` is caught inside
 * `releaseMediaRecorder`, but the lock taken afterwards in `stopRecord`
 * has no handler: its throw leaves `stopRecord` half done.
 */
module RecordSession {
  import opened Common

  /** The steps of `prepareVideoRecorder`, in the order they run. */
  datatype PrepareStep =
    | CreateRecorder      // MediaRecorder()
    | UnlockCamera        // camera.unlock()
    | ConfigureRecorder   // setCamera, sources, format, video and audio settings
    | CreateOutputFile    // createOutputMediaFile(), including the disk warden
    | SetOutputFile       // setOutputFile(firstFile)
    | PrepareRecorder     // prepare()

  function StepIndex(s: PrepareStep): nat
  {
    match s
    case CreateRecorder => 0
    case UnlockCamera => 1
    case ConfigureRecorder => 2
    case CreateOutputFile => 3
    case SetOutputFile => 4
    case PrepareRecorder => 5
  }

  /** Step `s` ran to completion when the first failing step is `fault`. */
  predicate Completed(s: PrepareStep, fault: Option<PrepareStep>)
  {
    fault.None? || StepIndex(s) < StepIndex(fault.value)
  }

  /** The legacy `android.hardware.Camera` the sessions record from. The
      recorder hands the same camera to every session it builds, so whether
      this process holds its lock is state of the camera, not of a session. */
  class Camera {
    var locked: bool
  }

  /** What the platform does while a session is built. */
  datatype SessionInputs = SessionInputs(
    outputFile: string,               // the path createOutputMediaFile returns
    prepareFault: Option<PrepareStep>,
    startThrows: bool,                // MediaRecorder.start()
    releaseThrows: bool,              // MediaRecorder.reset()/release()
    lockThrows: bool)                 // Camera.lock()

  class LocalRecordSession {
    const camera: Camera
    /** Whether `reset`/`release` throw on this device. */
    const releaseThrows: bool
    /** Whether `Camera.lock` throws on this device. */
    const lockThrows: bool
    var recorderPresent: bool         // mediaRecorder != null
    var isRecording: bool
    var shouldRecreate: bool
    var recordingFilename: Option<string>
    var scanned: seq<string>          // media-index refresh requests, in order

    /** A recording session has the camera unlocked for its recorder and a
        named file; a session not meant to be recreated never got as far as
        naming a file. (The recorder itself may already be gone when a
        `stopRecord` was cut short by `Camera.lock`.) */
    ghost predicate Valid()
      reads this, camera
    {
      && (isRecording ==> !camera.locked && shouldRecreate && recordingFilename.Some?)
      && (!shouldRecreate ==> recordingFilename.None? && !isRecording)
    }

    /** The session's `init`: prepare the recorder, then start it. Any
        failure releases the recorder (twice when preparing failed: once in
        its catch block and once more in `init`). */
    constructor (camera: Camera, inputs: SessionInputs)
      modifies camera
      ensures this.camera == camera && Valid()
      ensures releaseThrows == inputs.releaseThrows && lockThrows == inputs.lockThrows && scanned == []
      ensures isRecording <==> inputs.prepareFault.None? && !inputs.startThrows
      // `shouldRecreate` is set just before the output file is created.
      ensures shouldRecreate <==> Completed(ConfigureRecorder, inputs.prepareFault)
      ensures recordingFilename ==
        (if Completed(SetOutputFile, inputs.prepareFault) then Some(inputs.outputFile) else None)
      // A recording session holds the recorder; otherwise the recorder is
      // gone unless releasing it threw.
      ensures recorderPresent <==>
        isRecording || (Completed(CreateRecorder, inputs.prepareFault) && inputs.releaseThrows)
      // The camera's lock is untouched when no recorder was created. A
      // release takes the lock whenever reset, release and `Camera.lock`
      // succeed, even when `unlock` itself threw; once `unlock` ran, the
      // lock is back exactly when the session is not recording and the
      // release got that far.
      ensures !Completed(CreateRecorder, inputs.prepareFault) ==> camera.locked == old(camera.locked)
      ensures Completed(CreateRecorder, inputs.prepareFault) && !Completed(UnlockCamera, inputs.prepareFault) ==>
        (camera.locked <==> old(camera.locked) || (!inputs.releaseThrows && !inputs.lockThrows))
      ensures Completed(UnlockCamera, inputs.prepareFault) ==>
        (camera.locked <==> !isRecording && !inputs.releaseThrows && !inputs.lockThrows)
    {
      this.camera := camera;
      releaseThrows := inputs.releaseThrows;
      lockThrows := inputs.lockThrows;
      recorderPresent := false;
      isRecording := false;
      shouldRecreate := false;
      recordingFilename := None;
      scanned := [];
      new;
      var prepared := PrepareVideoRecorder(inputs);
      if prepared {
        if inputs.startThrows {
          var _ := ReleaseMediaRecorder();
        } else {
          isRecording := true;
        }
      } else {
        var _ := ReleaseMediaRecorder();
      }
    }

    /** `prepareVideoRecorder`, run on a fresh session: the steps run in
        order until one throws; a throwing step releases the recorder. */
    method PrepareVideoRecorder(inputs: SessionInputs) returns (prepared: bool)
      requires !recorderPresent && !isRecording && !shouldRecreate && recordingFilename.None?
      requires releaseThrows == inputs.releaseThrows && lockThrows == inputs.lockThrows
      modifies this, camera
      ensures prepared <==> inputs.prepareFault.None?
      ensures !isRecording && scanned == old(scanned)
      ensures shouldRecreate <==> Completed(ConfigureRecorder, inputs.prepareFault)
      ensures recordingFilename ==
        (if Completed(SetOutputFile, inputs.prepareFault) then Some(inputs.outputFile) else None)
      ensures recorderPresent <==> Completed(CreateRecorder, inputs.prepareFault) && (prepared || releaseThrows)
      ensures !Completed(CreateRecorder, inputs.prepareFault) ==> camera.locked == old(camera.locked)
      ensures Completed(CreateRecorder, inputs.prepareFault) && !Completed(UnlockCamera, inputs.prepareFault) ==>
        (camera.locked <==> old(camera.locked) || (!releaseThrows && !lockThrows))
      ensures Completed(UnlockCamera, inputs.prepareFault) ==>
        (camera.locked <==> !prepared && !releaseThrows && !lockThrows)
    {
      var fault := inputs.prepareFault;
      if fault.Some? && fault.value.CreateRecorder? {
        return false;
      }
      recorderPresent := true;
      if fault.Some? && fault.value.UnlockCamera? {
        var _ := ReleaseMediaRecorder();
        return false;
      }
      camera.locked := false;
      if fault.Some? && fault.value.ConfigureRecorder? {
        var _ := ReleaseMediaRecorder();
        return false;
      }
      shouldRecreate := true;
      if fault.Some? && (fault.value.CreateOutputFile? || fault.value.SetOutputFile?) {
        var _ := ReleaseMediaRecorder();
        return false;
      }
      recordingFilename := Some(inputs.outputFile);
      if fault.Some? {
        var _ := ReleaseMediaRecorder();
        return false;
      }
      return true;
    }

    /** `releaseMediaRecorder`: reset and release the recorder and take the
        camera lock back; `released` says whether all of that happened. The
        recorder is dropped before the lock is taken, so a throwing
        `Camera.lock` reports failure with the recorder already gone. */
    method ReleaseMediaRecorder() returns (released: bool)
      modifies this, camera
      ensures released <==> old(recorderPresent) && !releaseThrows && !lockThrows
      ensures recorderPresent <==> old(recorderPresent) && releaseThrows
      ensures camera.locked <==> old(camera.locked) || released
      ensures isRecording == old(isRecording) && shouldRecreate == old(shouldRecreate)
      ensures recordingFilename == old(recordingFilename) && scanned == old(scanned)
    {
      if recorderPresent && !releaseThrows {
        recorderPresent := false;
        if !lockThrows {
          camera.locked := true;
          return true;
        }
      }
      return false;
    }

    /** `stopRecord`: when recording, ask the media index to refresh the
        finished file, stop and release the recorder and make sure the camera
        lock is back; otherwise nothing happens. `escaped` says that the
        fallback `Camera.lock` threw out of `stopRecord`: the session is then
        left recording, with the camera still unlocked. */
    method StopRecord() returns (escaped: bool)
      requires Valid()
      modifies this, camera
      ensures Valid()
      ensures escaped <==> old(isRecording) && lockThrows
      ensures isRecording <==> escaped
      ensures shouldRecreate == old(shouldRecreate) && recordingFilename == old(recordingFilename)
      ensures old(isRecording) ==>
        scanned == old(scanned) + [old(recordingFilename).value] &&
        (camera.locked <==> !escaped) && (recorderPresent <==> old(recorderPresent) && releaseThrows)
      ensures !old(isRecording) ==>
        unchanged(this) && unchanged(camera)
    {
      escaped := false;
      if isRecording {
        scanned := scanned + [recordingFilename.value];
        var released := ReleaseMediaRecorder();
        if !released {
          if lockThrows {
            escaped := true;
            return;
          }
          camera.locked := true;
        }
        isRecording := false;
      }
    }
  }
}
