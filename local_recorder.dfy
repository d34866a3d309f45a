/**
 * `LocalRecorder`: while recording is on, keeps one `LocalRecordSession`
 * and rolls over to a new segment every five minutes.
 *
 * A delayed job posted with `postDelayed` is kept in `pendingTicks` as the
 * version it captured; `Tick(k)` runs the k-th pending job. A job acts only
 * while recording is on and no newer job has been posted since.
 *
 * A `Camera.lock` that throws out of the held session's `stopRecord` goes
 * on up through every caller; `escaped` reports it, and the steps after
 * the throw do not happen.
 */
module LocalRecording {
  import opened Common
  import opened RecordSession

  /** Delay of a segment job, in milliseconds (five minutes). */
  const SegmentDelayMs: nat := 300000


  /** The companion settings' initial values: recording off, no audio,
      the 1080p tier, orientation locked to code 90 (outside 0..3, so the
      frame rotation follows the display). */
  const DefaultRecord: bool := false
  const DefaultRecordAudio: bool := false
  const DefaultRecordResolution: int := 0
  const DefaultLockOrientation: int := 90

  class LocalRecorder {
    var isRecording: bool
    var version: nat
    var camera: Camera?               // the camera `startRecord` was last given
    var session: LocalRecordSession?
    var pendingTicks: seq<nat>

    /** The held session's camera, if a session is held. */
    ghost function HeldCamera(): set<object>
      reads this
    {
      if session != null then {session.camera} else {}
    }

    /** The cameras the recorder can reach: its own and the held session's. */
    ghost function Cameras(): set<object>
      reads this
    {
      (if camera != null then {camera} else {}) + HeldCamera()
    }

    /** Jobs are posted in version order and never ahead of `version`, and
        only once `startRecord` has supplied a camera; the held session keeps
        its own invariant. */
    ghost predicate Valid()
      reads this, session, Cameras()
    {
      && (forall i, j :: 0 <= i < j < |pendingTicks| ==> pendingTicks[i] < pendingTicks[j])
      && (forall i :: 0 <= i < |pendingTicks| ==> pendingTicks[i] <= version)
      && (|pendingTicks| > 0 ==> camera != null)
      && (session != null ==> session.Valid())
    }

    /** The last job posted captured the current version, so it will act. */
    ghost predicate LiveTick()
      reads this
    {
      |pendingTicks| > 0 && pendingTicks[|pendingTicks| - 1] == version
    }

    /** Stopping the held session now would throw out of `stopRecord`. */
    ghost predicate StopEscapes()
      reads this, session
    {
      session != null && session.isRecording && session.lockThrows
    }

    /** Session `s` was stopped: it no longer records, and a session that
        was not recording is untouched. */
    twostate predicate Stopped(s: LocalRecordSession?)
      reads s
    {
      s != null ==> !s.isRecording && (!old(s.isRecording) ==> unchanged(s))
    }

    /** Session `s` was stopped and nothing has used its camera since: if
        it was recording, the camera's lock is back; otherwise the camera
        is untouched. */
    twostate predicate Closed(s: LocalRecordSession?)
      reads s, if s != null then {s.camera} else {}
    {
      && Stopped(s)
      && (s != null && old(s.isRecording) ==> s.camera.locked)
      && (s != null && !old(s.isRecording) ==> unchanged(s.camera))
    }

    /** Camera `c` is untouched unless it is the camera of `s`, the session
        that was stopped. */
    twostate predicate UntouchedUnlessHeld(s: LocalRecordSession?, c: Camera)
      reads c
    {
      (s == null || s.camera != c) ==> unchanged(c)
    }

    /** A new recorder starts with `isRecording` already true. */
    constructor ()
      ensures Valid()
      ensures isRecording && version == 0 && camera == null && session == null && pendingTicks == []
    {
      isRecording := true;
      version := 0;
      camera := null;
      session := null;
      pendingTicks := [];
    }

    /** `setNext`: post the next segment job. Unlike the camera handler it
        posts even when recording is off (the job then does nothing). It is
        reached only once `startRecord` has supplied a camera. */
    method SetNext()
      requires Valid() && camera != null
      modifies this`version, this`pendingTicks
      ensures Valid()
      ensures version == old(version) + 1 && pendingTicks == old(pendingTicks) + [version]
      ensures LiveTick()
    {
      version := version + 1;
      pendingTicks := pendingTicks + [version];
    }

    /** `stopRecordPrivate`: stop and drop the held session. When its
        `stopRecord` throws, the session is kept, still recording. */
    method StopHeldSession() returns (escaped: bool)
      requires Valid()
      modifies this`session, session, HeldCamera()
      ensures Valid()
      ensures escaped <==> old(StopEscapes())
      ensures escaped ==> session == old(session) && session.isRecording && !session.camera.locked
      ensures !escaped ==> session == null && Closed(old(session))
      ensures old(session) != null && old(session.isRecording) ==>
        old(session).scanned == old(session.scanned) + [old(session.recordingFilename).value]
    {
      escaped := false;
      if session != null {
        escaped := session.StopRecord();
        if escaped {
          return;
        }
        session := null;
      }
    }

    /** `createSession`: stop the held session, then, when the `Record`
        setting is on, start a new segment on the recorder's camera and post
        its roll-over job. */
    method CreateSession(record: bool, inputs: SessionInputs) returns (escaped: bool)
      requires Valid() && camera != null
      modifies this`session, this`version, this`pendingTicks, session, HeldCamera(), camera
      ensures Valid()
      ensures escaped <==> old(StopEscapes())
      ensures escaped ==>
        session == old(session) && session.isRecording && !session.camera.locked &&
        version == old(version) && pendingTicks == old(pendingTicks)
      // The new segment shares the camera, so the old one's lock state is
      // stated only when no new segment follows or it used another camera.
      ensures !escaped ==> Stopped(old(session))
      ensures !escaped && old(session) != null && old(session).camera != camera ==> Closed(old(session))
      ensures escaped || !record ==> UntouchedUnlessHeld(old(session), camera)
      ensures !escaped && record ==>
        session != null && fresh(session) && session.camera == camera &&
        (session.isRecording <==> inputs.prepareFault.None? && !inputs.startThrows) &&
        version == old(version) + 1 && pendingTicks == old(pendingTicks) + [version]
      ensures !escaped && !record ==>
        session == null && version == old(version) && pendingTicks == old(pendingTicks) &&
        Closed(old(session))
    {
      escaped := StopHeldSession();
      if escaped {
        return;
      }
      if record {
        session := new LocalRecordSession(camera, inputs);
        SetNext();
      }
    }

    /** `startRecord`: take the camera, turn recording on and start a
        segment now. Every job pending before goes stale. */
    method StartRecord(cam: Camera, record: bool, inputs: SessionInputs) returns (escaped: bool)
      requires Valid()
      modifies this, session, HeldCamera(), cam
      ensures Valid()
      ensures isRecording && camera == cam
      ensures escaped <==> old(StopEscapes())
      ensures escaped ==>
        session == old(session) && session.isRecording && !session.camera.locked &&
        version == old(version) && pendingTicks == old(pendingTicks)
      // The new segment shares the camera, so the old one's lock state is
      // stated only when no new segment follows.
      ensures !escaped ==> Stopped(old(session))
      ensures !escaped && old(session) != null && old(session).camera != cam ==> Closed(old(session))
      ensures escaped || !record ==> UntouchedUnlessHeld(old(session), cam)
      ensures !escaped && record ==>
        session != null && fresh(session) && session.camera == cam &&
        (session.isRecording <==> inputs.prepareFault.None? && !inputs.startThrows) &&
        version == old(version) + 1 && pendingTicks == old(pendingTicks) + [version] &&
        LiveTick() && (forall i :: 0 <= i < |old(pendingTicks)| ==> old(pendingTicks)[i] < version)
      ensures !escaped && !record ==>
        session == null && version == old(version) && pendingTicks == old(pendingTicks) &&
        Closed(old(session))
    {
      camera := cam;
      isRecording := true;
      escaped := CreateSession(record, inputs);
    }

    /** A posted segment job fires. It acts only while recording is on and
        no newer job was posted. A held session that has not asked to be
        recreated is kept and only a new job is posted; otherwise the
        segment is rolled over. */
    method Tick(k: nat, record: bool, inputs: SessionInputs) returns (acted: bool, escaped: bool)
      requires Valid()
      requires k < |pendingTicks|
      modifies this`session, this`version, this`pendingTicks, session, Cameras()
      ensures Valid()
      ensures escaped ==> acted
      ensures isRecording == old(isRecording) && camera == old(camera) && camera != null
      ensures acted <==> old(isRecording) && old(pendingTicks)[k] == old(version)
      ensures !acted ==>
        session == old(session) && version == old(version) &&
        pendingTicks == old(pendingTicks)[..k] + old(pendingTicks)[k + 1..] &&
        unchanged(camera) && (old(session) != null ==> unchanged(old(session)) && unchanged(old(session).camera))
      // Keeping the segment: same session, untouched, and a fresh job.
      ensures acted && old(session) != null && !old(session.shouldRecreate) ==>
        !escaped && session == old(session) && unchanged(session) && unchanged(session.camera) && unchanged(camera) &&
        version == old(version) + 1 &&
        pendingTicks == old(pendingTicks)[..k] + old(pendingTicks)[k + 1..] + [version]
      // Rolling over: the old segment is closed, and with `Record` on a new
      // one is recording-or-failed and has its own job. A throw while closing
      // the old segment leaves it in place and posts nothing.
      ensures acted && (old(session) == null || old(session.shouldRecreate)) ==>
        (escaped <==> old(StopEscapes())) &&
        (escaped ==>
          session == old(session) && session.isRecording && version == old(version) &&
          pendingTicks == old(pendingTicks)[..k] + old(pendingTicks)[k + 1..]) &&
        (!escaped ==> Stopped(old(session))) &&
        (!escaped && old(session) != null && old(session).camera != camera ==> Closed(old(session))) &&
        (escaped || !record ==> UntouchedUnlessHeld(old(session), camera)) &&
        (!escaped && record ==>
          session != null && fresh(session) && session.camera == camera && LiveTick() &&
          (session.isRecording <==> inputs.prepareFault.None? && !inputs.startThrows) &&
          version == old(version) + 1 &&
          pendingTicks == old(pendingTicks)[..k] + old(pendingTicks)[k + 1..] + [version]) &&
        (!escaped && !record ==>
          session == null && version == old(version) && Closed(old(session)) &&
          pendingTicks == old(pendingTicks)[..k] + old(pendingTicks)[k + 1..])
    {
      var captured := TakeJob(k);
      acted := isRecording && captured == version;
      escaped := false;
      if acted {
        if session != null && !session.shouldRecreate {
          SetNext();
        } else {
          escaped := CreateSession(record, inputs);
        }
      }
    }

    /** The k-th pending job leaves the queue as it runs; its captured
        version is returned. A job exists only once a camera was supplied. */
    method TakeJob(k: nat) returns (captured: nat)
      requires Valid()
      requires k < |pendingTicks|
      modifies this`pendingTicks
      ensures Valid() && camera != null
      ensures captured == old(pendingTicks)[k] && captured <= version
      ensures pendingTicks == old(pendingTicks)[..k] + old(pendingTicks)[k + 1..]
    {
      captured := pendingTicks[k];
      pendingTicks := pendingTicks[..k] + pendingTicks[k + 1..];
    }

    /** `stopRecord`: turn recording off and close the held segment; no
        pending job acts afterwards. */
    method StopRecord() returns (escaped: bool)
      requires Valid()
      modifies this`isRecording, this`session, session, HeldCamera()
      ensures Valid()
      ensures !isRecording
      ensures version == old(version) && pendingTicks == old(pendingTicks)
      ensures escaped <==> old(StopEscapes())
      ensures escaped ==> session == old(session) && session.isRecording && !session.camera.locked
      ensures !escaped ==> session == null && Closed(old(session))
    {
      isRecording := false;
      escaped := StopHeldSession();
    }
  }
}
