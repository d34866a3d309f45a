/**
 * `CameraHandler`: keeps one camera session open while it runs, and
 * re-creates the session a minute after it fails to open or closes.
 *
 * A delayed job posted with `postDelayed` is kept in `pendingTicks` as the
 * version it captured; `Tick(k)` runs the k-th pending job. A job acts only
 * while the handler runs and no newer job or re-create has been scheduled
 * since it was posted: every new schedule bumps `version`.
 */
module CameraHandling {
  import opened Common
  import opened CameraSession

  /** Delay of a re-create job, in milliseconds. */
  const RetryDelayMs: nat := 60000

  class CameraHandler {
    var isRunning: bool
    var version: nat
    var session: CameraSession?
    var pendingTicks: seq<nat>

    /** Jobs are posted in version order and never ahead of `version`; the
        held session keeps its own invariant. */
    ghost predicate Valid()
      reads this, session
    {
      && (forall i, j :: 0 <= i < j < |pendingTicks| ==> pendingTicks[i] < pendingTicks[j])
      && (forall i :: 0 <= i < |pendingTicks| ==> pendingTicks[i] <= version)
      && (session != null ==> session.Valid())
    }

    /** A pending job will act when it fires (unless something reschedules
        first): the last one posted captured the current version. */
    ghost predicate LiveTick()
      reads this
    {
      |pendingTicks| > 0 && pendingTicks[|pendingTicks| - 1] == version
    }

    constructor ()
      ensures Valid()
      ensures !isRunning && version == 0 && session == null && pendingTicks == []
    {
      isRunning := false;
      version := 0;
      session := null;
      pendingTicks := [];
    }

    /** `setNext`: while running, post a re-create job for the next version. */
    method SetNext()
      requires Valid()
      modifies this
      ensures Valid()
      ensures session == old(session) && isRunning == old(isRunning)
      ensures old(isRunning) ==> version == old(version) + 1 && pendingTicks == old(pendingTicks) + [version]
      ensures !old(isRunning) ==> version == old(version) && pendingTicks == old(pendingTicks)
      ensures isRunning ==> LiveTick()
    {
      if !isRunning {
        return;
      }
      version := version + 1;
      pendingTicks := pendingTicks + [version];
    }

    /** `stopRecordPrivate`: stop and drop the held session. Stopping a
        running session announces its close, and the close of the held
        session schedules a re-create. */
    method StopHeldSession() returns (closed: bool)
      requires Valid()
      modifies this, session
      ensures Valid()
      ensures session == null && isRunning == old(isRunning)
      ensures closed == (old(session) != null && old(session.state) == Running)
      ensures old(session) != null ==> old(session).state == Stopped
      ensures closed && isRunning ==> version == old(version) + 1 && pendingTicks == old(pendingTicks) + [version]
      ensures !(closed && isRunning) ==> version == old(version) && pendingTicks == old(pendingTicks)
    {
      closed := false;
      if session != null {
        closed := session.Stop();
        if closed {
          SetNext();
        }
        session := null;
      }
    }

    /** `createSession`: bump the version (cancelling every pending job),
        stop the held session, and open a new one. `onDone` keeps the new
        session, `onFailure` schedules a retry; the other outcomes schedule
        nothing. */
    method CreateSession(inputs: CreateInputs) returns (outcome: CreateOutcome)
      requires Valid()
      modifies this, session
      ensures Valid()
      ensures isRunning == old(isRunning)
      ensures old(session) != null ==> old(session).state == Stopped
      ensures outcome.Done? ==>
        fresh(session) && session.state == (if inputs.startPreview.Succeeds? then Running else Stopped)
      ensures !outcome.Done? ==> session == null
      // Every job pending before the call is stale afterwards.
      ensures version > old(version)
      ensures forall i :: 0 <= i < |old(pendingTicks)| ==> old(pendingTicks)[i] < version
      // A re-create is pending afterwards exactly when the handler runs and
      // either the old session closed or the new one failed with a report.
      ensures isRunning && ((old(session) != null && old(session.state) == Running) || outcome.Failed?) ==> LiveTick()
      ensures !(isRunning && ((old(session) != null && old(session.state) == Running) || outcome.Failed?)) ==>
        pendingTicks == old(pendingTicks) && version == old(version) + 1
    {
      version := version + 1;
      var _ := StopHeldSession();
      outcome := Create(inputs);
      if outcome.Done? {
        // The new session's own close (a failing preview) is not the held
        // session's yet, so it schedules nothing.
        session := new CameraSession(inputs.startPreview);
      } else if outcome.Failed? {
        SetNext();
      }
    }

    /** `start`: run, and open a session now. */
    method Start(inputs: CreateInputs) returns (outcome: CreateOutcome)
      requires Valid()
      modifies this, session
      ensures Valid()
      ensures isRunning
      ensures old(session) != null ==> old(session).state == Stopped
      ensures outcome.Done? ==>
        fresh(session) && session.state == (if inputs.startPreview.Succeeds? then Running else Stopped)
      ensures !outcome.Done? ==> session == null
      // Every job pending before the call is stale afterwards.
      ensures version > old(version)
      ensures forall i :: 0 <= i < |old(pendingTicks)| ==> old(pendingTicks)[i] < version
      // A re-create is pending exactly when the old session closed or the
      // open failed with a report; an unreported or escaped open has none.
      ensures ((old(session) != null && old(session.state) == Running) || outcome.Failed?) ==> LiveTick()
      ensures !((old(session) != null && old(session.state) == Running) || outcome.Failed?) ==>
        pendingTicks == old(pendingTicks) && version == old(version) + 1 && !LiveTick()
    {
      isRunning := true;
      outcome := CreateSession(inputs);
    }

    /** A posted job fires: it re-creates the session only if the handler
        runs and the job's version is still the current one. */
    method Tick(k: nat, inputs: CreateInputs) returns (outcome: Option<CreateOutcome>)
      requires Valid()
      requires k < |pendingTicks|
      modifies this, session
      ensures Valid()
      ensures isRunning == old(isRunning)
      ensures outcome.Some? <==> old(isRunning) && old(pendingTicks)[k] == old(version)
      ensures outcome.None? ==>
        session == old(session) && version == old(version) &&
        pendingTicks == old(pendingTicks)[..k] + old(pendingTicks)[k + 1..] &&
        (old(session) != null ==> unchanged(old(session)))
      // An acting job is `createSession`: the old session is stopped, every
      // other pending job goes stale, and the new session or a retry follows
      // the outcome of the open.
      ensures outcome.Some? ==> old(session) != null ==> old(session).state == Stopped
      ensures outcome.Some? && outcome.value.Done? ==>
        fresh(session) && session.state == (if inputs.startPreview.Succeeds? then Running else Stopped)
      ensures outcome.Some? && !outcome.value.Done? ==> session == null
      ensures outcome.Some? ==> forall i :: 0 <= i < |old(pendingTicks)| ==> old(pendingTicks)[i] < version
      ensures outcome.Some? && ((old(session) != null && old(session.state) == Running) || outcome.value.Failed?) ==>
        LiveTick()
      ensures outcome.Some? && !((old(session) != null && old(session.state) == Running) || outcome.value.Failed?) ==>
        version == old(version) + 1 && pendingTicks == old(pendingTicks)[..k] + old(pendingTicks)[k + 1..]
    {
      var captured := TakeJob(k);
      if isRunning && captured == version {
        var o := CreateSession(inputs);
        outcome := Some(o);
      } else {
        outcome := None;
      }
    }

    /** The k-th pending job leaves the queue as it runs; its captured
        version is returned. */
    method TakeJob(k: nat) returns (captured: nat)
      requires Valid()
      requires k < |pendingTicks|
      modifies this`pendingTicks
      ensures Valid()
      ensures captured == old(pendingTicks)[k] && captured <= version
      ensures pendingTicks == old(pendingTicks)[..k] + old(pendingTicks)[k + 1..]
    {
      captured := pendingTicks[k];
      pendingTicks := pendingTicks[..k] + pendingTicks[k + 1..];
    }

    /** The held session reports a camera fault through its error callback:
        it stops, and since it is the held session its close schedules a
        re-create. */
    method CameraFault(code: int) returns (closed: bool)
      requires Valid()
      requires session != null
      modifies this, session
      ensures Valid()
      ensures session == old(session) && isRunning == old(isRunning)
      ensures session.state == Stopped
      ensures closed == (old(session.state) == Running)
      ensures closed && isRunning ==> LiveTick()
      ensures !(closed && isRunning) ==> version == old(version) && pendingTicks == old(pendingTicks)
    {
      closed := session.OnCameraError(code);
      if closed {
        SetNext();
      }
    }

    /** `stop`: stop running and stop the held session; no pending job acts
        afterwards. */
    method Stop()
      requires Valid()
      modifies this, session
      ensures Valid()
      ensures !isRunning && session == null
      ensures old(session) != null ==> old(session).state == Stopped
      ensures version == old(version) && pendingTicks == old(pendingTicks)
    {
      isRunning := false;
      var _ := StopHeldSession();
    }
  }
}
