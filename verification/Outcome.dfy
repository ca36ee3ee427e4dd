/** How one drive of a deployment ends, how far it can move it, and what each
    of its saves leaves in the store. */
module Outcome {
  import opened Wrappers
  import opened Lifecycle
  import opened ValueObjects
  import opened Resources
  import opened Values
  import opened Aggregate
  import opened Persistence
  import opened Ports
  import opened PlatformLayer
  import opened Publisher
  import opened Driver
  import opened Invariant

  // --- Endings ---

  lemma {:induction false} NilOnlyAfterSave(cfg: Config, docs: Docs, id: string, pc: Pc, d: Agg, a: Answer)
    requires NextDrive(cfg, docs, Driving(id, pc, d), a) == Returning(id, None)
    ensures pc.Saving? && a.ok && Dispatch(d, a.now, id) == Returning(id, None)
  {
    hide PlatformValues, Merge3, DegradedError, SaveError, MarkFailed, Moved, Ended, Stamped, WithMetadata,
      MetadataOf, BaseMetadata, ArtifactFor, SpecOf, Observed, WithArtifact, WithArgoApp, CanTransitionTo, Name,
      Dispatch;
  }

  // Execute returns nil in two ways only. Right after the load, when the stored
  // deployment is terminal or no stage of run takes its status; then nothing
  // has changed. Or after a successful save of COMPLETED.
  lemma {:induction false} ReturnsNil(cfg: Config, o: Origin, c: Conf, a: Answer)
    requires DeploymentOk(cfg, o, c)
    requires !c.drive.Returning? && DriveStep(cfg, c, a).drive == Returning(c.drive.id, None)
    ensures
      var n, id := DriveStep(cfg, c, a), c.drive.id;
      if c.drive.Loading? then
        && n.docs == c.docs && n.trace == c.trace && FindByID(c.docs, id).Ok?
        && var s := FindByID(c.docs, id).value.status;
        s == ChartComposed || s == Degraded || IsTerminal(s)
      else
        && c.drive.pc == Saving(Completed) && a.ok
        && FindByID(n.docs, id) == Ok(c.drive.d) && c.drive.d.status == Completed && c.drive.d.errMsg == ""
  {
    hide ToDoc, BuiltFor, ValidOrigin, InOrder, AllProper, PlatformValues, Evidence, Effects, Dispatch, Enter,
      NothingCleared, Reaches, Pushes, NewDeploymentID, NewComponentID, NewArgoAppName;
    var id := c.drive.id;
    match c.drive
    case Loading(_) =>
      assert Effects(cfg, c.drive, a) == [] by { LoadsQuietly(cfg, c.drive, a); }
      GuardsNeverFire(Last(c.docs, id), a.now, id);
    case Driving(_, pc, d) =>
      hide FromDoc, NextDrive;
      NilOnlyAfterSave(cfg, c.docs, id, pc, d, a);
      SaveKeeps(id, o, d, c.docs, c.trace, a);
      GuardsNeverFire(d, a.now, id);
  }

  lemma LoadsQuietly(cfg: Config, drive: Drive, a: Answer)
    requires drive.Loading?
    ensures Effects(cfg, drive, a) == []
  {
  }

  lemma {:induction false} FailureMarks(cfg: Config, docs: Docs, id: string, pc: Pc, d: Agg, a: Answer)
    requires !pc.SavingFailure? && NextDrive(cfg, docs, Driving(id, pc, d), a).Driving?
    requires NextDrive(cfg, docs, Driving(id, pc, d), a).pc.SavingFailure?
    requires !Dispatch(d, a.now, id).Driving? || !Dispatch(d, a.now, id).pc.SavingFailure?
    ensures
      var f := NextDrive(cfg, docs, Driving(id, pc, d), a);
      f.d.errMsg == f.pc.msg && f.d.status == if CanTransitionTo(d.status, Failed) then Failed else d.status
  {
    hide PlatformValues, DegradedError, SaveError, MetadataOf, ArtifactFor, SpecOf, Name, Dispatch, Composed,
      CanTransitionTo, DeriveID, NewDeploymentVersion;
  }

  // A drive that fails holds FAILED in memory, with the error, unless it was
  // the save of COMPLETED that failed: then the deployment stays COMPLETED and
  // carries the error all the same.
  lemma {:induction false} FailsAsFailed(cfg: Config, o: Origin, c: Conf, a: Answer)
    requires DeploymentOk(cfg, o, c) && c.drive.Driving? && !c.drive.pc.SavingFailure?
    requires DriveStep(cfg, c, a).drive.Driving? && DriveStep(cfg, c, a).drive.pc.SavingFailure?
    ensures
      var d := DriveStep(cfg, c, a).drive.d;
      && d.errMsg == DriveStep(cfg, c, a).drive.pc.msg
      && d.status == if c.drive.pc == Saving(Completed) then Completed else Failed
  {
    hide FromDoc, ToDoc, BuiltFor, ValidOrigin, InOrder, AllProper, PlatformValues, Evidence, Faithful, Reaches,
      NothingCleared, Pushes, Effects, StoreOk, NextDrive, NextDocs, Dispatch, ComposedFrom, Enter;
    GuardsNeverFire(c.drive.d, a.now, c.drive.id);
    FailureMarks(cfg, c.docs, c.drive.id, c.drive.pc, c.drive.d, a);
  }

  // Everything about a deployment holds along a whole drive of it.
  lemma {:induction false} DriveKeeps(cfg: Config, o: Origin, c: Conf, answers: seq<Answer>)
    requires DeploymentOk(cfg, o, c)
    ensures DeploymentOk(cfg, o, DriveRun(cfg, c, answers)) && DriveRun(cfg, c, answers).drive.id == c.drive.id
  {
    hide DeploymentOk, DriveStep;
    if answers != [] {
      DriveKeeps(cfg, o, c, answers[..|answers| - 1]);
      StepKeeps(cfg, o, DriveRun(cfg, c, answers[..|answers| - 1]), answers[|answers| - 1]);
    }
  }

  // The outcome of a whole Execute that returns nil: the stored deployment was
  // terminal, or at one of the two statuses no stage takes, and nothing changed;
  // or it is stored COMPLETED, without an error.
  ghost predicate NilOutcome(id: string, before: Conf, after: Conf) {
    || (FindByID(after.docs, id).Ok? && FindByID(after.docs, id).value.status == Completed
        && FindByID(after.docs, id).value.errMsg == "")
    || (&& after.docs == before.docs && after.trace == before.trace && FindByID(before.docs, id).Ok?
        && var s := FindByID(before.docs, id).value.status;
        s == ChartComposed || s == Degraded || IsTerminal(s))
  }

  lemma {:induction false} NilMeansDone(cfg: Config, o: Origin, c: Conf, answers: seq<Answer>)
    requires DeploymentOk(cfg, o, c) && c.drive.Loading?
    requires DriveRun(cfg, c, answers).drive == Returning(c.drive.id, None)
    ensures NilOutcome(c.drive.id, c, DriveRun(cfg, c, answers))
  {
    hide DeploymentOk, FindByID, DriveStep;
    var front := answers[..|answers| - 1];
    var last := DriveRun(cfg, c, front);
    DriveKeeps(cfg, o, c, front);
    if last.drive.Returning? {
      ReturningStays(cfg, last, answers[|answers| - 1]);
      NilMeansDone(cfg, o, c, front);
    } else {
      if last.drive.Loading? {
        OnlyStartLoads(cfg, c, front);
      }
      NilFound(cfg, o, last, answers[|answers| - 1]);
    }
  }

  lemma {:induction false} NilFound(cfg: Config, o: Origin, c: Conf, a: Answer)
    requires DeploymentOk(cfg, o, c)
    requires !c.drive.Returning? && DriveStep(cfg, c, a).drive == Returning(c.drive.id, None)
    ensures if c.drive.Loading? then NilOutcome(c.drive.id, c, DriveStep(cfg, c, a))
            else FindByID(DriveStep(cfg, c, a).docs, c.drive.id).Ok?
                 && FindByID(DriveStep(cfg, c, a).docs, c.drive.id).value.status == Completed
                 && FindByID(DriveStep(cfg, c, a).docs, c.drive.id).value.errMsg == ""
  {
    hide DeploymentOk, FindByID, DriveStep;
    ReturnsNil(cfg, o, c, a);
  }

  // The drive before answer n holds the failure e: it has marked the deployment
  // FAILED with that error, or the failed call was the save of COMPLETED and
  // the deployment stays COMPLETED with the error. It is about to save it.
  ghost predicate Failing(cfg: Config, c: Conf, answers: seq<Answer>, n: nat, e: string)
    requires 0 < n <= |answers|
  {
    var before, now := DriveRun(cfg, c, answers[..n - 1]), DriveRun(cfg, c, answers[..n]);
    && before.drive.Driving? && now.drive.Driving? && now.drive.pc == SavingFailure(e)
    && now.drive.d.errMsg == e
    && now.drive.d.status == (if before.drive.pc == Saving(Completed) then Completed else Failed)
  }

  predicate NotFound(c: Conf, answers: seq<Answer>) {
    answers != [] && (!answers[0].ok || FindByID(c.docs, c.drive.id).Err?)
  }

  // Answer n was that to the save of a failure, and nothing has happened since.
  ghost predicate EndedBySaving(cfg: Config, c: Conf, answers: seq<Answer>, n: nat, e: string) {
    && 0 < n < |answers| && Failing(cfg, c, answers, n, e)
    && var last, after := DriveRun(cfg, c, answers[..n]), DriveRun(cfg, c, answers);
    after.docs == SaveAnswered(last.docs, last.drive.d, answers[n]) && after.trace == last.trace
  }

  // The outcome of a whole Execute that returns an error e: the load failed and
  // nothing changed; or the last thing done was to save the failure, and that
  // save was applied or not.
  ghost predicate ErrorOutcome(cfg: Config, c: Conf, answers: seq<Answer>, e: string) {
    var after := DriveRun(cfg, c, answers);
    || (NotFound(c, answers) && after.docs == c.docs && after.trace == c.trace)
    || exists n :: EndedBySaving(cfg, c, answers, n, e)
  }

  lemma {:induction false} ErrorComes(cfg: Config, c: Conf, a: Answer, e: string)
    requires !c.drive.Returning? && DriveStep(cfg, c, a).drive == Returning(c.drive.id, Some(e))
    ensures c.drive.Loading? ==>
      && (!a.ok || FindByID(c.docs, c.drive.id).Err?)
      && DriveStep(cfg, c, a) == Conf(Returning(c.drive.id, Some(e)), c.docs, c.trace)
    ensures c.drive.Driving? ==>
      && c.drive.pc == SavingFailure(e)
      && DriveStep(cfg, c, a).docs == SaveAnswered(c.docs, c.drive.d, a) && DriveStep(cfg, c, a).trace == c.trace
  {
    hide PlatformValues, SaveError, MetadataOf, ArtifactFor, SpecOf, CanTransitionTo, Composed, FindByID,
      SaveAnswered, BaseMetadata, Ended, DegradedError, Name, Moved, MarkFailed, Stamped, WithArtifact,
      WithArgoApp, Observed, WithMetadata;
    assert c.trace + [] == c.trace;
  }

  lemma {:induction false} ErrorMeansFailed(cfg: Config, o: Origin, c: Conf, answers: seq<Answer>, e: string)
    requires DeploymentOk(cfg, o, c) && c.drive.Loading?
    requires DriveRun(cfg, c, answers).drive == Returning(c.drive.id, Some(e))
    ensures ErrorOutcome(cfg, c, answers, e)
  {
    hide DeploymentOk, DriveStep, SaveAnswered, FindByID, Failing, EndedBySaving;
    var front, a := answers[..|answers| - 1], answers[|answers| - 1];
    var last := DriveRun(cfg, c, front);
    DriveKeeps(cfg, o, c, front);
    if last.drive.Returning? {
      ReturningStays(cfg, last, a);
      ErrorMeansFailed(cfg, o, c, front, e);
      if n :| EndedBySaving(cfg, c, front, n, e) {
        StillEnded(cfg, c, answers, n, e);
      } else {
        assert answers[0] == front[0];
      }
    } else {
      ErrorComes(cfg, last, a, e);
      if last.drive.Loading? {
        OnlyStartLoads(cfg, c, front);
      } else {
        FailureHeld(cfg, o, c, front, e);
        EndsBySaving(cfg, c, answers, e);
      }
    }
  }

  lemma {:induction false} StillEnded(cfg: Config, c: Conf, answers: seq<Answer>, n: nat, e: string)
    requires answers != [] && EndedBySaving(cfg, c, answers[..|answers| - 1], n, e)
    requires DriveRun(cfg, c, answers) == DriveRun(cfg, c, answers[..|answers| - 1])
    ensures EndedBySaving(cfg, c, answers, n, e)
  {
    var front := answers[..|answers| - 1];
    assert answers[..n] == front[..n] && answers[..n - 1] == front[..n - 1] && answers[n] == front[n];
    hide DriveRun, SaveAnswered;
  }

  lemma {:induction false} EndsBySaving(cfg: Config, c: Conf, answers: seq<Answer>, e: string)
    requires |answers| > 1 && Failing(cfg, c, answers[..|answers| - 1], |answers| - 1, e)
    requires
      var last := DriveRun(cfg, c, answers[..|answers| - 1]);
      && last.drive.Driving?
      && DriveRun(cfg, c, answers).docs == SaveAnswered(last.docs, last.drive.d, answers[|answers| - 1])
      && DriveRun(cfg, c, answers).trace == last.trace
    ensures EndedBySaving(cfg, c, answers, |answers| - 1, e)
  {
    var n := |answers| - 1;
    var front := answers[..n];
    assert front[..n] == front && answers[..n - 1] == front[..n - 1];
    hide DriveRun, SaveAnswered;
  }

  // How a drive comes to hold a failure.
  lemma {:induction false} FailureHeld(cfg: Config, o: Origin, c: Conf, answers: seq<Answer>, e: string)
    requires DeploymentOk(cfg, o, c) && c.drive.Loading?
    requires DriveRun(cfg, c, answers).drive.Driving? && DriveRun(cfg, c, answers).drive.pc == SavingFailure(e)
    ensures answers != [] && Failing(cfg, c, answers, |answers|, e)
  {
    hide DeploymentOk, DriveStep;
    var front, a := answers[..|answers| - 1], answers[|answers| - 1];
    var last := DriveRun(cfg, c, front);
    DriveKeeps(cfg, o, c, front);
    assert answers[..|answers|] == answers;
    FailureComes(cfg, o, last, a);
    FailsAsFailed(cfg, o, last, a);
  }

  lemma {:induction false} FailureComes(cfg: Config, o: Origin, c: Conf, a: Answer)
    requires DeploymentOk(cfg, o, c)
    requires DriveStep(cfg, c, a).drive.Driving? && DriveStep(cfg, c, a).drive.pc.SavingFailure?
    ensures c.drive.Driving? && !c.drive.pc.SavingFailure?
  {
    hide DeploymentOk, NextDrive, NextDocs, Effects;
    match c.drive
    case Loading(_) => LoadsWithoutFailure(cfg, o, c, a);
    case Driving(id, pc, d) => FailureReturns(cfg, c.docs, c.drive, a);
    case Returning(_, _) => ReturningStays(cfg, c, a);
  }

  lemma FailureReturns(cfg: Config, docs: Docs, drive: Drive, a: Answer)
    requires drive.Driving?
    ensures drive.pc.SavingFailure? ==> NextDrive(cfg, docs, drive, a).Returning?
  {
  }

  lemma {:induction false} LoadsWithoutFailure(cfg: Config, o: Origin, c: Conf, a: Answer)
    requires DeploymentOk(cfg, o, c) && c.drive.Loading?
    ensures
      var next := NextDrive(cfg, c.docs, c.drive, a);
      next.Driving? ==> !next.pc.SavingFailure?
  {
    hide FromDoc, ValidOrigin, InOrder, AllProper, Evidence, WellFormed, Dispatch, Enter, Pushes;
    if FindByID(c.docs, c.drive.id).Ok? {
      GuardsNeverFire(FindByID(c.docs, c.drive.id).value, a.now, c.drive.id);
    }
  }

  // --- Refusals ---

  // The values key is needed, to bind a database, and is not known.
  predicate Keyless(o: Origin, appValuesKey: string) {
    o.resources != [] && appValuesKey == ""
  }

  // The answer to the call a drive waits for ends it: the call failed, or there
  // is nothing to compose, or no key to bind under, or DEGRADED has been saved.
  // Only the save of a poll may fail.
  predicate Refuses(drive: Drive, a: Answer)
    requires drive.Driving?
  {
    match drive.pc
    case Saving(next) => !a.ok || next == Degraded
    case Resolving => !a.ok || (drive.d.status == ChartResolved && Keyless(drive.d.origin, a.resolved.appValuesKey))
    case SavingResolved(archive, key) => !a.ok || (archive.Some? && Keyless(drive.d.origin, key))
    case Composing(archive, _) => !a.ok || archive.None?
    case SavingComposed(_) => !a.ok
    case Publishing(_) => !a.ok
    case CheckingProject => !a.ok
    case Creating => !a.ok
    case StartingSync => !a.ok
    case Polling => !a.ok
    case SavingPoll => false
    case Waiting => !a.timedOut && !a.ok
    case SavingFailure(_) => false
  }

  // A drive fails on exactly the answers that refuse it.
  lemma {:induction false} FailsIffRefused(cfg: Config, o: Origin, c: Conf, a: Answer)
    requires DeploymentOk(cfg, o, c) && c.drive.Driving?
    ensures
      var n := DriveStep(cfg, c, a).drive;
      (n.Driving? && n.pc.SavingFailure?) <==> Refuses(c.drive, a)
  {
    hide StoreOk, AllProper, InOrder, ValidOrigin, NextDrive, NextDocs, Effects, Pushes, Refuses, FromDoc,
      Evidence, Reaches, NothingCleared, WellFormed, ComposedFrom, ResolvedAs;
    var pc, d := c.drive.pc, c.drive.d;
    if pc.Saving? {
      SavingRefused(cfg, o, c.docs, c.drive, a);
    } else if pc.Resolving? || pc.SavingResolved? || pc.Composing? {
      hide PcOk, Grounded;
      ArchiveRefused(cfg, o, c, a);
    } else {
      hide Grounded;
      CallRefused(cfg, o, c.docs, c.drive, a);
    }
  }

  lemma {:induction false} SavingRefused(cfg: Config, o: Origin, docs: Docs, drive: Drive, a: Answer)
    requires drive.Driving? && drive.pc.Saving? && WellFormed(drive.d)
    ensures
      var n := NextDrive(cfg, docs, drive, a);
      (n.Driving? && n.pc.SavingFailure?) <==> Refuses(drive, a)
  {
    hide Dispatch, WellFormed, MarkFailed, SaveError, DegradedError;
    GuardsNeverFire(drive.d, a.now, drive.id);
  }

  lemma KeylessIff(o: Origin, key: string)
    ensures PlatformValues(o, key).Err? <==> Keyless(o, key)
  {
  }

  lemma {:induction false} ArchiveRefused(cfg: Config, o: Origin, c: Conf, a: Answer)
    requires DeploymentOk(cfg, o, c) && c.drive.Driving?
    requires c.drive.pc.Resolving? || c.drive.pc.SavingResolved? || c.drive.pc.Composing?
    ensures
      var n := NextDrive(cfg, c.docs, c.drive, a);
      (n.Driving? && n.pc.SavingFailure?) <==> Refuses(c.drive, a)
  {
    hide StoreOk, AllProper, InOrder, ValidOrigin, Effects, Pushes, FromDoc, Evidence, Reaches, NothingCleared,
      WellFormed, PlatformValues, MarkFailed, Stamped, SaveError, Name, Keyless, LastResolved, Merge3,
      NewDeploymentVersion;
    var pc, d := c.drive.pc, c.drive.d;
    match pc {
      case Resolving =>
        KeylessIff(d.origin, a.resolved.appValuesKey);
        StampsStatus(d, a.resolved, a.now);
      case SavingResolved(_, key) => KeylessIff(d.origin, key);
      case Composing(_, _) =>
        var r := LastResolved(c.drive.id, c.trace).value;
        VersionsAreSome(r.version, ShortSHA(o.source), o.startedAt);
    }
  }

  lemma StampsStatus(d: Agg, r: ResolvedChart, now: Timestamp)
    ensures Stamped(d, r, now).status == d.status && Stamped(d, r, now).origin == d.origin
  {
  }

  lemma VersionsAreSome(chartVersion: string, shortSHA: string, ts: Timestamp)
    ensures NewDeploymentVersion(chartVersion, shortSHA, ts) != ""
  {
    assert "-" <= NewDeploymentVersion(chartVersion, shortSHA, ts)[|chartVersion|..];
  }

  lemma {:induction false} CallRefused(cfg: Config, o: Origin, docs: Docs, drive: Drive, a: Answer)
    requires drive.Driving? && WellFormed(drive.d) && exists stored :: PcOk(drive.pc, o, drive.d, stored)
    requires !drive.pc.Saving? && !drive.pc.Resolving? && !drive.pc.SavingResolved? && !drive.pc.Composing?
    ensures
      var n := NextDrive(cfg, docs, drive, a);
      (n.Driving? && n.pc.SavingFailure?) <==> Refuses(drive, a)
  {
    hide DeriveID, AppName, ComposedFrom, MarkFailed, Name, SaveError, SpecOf, ArtifactFor, MetadataOf;
  }

  ghost predicate RefusedAt(cfg: Config, c: Conf, answers: seq<Answer>, n: nat) {
    && n < |answers|
    && var drive := DriveRun(cfg, c, answers[..n]).drive;
    drive.Driving? && Refuses(drive, answers[n])
  }

  // After a refusal a drive does nothing more outside, and returns an error once
  // the save of its failure is answered.
  lemma {:induction false} RefusalEnds(cfg: Config, o: Origin, c: Conf, answers: seq<Answer>, n: nat)
    requires DeploymentOk(cfg, o, c) && RefusedAt(cfg, c, answers, n)
    ensures DriveRun(cfg, c, answers).trace == DriveRun(cfg, c, answers[..n + 1]).trace
    ensures
      var end := DriveRun(cfg, c, answers).drive;
      if |answers| == n + 1 then end.Driving? && end.pc.SavingFailure? else end.Returning? && end.error.Some?
  {
    hide DeploymentOk, DriveStep, Refuses;
    var front, a := answers[..|answers| - 1], answers[|answers| - 1];
    var last := DriveRun(cfg, c, front);
    DriveKeeps(cfg, o, c, front);
    if |answers| == n + 1 {
      assert answers[..n + 1] == answers && front == answers[..n];
      FailsIffRefused(cfg, o, last, a);
    } else {
      assert front[..n] == answers[..n] && front[..n + 1] == answers[..n + 1];
      RefusalEnds(cfg, o, c, front, n);
      if last.drive.Returning? {
        ReturningStays(cfg, last, a);
      } else {
        FailureReturnsError(cfg, last, a);
      }
    }
  }

  lemma FailureReturnsError(cfg: Config, c: Conf, a: Answer)
    requires c.drive.Driving? && c.drive.pc.SavingFailure?
    ensures
      var n := DriveStep(cfg, c, a);
      n.drive == Returning(c.drive.id, Some(c.drive.pc.msg)) && n.trace == c.trace
  {
    assert c.trace + [] == c.trace;
  }

  // So a drive that returns nil was refused nothing.
  lemma {:induction false} NilMeansUnrefused(cfg: Config, o: Origin, c: Conf, answers: seq<Answer>, n: nat)
    requires DeploymentOk(cfg, o, c) && DriveRun(cfg, c, answers).drive == Returning(c.drive.id, None)
    ensures !RefusedAt(cfg, c, answers, n)
  {
    hide DeploymentOk, DriveRun, RefusedAt;
    if RefusedAt(cfg, c, answers, n) {
      RefusalEnds(cfg, o, c, answers, n);
      assert false;
    }
  }

  // What the load decides: not found, nothing to do, or a drive that has not
  // failed yet.
  lemma {:induction false} LoadDecides(cfg: Config, o: Origin, c: Conf, a: Answer)
    requires DeploymentOk(cfg, o, c) && c.drive.Loading?
    ensures
      var n, found := DriveStep(cfg, c, a), FindByID(c.docs, c.drive.id);
      && n.docs == c.docs && n.trace == c.trace
      && (if !a.ok || found.Err? then n.drive.Returning? && n.drive.error.Some?
          else
            var s := found.value.status;
            if s == ChartComposed || s == Degraded || IsTerminal(s) then n.drive == Returning(c.drive.id, None)
            else n.drive.Driving? && !n.drive.pc.SavingFailure?)
  {
    hide FromDoc, ValidOrigin, InOrder, AllProper, Evidence, WellFormed, Dispatch, Enter, Pushes;
    assert c.trace + [] == c.trace;
    if FindByID(c.docs, c.drive.id).Ok? {
      GuardsNeverFire(FindByID(c.docs, c.drive.id).value, a.now, c.drive.id);
    }
  }

  // --- A completed deployment with an error ---

  ghost predicate CompletedInError(docs: Docs, id: string) {
    FindByID(docs, id).Ok? && FindByID(docs, id).value.status == Completed && FindByID(docs, id).value.errMsg != ""
  }

  // Answer n - 1 refused the save of COMPLETED, and the save of that failure,
  // which answer n is to, was applied.
  ghost predicate CompletionLost(cfg: Config, c: Conf, answers: seq<Answer>, n: nat) {
    && 0 < n < |answers|
    && var before := DriveRun(cfg, c, answers[..n - 1]).drive;
    && before.Driving? && before.pc == Saving(Completed)
    && !answers[n - 1].ok && (answers[n].ok || answers[n].applied)
  }

  // A drive leaves a COMPLETED record with an error exactly when its completing
  // save reports an error and the save of that failure goes through: the mark
  // as FAILED is refused, and the record is saved all the same.
  lemma {:induction false} CompletedInErrorIff(cfg: Config, o: Origin, c: Conf, answers: seq<Answer>)
    requires DeploymentOk(cfg, o, c) && c.drive.Loading? && !CompletedInError(c.docs, c.drive.id)
    ensures CompletedInError(DriveRun(cfg, c, answers).docs, c.drive.id) <==>
            exists n :: CompletionLost(cfg, c, answers, n)
  {
    hide DeploymentOk, CompletedInError, CompletionLost, DriveRun;
    if CompletedInError(DriveRun(cfg, c, answers).docs, c.drive.id) {
      var n := LostIfInError(cfg, o, c, answers);
    }
    if n :| CompletionLost(cfg, c, answers, n) {
      InErrorIfLost(cfg, o, c, answers, n);
    }
  }

  lemma {:induction false} LostIfInError(cfg: Config, o: Origin, c: Conf, answers: seq<Answer>) returns (n: nat)
    requires DeploymentOk(cfg, o, c) && c.drive.Loading? && !CompletedInError(c.docs, c.drive.id)
    requires CompletedInError(DriveRun(cfg, c, answers).docs, c.drive.id)
    ensures CompletionLost(cfg, c, answers, n)
  {
    hide DeploymentOk, CompletedInError, DriveStep, Failing;
    var front, a := answers[..|answers| - 1], answers[|answers| - 1];
    var last := DriveRun(cfg, c, front);
    DriveKeeps(cfg, o, c, front);
    if CompletedInError(last.docs, c.drive.id) {
      n := LostIfInError(cfg, o, c, front);
      assert answers[..n - 1] == front[..n - 1] && answers[n - 1] == front[n - 1] && answers[n] == front[n];
    } else {
      ErrorIsSaved(cfg, o, last, a);
      n := |front|;
      FailureHeld(cfg, o, c, front, last.drive.pc.msg);
      CompletionRefused(cfg, o, c, front, last.drive.pc.msg);
      assert answers[..n - 1] == front[..n - 1] && answers[n - 1] == front[n - 1];
    }
  }

  // Only the save of a failure brings the error of a completed deployment into
  // the store.
  lemma {:induction false} ErrorIsSaved(cfg: Config, o: Origin, c: Conf, a: Answer)
    requires DeploymentOk(cfg, o, c) && !CompletedInError(c.docs, c.drive.id)
    requires CompletedInError(DriveStep(cfg, c, a).docs, c.drive.id)
    ensures c.drive.Driving? && c.drive.pc.SavingFailure? && c.drive.d.status == Completed && (a.ok || a.applied)
  {
    hide FromDoc, ToDoc, BuiltFor, ValidOrigin, InOrder, AllProper, PlatformValues, ComposedFrom, Evidence,
      WellFormed, NextDrive, Effects, SaveAnswered, Pushes, MetadataOf;
    if c.drive.Driving? && Saves(c.drive.pc) {
      SaveKeeps(c.drive.id, o, c.drive.d, c.docs, c.trace, a);
    }
  }

  // A drive that holds the failure of a completed deployment had its completing
  // save refused.
  lemma {:induction false} CompletionRefused(cfg: Config, o: Origin, c: Conf, answers: seq<Answer>, e: string)
    requires DeploymentOk(cfg, o, c) && answers != [] && Failing(cfg, c, answers, |answers|, e)
    requires DriveRun(cfg, c, answers).drive.Driving? && DriveRun(cfg, c, answers).drive.d.status == Completed
    ensures DriveRun(cfg, c, answers[..|answers| - 1]).drive.Driving?
    ensures DriveRun(cfg, c, answers[..|answers| - 1]).drive.pc == Saving(Completed) && !answers[|answers| - 1].ok
  {
    var front, a := answers[..|answers| - 1], answers[|answers| - 1];
    var before := DriveRun(cfg, c, front);
    assert answers[..|answers|] == answers;
    hide DeploymentOk, DriveStep;
    DriveKeeps(cfg, o, c, front);
    if a.ok {
      CompletedReturns(cfg, o, before, a);
      assert false;
    }
  }

  lemma {:induction false} CompletedReturns(cfg: Config, o: Origin, c: Conf, a: Answer)
    requires DeploymentOk(cfg, o, c) && c.drive.Driving? && c.drive.pc == Saving(Completed) && a.ok
    ensures DriveStep(cfg, c, a).drive.Returning?
  {
    hide StoreOk, AllProper, InOrder, ValidOrigin, WellFormed, Evidence, NextDocs, Effects, Pushes;
  }

  lemma {:induction false} InErrorIfLost(cfg: Config, o: Origin, c: Conf, answers: seq<Answer>, n: nat)
    requires DeploymentOk(cfg, o, c) && CompletionLost(cfg, c, answers, n)
    ensures CompletedInError(DriveRun(cfg, c, answers).docs, c.drive.id)
  {
    hide DeploymentOk, DriveStep, CompletedInError;
    var upTo, before := answers[..n + 1], DriveRun(cfg, c, answers[..n - 1]);
    DriveKeeps(cfg, o, c, answers[..n - 1]);
    CompletedCarriesError(cfg, o, before, answers[n - 1], answers[n]);
    assert answers[..n][..n - 1] == answers[..n - 1] && upTo[..n] == answers[..n];
    ReturnedForever(cfg, c, answers, n + 1);
  }

  lemma {:induction false} ReturnedForever(cfg: Config, c: Conf, answers: seq<Answer>, n: nat)
    requires n <= |answers| && DriveRun(cfg, c, answers[..n]).drive.Returning?
    ensures DriveRun(cfg, c, answers) == DriveRun(cfg, c, answers[..n])
  {
    hide DriveStep;
    if n == |answers| {
      assert answers[..n] == answers;
    } else {
      var front := answers[..|answers| - 1];
      assert front[..n] == answers[..n];
      ReturnedForever(cfg, c, front, n);
      ReturningStays(cfg, DriveRun(cfg, c, front), answers[|answers| - 1]);
    }
  }

  // The two steps that lose it.
  lemma {:induction false} CompletedCarriesError(cfg: Config, o: Origin, c: Conf, a: Answer, b: Answer)
    requires DeploymentOk(cfg, o, c) && c.drive.Driving? && c.drive.pc == Saving(Completed)
    requires !a.ok && (b.ok || b.applied)
    ensures
      var n := DriveStep(cfg, DriveStep(cfg, c, a), b);
      && CompletedInError(n.docs, c.drive.id)
      && FindByID(n.docs, c.drive.id).value.errMsg == "save completed: " + a.err
      && n.drive == Returning(c.drive.id, Some("save completed: " + a.err))
  {
    hide DeploymentOk, FindByID, SaveAnswered, Effects;
    var failing := DriveStep(cfg, c, a);
    StepKeeps(cfg, o, c, a);
    CompletingFails(cfg, o, c, a);
    StoreAdvances(cfg, o, failing, b);
  }

  lemma {:induction false} CompletingFails(cfg: Config, o: Origin, c: Conf, a: Answer)
    requires DeploymentOk(cfg, o, c) && c.drive.Driving? && c.drive.pc == Saving(Completed) && !a.ok
    ensures
      var msg := "save completed: " + a.err;
      var drive := DriveStep(cfg, c, a).drive;
      drive == Driving(c.drive.id, SavingFailure(msg), c.drive.d.(errMsg := msg)) && drive.d.status == Completed
  {
    hide StoreOk, AllProper, InOrder, ValidOrigin, WellFormed, Evidence, SaveAnswered, NextDocs, Effects;
    assert SaveError(Completed, a.err) == "save completed: " + a.err;
  }

  lemma ReturningStays(cfg: Config, c: Conf, a: Answer)
    requires c.drive.Returning?
    ensures DriveStep(cfg, c, a) == c
  {
    assert c.trace + [] == c.trace;
  }

  lemma {:induction false} OnlyStartLoads(cfg: Config, c: Conf, answers: seq<Answer>)
    requires DriveRun(cfg, c, answers).drive.Loading?
    ensures answers == []
  {
    if answers != [] {
      var last := DriveRun(cfg, c, answers[..|answers| - 1]);
      var a := answers[|answers| - 1];
      hide NextDrive, NextDocs, Effects;
      NeverLoads(cfg, last.docs, last.drive, a);
    }
  }

  lemma NeverLoads(cfg: Config, docs: Docs, drive: Drive, a: Answer)
    ensures !NextDrive(cfg, docs, drive, a).Loading?
  {
    match drive {
      case Loading(id) =>
        if FindByID(docs, id).Ok? {
          EnterOneEdge(FindByID(docs, id).value, a.now, id);
        }
        hide Enter, FindByID;
      case Driving(id, pc, d) =>
        DriveOneEdge(cfg, docs, id, pc, d, a);
        hide NextDrive;
      case Returning(_, _) =>
    }
  }

  // --- Distance ---

  function StatusHeld(c: Conf): Option<Status> {
    match c.drive
    case Loading(id) => (match FindByID(c.docs, id) case Ok(a) => Some(a.status) case Err(_) => None)
    case Driving(_, _, d) => Some(d.status)
    case Returning(_, _) => None
  }

  // The transitions a step can still be followed by.
  function Ahead(c: Conf): nat {
    match StatusHeld(c) case Some(s) => Remaining(s) case None => 0
  }

  // Whether a step moves the deployment to another status.
  function Moves(cfg: Config, c: Conf, a: Answer): nat {
    var s, t := StatusHeld(c), StatusHeld(DriveStep(cfg, c, a));
    if s.Some? && t.Some? && s != t then 1 else 0
  }

  function AllMoves(cfg: Config, c: Conf, answers: seq<Answer>): nat {
    if answers == [] then 0
    else
      var front := answers[..|answers| - 1];
      AllMoves(cfg, c, front) + Moves(cfg, DriveRun(cfg, c, front), answers[|answers| - 1])
  }

  predicate OneEdge(s: Status, drive: Drive) {
    !drive.Loading? && (drive.Driving? ==> drive.d.status == s || CanTransitionTo(s, drive.d.status))
  }

  lemma {:induction false} EnterOneEdge(d: Agg, now: Timestamp, id: string)
    ensures OneEdge(d.status, Enter(d, now, id)) && OneEdge(d.status, Dispatch(d, now, id))
  {
    hide Dispatch, CanTransitionTo;
    if d.status == Received || d.status == Validating || d.status == Healthy {
      MovingStages(d, now, id);
    } else {
      CallingStages(d, now, id);
    }
  }

  lemma {:induction false} MovingStages(d: Agg, now: Timestamp, id: string)
    requires d.status == Received || d.status == Validating || d.status == Healthy
    ensures OneEdge(d.status, Dispatch(d, now, id))
  {
    hide BaseMetadata, DeriveID, Name, CanTransitionTo;
  }

  lemma {:induction false} CallingStages(d: Agg, now: Timestamp, id: string)
    requires d.status != Received && d.status != Validating && d.status != Healthy
    ensures OneEdge(d.status, Dispatch(d, now, id))
  {
    hide CanTransitionTo, StepTo, WithMetadata;
  }

  // Failing and stepping follow an edge or stay, and nothing else moves.
  lemma {:induction false} MovesOneEdge(s: Status)
    ensures forall d: Agg, msg: string, now: Timestamp, id: string ::
      d.status == s ==> OneEdge(s, FailWith(d, msg, now, id))
    ensures forall d: Agg, next: Status, pc: Pc, now: Timestamp, id: string ::
      d.status == s ==> OneEdge(s, StepTo(d, next, pc, now, id))
    ensures forall id: string, pc: Pc, d: Agg :: d.status == s ==> OneEdge(s, Driving(id, pc, d))
    ensures forall id: string, error: Option<string> :: OneEdge(s, Returning(id, error))
  {
    hide CanTransitionTo, Name;
  }

  lemma {:induction false} AnswersOneEdge(d: Agg, next: Status, a: Answer, id: string)
    ensures OneEdge(d.status, AfterResolve(d, a, id))
    ensures OneEdge(d.status, AfterSave(d, next, a, id))
    ensures OneEdge(d.status, AfterPoll(d, a.now, id))
  {
    hide PlatformValues, MetadataOf, Dispatch, CanTransitionTo, DeriveID, NewDeploymentVersion, StepTo,
      FailWith, OneEdge;
    EnterOneEdge(d, a.now, id);
    MovesOneEdge(d.status);
  }

  lemma {:induction false} SavingOneEdge(cfg: Config, docs: Docs, id: string, pc: Pc, d: Agg, a: Answer)
    requires Saves(pc)
    ensures OneEdge(d.status, NextDrive(cfg, docs, Driving(id, pc, d), a))
  {
    hide PlatformValues, SaveError, AfterResolve, AfterSave, AfterPoll, Dispatch, StepTo, FailWith, OneEdge,
      Composed, SpecOf, ArtifactFor, WithArtifact, WithArgoApp, Observed, CanTransitionTo, MetadataOf;
    AnswersOneEdge(d, if pc.Saving? then pc.next else Received, a, id);
    MovesOneEdge(d.status);
  }

  lemma {:induction false} DriveOneEdge(cfg: Config, docs: Docs, id: string, pc: Pc, d: Agg, a: Answer)
    ensures OneEdge(d.status, NextDrive(cfg, docs, Driving(id, pc, d), a))
  {
    hide PlatformValues, SaveError, AfterResolve, AfterSave, AfterPoll, StepTo, FailWith, OneEdge, Composed,
      SpecOf, ArtifactFor, CanTransitionTo, MetadataOf, PrepareCompose;
    if Saves(pc) {
      SavingOneEdge(cfg, docs, id, pc, d, a);
    } else {
      AnswersOneEdge(d, Received, a, id);
      MovesOneEdge(d.status);
    }
  }

  // Each step follows at most one edge.
  lemma {:induction false} StepSpends(cfg: Config, c: Conf, a: Answer)
    ensures Moves(cfg, c, a) + Ahead(DriveStep(cfg, c, a)) <= Ahead(c)
  {
    hide FromDoc, Enter, Dispatch, CanTransitionTo, Remaining, IsTerminal, Effects, NextDocs, FindByID,
      AfterSave, AfterResolve, AfterPoll, Composed, PrepareCompose, FailWith, StepTo, Observed, WithArtifact,
      WithArgoApp;
    match c.drive {
      case Loading(id) =>
        if FindByID(c.docs, id).Ok? {
          EnterOneEdge(FindByID(c.docs, id).value, a.now, id);
        }
      case Driving(id, pc, d) =>
        DriveOneEdge(cfg, c.docs, id, pc, d, a);
      case Returning(_, _) =>
    }
    var s, t := StatusHeld(c), StatusHeld(DriveStep(cfg, c, a));
    if s.Some? && t.Some? && s != t {
      EdgeSpends(s.value, t.value);
    }
  }

  // However often a drive polls, it makes at most nine transitions.
  lemma {:induction false} AtMostNineMoves(cfg: Config, c: Conf, answers: seq<Answer>)
    ensures AllMoves(cfg, c, answers) + Ahead(DriveRun(cfg, c, answers)) <= Ahead(c) <= 9
  {
    if answers != [] {
      var front := answers[..|answers| - 1];
      AtMostNineMoves(cfg, c, front);
      StepSpends(cfg, DriveRun(cfg, c, front), answers[|answers| - 1]);
    }
  }

  // --- The store ---

  // The stored deployment has only moved forward.
  ghost predicate Advanced(id: string, before: Docs, after: Docs) {
    && (id in before <==> id in after)
    && (id in before ==>
          && FindByID(before, id).Ok? && FindByID(after, id).Ok?
          && Reaches(FindByID(before, id).value.status, FindByID(after, id).value.status))
  }

  // A save goes to the key the drive loaded, and a successful one makes
  // FindByID return the aggregate just saved. Whatever the answer, the stored
  // status only moves along the closure of the transition relation.
  lemma {:induction false} StoreAdvances(cfg: Config, o: Origin, c: Conf, a: Answer)
    requires DeploymentOk(cfg, o, c)
    ensures
      var n, id := DriveStep(cfg, c, a), c.drive.id;
      && Advanced(id, c.docs, n.docs)
      && (c.drive.Driving? && Saves(c.drive.pc) ==>
            c.drive.d.id == id && (a.ok || a.applied ==> FindByID(n.docs, id) == Ok(c.drive.d)))
  {
    hide FromDoc, ToDoc, BuiltFor, ValidOrigin, InOrder, AllProper, PlatformValues, Evidence, WellFormed,
      NextDrive, Effects;
    var id := c.drive.id;
    if c.drive.Driving? && Saves(c.drive.pc) {
      SaveKeeps(id, o, c.drive.d, c.docs, c.trace, a);
    } else if id in c.docs {
      ReachesSelf(Last(c.docs, id).status);
    }
  }
}
