/** What a drive does when every call succeeds: it resumes where the stored
    deployment was left, and completes it. */
module Redrive {
  import opened Wrappers
  import opened Lifecycle
  import opened ValueObjects
  import opened Resources
  import opened Values
  import opened Aggregate
  import opened Persistence
  import opened Ports
  import opened PlatformLayer
  import opened Publisher
  import opened Driver
  import opened Invariant
  import opened Outcome

  // A call that succeeds, with a usable chart for the resolver and a healthy
  // application for the poll.
  predicate Good(a: Answer) {
    a.ok && a.resolved.archive.Some? && a.resolved.appValuesKey != "" && a.status.healthStatus == "Healthy"
  }

  lemma SomeGood() returns (a: Answer)
    ensures Good(a)
  {
    a := Answer(true, "", false, ResolvedChart("", Some(Chart("", map[])), "app"), "", ArgoStatus("", "Healthy", ""),
                false, Timestamp(0, "", ""));
  }

  predicate Usable(d: Agg, archive: Option<Chart>, key: string) {
    archive.Some? && key != "" && MetadataOf(d).deploymentVersion != ""
  }

  // Where a drive can be when every answer so far was good.
  predicate OnTrack(drive: Drive) {
    match drive
    case Loading(_) => true
    case Returning(_, error) => error.None?
    case Driving(_, pc, d) =>
      match pc
      case SavingFailure(_) => false
      case Waiting => false
      case Saving(next) => next != Degraded && next != ChartResolved
      case SavingResolved(archive, key) => Usable(d, archive, key)
      case Composing(archive, key) => Usable(d, archive, key)
      case SavingPoll => d.health.Some? && d.health.value.healthStatus == "Healthy"
      case _ => true
  }

  // The calls a drive makes that loads this status, when all of them succeed.
  function Calls(s: Status): nat {
    match s
    case Received => 18
    case Validating => 17
    case MetadataGenerated => 16
    case ChartResolved => 15
    case ArtifactPublished => 10
    case ArgoAppCreated => 7
    case Syncing => 5
    case Healthy => 2
    case _ => 1
  }

  // The calls a drive on track still has to make. A save is answered like the
  // load of the status it saves.
  function Left(drive: Drive): nat {
    if !drive.Driving? then 0
    else
      match drive.pc
      case Saving(next) => Calls(next)
      case Resolving => if drive.d.status == MetadataGenerated then 15 else 14
      case SavingResolved(_, _) => 14
      case Composing(_, _) => 13
      case SavingComposed(_) => 12
      case Publishing(_) => 11
      case CheckingProject => 9
      case Creating => 8
      case StartingSync => 6
      case Polling => 4
      case SavingPoll => 3
      case _ => 1
  }

  lemma {:induction false} DispatchNears(d: Agg, now: Timestamp, id: string)
    requires WellFormed(d)
    ensures OnTrack(Dispatch(d, now, id)) && Left(Dispatch(d, now, id)) == Calls(d.status) - 1
  {
    hide WellFormed, Dispatch, OnTrack, Left, Calls;
    if d.status == Received || d.status == Validating || d.status == Healthy {
      SavesFirst(d, now, id);
    } else {
      CallsFirst(d, now, id);
    }
  }

  lemma {:induction false} SavesFirst(d: Agg, now: Timestamp, id: string)
    requires d.status == Received || d.status == Validating || d.status == Healthy
    ensures OnTrack(Dispatch(d, now, id)) && Left(Dispatch(d, now, id)) == Calls(d.status) - 1
  {
    hide DeriveID, BaseMetadata, Name, Usable;
  }

  lemma {:induction false} CallsFirst(d: Agg, now: Timestamp, id: string)
    requires WellFormed(d) && d.status != Received && d.status != Validating && d.status != Healthy
    ensures OnTrack(Dispatch(d, now, id)) && Left(Dispatch(d, now, id)) == Calls(d.status) - 1
  {
    hide DeriveID, AppName, StepTo, FailWith, WithMetadata, Usable;
  }

  // A good answer keeps a drive on track and brings it one call nearer to its end.
  lemma {:induction false} SavingNears(cfg: Config, docs: Docs, id: string, pc: Pc, d: Agg, a: Answer)
    requires WellFormed(d) && Saves(pc) && OnTrack(Driving(id, pc, d)) && Good(a)
    requires PcOk(pc, d.origin, d, d)
    ensures
      var n := NextDrive(cfg, docs, Driving(id, pc, d), a);
      OnTrack(n) && Left(n) == Left(Driving(id, pc, d)) - 1
  {
    hide PlatformValues, ComposedFrom, WellFormed, DeriveID, AppName, Name, Dispatch, Good, DegradedError,
      SaveError, FindByID;
    DispatchNears(d, a.now, id);
    GoodIsOk(a);
    if pc.SavingResolved? {
      KeyIsEnough(d.origin, pc.appValuesKey);
    }
  }

  lemma GoodIsOk(a: Answer)
    requires Good(a)
    ensures a.ok
  {
  }

  lemma KeyIsEnough(o: Origin, key: string)
    requires key != ""
    ensures PlatformValues(o, key).Ok?
  {
  }

  lemma StampIsUsable(d: Agg, r: ResolvedChart, now: Timestamp)
    requires r.archive.Some? && r.appValuesKey != ""
    ensures Usable(Stamped(d, r, now), r.archive, r.appValuesKey)
    ensures Stamped(d, r, now).status == d.status && Stamped(d, r, now).origin == d.origin
  {
    var v := NewDeploymentVersion(r.version, ShortSHA(d.origin.source), d.origin.startedAt);
    assert "-" <= v[|r.version|..];
    assert v != "";
  }

  lemma {:induction false} ResolvingNears(cfg: Config, docs: Docs, id: string, d: Agg, a: Answer)
    requires Good(a) && (d.status == MetadataGenerated || d.status == ChartResolved)
    ensures
      var n := NextDrive(cfg, docs, Driving(id, Resolving, d), a);
      OnTrack(n) && Left(n) == Left(Driving(id, Resolving, d)) - 1
  {
    hide PlatformValues, Stamped, Name;
    StampIsUsable(d, a.resolved, a.now);
    KeyIsEnough(d.origin, a.resolved.appValuesKey);
  }

  lemma {:induction false} ComposingNears(cfg: Config, docs: Docs, id: string, pc: Pc, d: Agg, a: Answer)
    requires pc.Composing? && OnTrack(Driving(id, pc, d)) && Good(a)
    requires d.status == ChartResolved && PlatformValues(d.origin, pc.appValuesKey).Ok?
    ensures
      var n := NextDrive(cfg, docs, Driving(id, pc, d), a);
      OnTrack(n) && Left(n) == Left(Driving(id, pc, d)) - 1
  {
    hide PlatformValues, Merge3, Name, MetadataOf;
  }

  lemma {:induction false} CallingNears(cfg: Config, docs: Docs, id: string, pc: Pc, d: Agg, a: Answer)
    requires WellFormed(d) && !Saves(pc) && !pc.Resolving? && !pc.Composing? && OnTrack(Driving(id, pc, d)) && Good(a)
    requires pc.Publishing? ==> d.status == ChartComposed
    requires pc.Creating? ==> d.status == ArtifactPublished
    requires pc.StartingSync? ==> d.status == ArgoAppCreated
    ensures
      var n := NextDrive(cfg, docs, Driving(id, pc, d), a);
      OnTrack(n) && Left(n) == Left(Driving(id, pc, d)) - 1
  {
    hide DeriveID, AppName, Name, ArtifactFor, SpecOf, FindByID, MetadataOf, AfterResolve, Composed;
  }

  lemma {:induction false} GoodStep(cfg: Config, o: Origin, c: Conf, a: Answer)
    requires DeploymentOk(cfg, o, c) && OnTrack(c.drive) && Good(a)
    requires c.drive.Loading? ==> FindByID(c.docs, c.drive.id).Ok?
    ensures
      var n := DriveStep(cfg, c, a).drive;
      && OnTrack(n) && !n.Loading?
      && Left(n) == (match c.drive
                     case Loading(id) => Calls(FindByID(c.docs, id).value.status) - 1
                     case Driving(_, _, _) => Left(c.drive) - 1
                     case Returning(_, _) => 0)
  {
    hide StoreOk, NextDrive, Effects, NextDocs, AllProper, InOrder, ValidOrigin, Pushes, Good, Left, FindByID,
      ComposedFrom, WellFormed, Evidence, NothingCleared, Reaches, OnTrack, PlatformValues, Calls;
    NeverLoads(cfg, c.docs, c.drive, a);
    match c.drive
    case Loading(id) => LoadingNears(cfg, o, c, a);
    case Returning(_, _) =>
      ReturningStays(cfg, c, a);
      ReturnedHasNoneLeft(c.drive);
    case Driving(id, pc, d) =>
      if Saves(pc) {
        SavingNears(cfg, c.docs, id, pc, d, a);
      } else if pc.Resolving? {
        ResolvingNears(cfg, c.docs, id, d, a);
      } else if pc.Composing? {
        ComposingNears(cfg, c.docs, id, pc, d, a);
      } else {
        CallingNears(cfg, c.docs, id, pc, d, a);
      }
  }

  lemma {:induction false} LoadingNears(cfg: Config, o: Origin, c: Conf, a: Answer)
    requires DeploymentOk(cfg, o, c) && c.drive.Loading? && FindByID(c.docs, c.drive.id).Ok? && Good(a)
    ensures
      var n := NextDrive(cfg, c.docs, c.drive, a);
      OnTrack(n) && Left(n) == Calls(FindByID(c.docs, c.drive.id).value.status) - 1
  {
    hide FromDoc, Dispatch, Evidence, AllProper, InOrder, ValidOrigin, Pushes, WellFormed, Enter;
    var d := FindByID(c.docs, c.drive.id).value;
    GuardsNeverFire(d, a.now, c.drive.id);
    DispatchNears(d, a.now, c.drive.id);
  }

  lemma ReturnedHasNoneLeft(drive: Drive)
    requires drive.Returning?
    ensures Left(drive) == 0
  {
  }

  // On track, a drive has returned exactly when no call is left, and the number
  // left says which call it is about to make.
  lemma {:induction false} LeftTells(o: Origin, drive: Drive, stored: Agg)
    requires OnTrack(drive) && !drive.Loading?
    requires drive.Driving? ==> PcOk(drive.pc, o, drive.d, stored)
    ensures drive.Returning? <==> Left(drive) == 0
    ensures Left(drive) == 1 <==> drive.Driving? && drive.pc == Saving(Completed)
    ensures Left(drive) == 4 <==> drive.Driving? && drive.pc.Polling?
    ensures Left(drive) == 11 <==> drive.Driving? && drive.pc.Publishing?
  {
    hide ComposedFrom, PlatformValues, MetadataOf;
  }

  // A drive whose every call succeeds makes exactly the calls of the status it
  // loads, and returns without an error.
  lemma {:induction false} GoodDrive(cfg: Config, o: Origin, c: Conf, answers: seq<Answer>)
    requires DeploymentOk(cfg, o, c) && c.drive.Loading? && FindByID(c.docs, c.drive.id).Ok?
    requires answers != [] && forall i :: 0 <= i < |answers| ==> Good(answers[i])
    ensures
      var n, calls := DriveRun(cfg, c, answers).drive, Calls(FindByID(c.docs, c.drive.id).value.status);
      && OnTrack(n) && !n.Loading?
      && Left(n) == (if |answers| < calls then calls - |answers| else 0)
      && (n.Returning? <==> calls <= |answers|)
      && (n.Driving? && n.pc == Saving(Completed) <==> |answers| == calls - 1)
      && (n.Driving? && n.pc.Polling? <==> |answers| == calls - 4)
      && (n.Driving? && n.pc.Publishing? <==> |answers| == calls - 11)
  {
    hide DeploymentOk, DriveStep, OnTrack, Left, Good, FindByID, Calls;
    var front, a := answers[..|answers| - 1], answers[|answers| - 1];
    if front == [] {
      assert DriveRun(cfg, c, front) == c;
      LoadingOnTrack(c.drive);
      GoodStep(cfg, o, c, a);
    } else {
      GoodDrive(cfg, o, c, front);
      DriveKeeps(cfg, o, c, front);
      GoodStep(cfg, o, DriveRun(cfg, c, front), a);
    }
    DriveKeeps(cfg, o, c, answers);
    CallOfDrive(cfg, o, DriveRun(cfg, c, answers));
    CallsAreSome(FindByID(c.docs, c.drive.id).value.status);
  }

  lemma LoadingOnTrack(drive: Drive)
    requires drive.Loading?
    ensures OnTrack(drive)
  {
  }

  lemma CallsAreSome(s: Status)
    ensures Calls(s) >= 1
  {
  }

  lemma {:induction false} CallOfDrive(cfg: Config, o: Origin, c: Conf)
    requires DeploymentOk(cfg, o, c) && OnTrack(c.drive) && !c.drive.Loading?
    ensures c.drive.Returning? <==> Left(c.drive) == 0
    ensures Left(c.drive) == 1 <==> c.drive.Driving? && c.drive.pc == Saving(Completed)
    ensures Left(c.drive) == 4 <==> c.drive.Driving? && c.drive.pc.Polling?
    ensures Left(c.drive) == 11 <==> c.drive.Driving? && c.drive.pc.Publishing?
  {
    hide StoreOk, AllProper, InOrder, ValidOrigin, PcOk, OnTrack, Left, WellFormed, Evidence, FromDoc;
    LeftTells(o, c.drive, if c.drive.Driving? then Last(c.docs, c.drive.id) else Fresh(o));
  }

  // --- The two statuses no stage of run takes ---

  lemma {:induction false} StrandedDrive(cfg: Config, c: Conf, a: Answer)
    requires !c.drive.Driving? && FindByID(c.docs, c.drive.id).Ok?
    requires
      var d := FindByID(c.docs, c.drive.id).value;
      (d.status == ChartComposed || d.status == Degraded) && d.metadata.Some?
    ensures
      var n := DriveStep(cfg, c, a);
      n.docs == c.docs && n.trace == c.trace && n.drive.id == c.drive.id
    ensures !DriveStep(cfg, c, a).drive.Driving?
  {
    hide FindByID;
    assert c.trace + [] == c.trace;
  }

  lemma {:induction false} StrandedUnmoved(cfg: Config, o: Origin, c: Conf, answers: seq<Answer>)
    requires DeploymentOk(cfg, o, c) && c.drive.Loading? && FindByID(c.docs, c.drive.id).Ok?
    requires
      var s := FindByID(c.docs, c.drive.id).value.status;
      s == ChartComposed || s == Degraded
    ensures DriveRun(cfg, c, answers).docs == c.docs && !DriveRun(cfg, c, answers).drive.Driving?
    ensures DriveRun(cfg, c, answers).drive.id == c.drive.id
  {
    hide FindByID, DriveStep, DeploymentOk;
    if answers != [] {
      StrandedUnmoved(cfg, o, c, answers[..|answers| - 1]);
      LoadedMetadata(cfg, o, c);
      StrandedDrive(cfg, DriveRun(cfg, c, answers[..|answers| - 1]), answers[|answers| - 1]);
    }
  }

  lemma LoadedMetadata(cfg: Config, o: Origin, c: Conf)
    requires DeploymentOk(cfg, o, c) && FindByID(c.docs, c.drive.id).Ok?
    ensures HasMetadata(FindByID(c.docs, c.drive.id).value.status) ==> FindByID(c.docs, c.drive.id).value.metadata.Some?
  {
    hide FromDoc, ValidOrigin, AllProper, InOrder, Pushes, Evidence, DriveOk, Faithful;
  }

  // A poll that answers Degraded, with the saves after it going through, leaves
  // the deployment stored as DEGRADED until its failure is saved.
  lemma {:induction false} DegradedIsStored(cfg: Config, o: Origin, c: Conf, poll: Answer, a: Answer)
    requires DeploymentOk(cfg, o, c) && c.drive.Driving? && c.drive.pc.Polling?
    requires poll.ok && poll.status.healthStatus == "Degraded" && a.ok
    ensures
      var saved := DriveStep(cfg, DriveStep(cfg, DriveStep(cfg, c, poll), a), a);
      FindByID(saved.docs, c.drive.id).Ok? && FindByID(saved.docs, c.drive.id).value.status == Degraded
  {
    hide DeploymentOk, FindByID, DriveStep;
    var polled := DriveStep(cfg, c, poll);
    var judged := DriveStep(cfg, polled, a);
    StepKeeps(cfg, o, c, poll);
    StepKeeps(cfg, o, polled, a);
    DegradedIsSaved(cfg, o, c, poll, a);
    StoreAdvances(cfg, o, judged, a);
  }

  lemma {:induction false} DegradedIsSaved(cfg: Config, o: Origin, c: Conf, poll: Answer, a: Answer)
    requires DeploymentOk(cfg, o, c) && c.drive.Driving? && c.drive.pc.Polling?
    requires poll.ok && poll.status.healthStatus == "Degraded"
    ensures
      var judged := DriveStep(cfg, DriveStep(cfg, c, poll), a).drive;
      judged.Driving? && judged.pc == Saving(Degraded) && judged.d.status == Degraded
  {
    hide StoreOk, AllProper, InOrder, ValidOrigin, WellFormed, Evidence, NextDocs, Effects, Pushes, FindByID,
      FailWith, Dispatch, AfterResolve, Composed, PrepareCompose, Reaches, NothingCleared, Name, MetadataOf;
  }

  // So a redrive in a world where every call succeeds completes the deployment,
  // whatever non-terminal status it was left at, except for the two no stage of
  // run takes.
  lemma {:induction false} RedriveCompletes(cfg: Config, o: Origin, c: Conf, answers: seq<Answer>)
    requires DeploymentOk(cfg, o, c) && c.drive.Loading? && FindByID(c.docs, c.drive.id).Ok?
    requires !IsTerminal(FindByID(c.docs, c.drive.id).value.status)
    requires |answers| >= Calls(FindByID(c.docs, c.drive.id).value.status)
    requires forall i :: 0 <= i < |answers| ==> Good(answers[i])
    ensures
      var n, s := DriveRun(cfg, c, answers), FindByID(c.docs, c.drive.id).value.status;
      && n.drive == Returning(c.drive.id, None) && FindByID(n.docs, c.drive.id).Ok?
      && (FindByID(n.docs, c.drive.id).value.status == Completed <==> s != ChartComposed && s != Degraded)
  {
    hide DeploymentOk, DriveRun, FindByID, Good, Left, Calls;
    var s := FindByID(c.docs, c.drive.id).value.status;
    CallsAreSome(s);
    GoodDrive(cfg, o, c, answers);
    DriveKeeps(cfg, o, c, answers);
    if s == ChartComposed || s == Degraded {
      StrandedUnmoved(cfg, o, c, answers);
    }
    NilMeansDone(cfg, o, c, answers);
  }
}
