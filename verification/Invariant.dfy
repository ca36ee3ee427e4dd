/** What every drive keeps: of the aggregate, of the store, and of the effects
    it leaves outside. */
module Invariant {
  import opened Wrappers
  import opened Lifecycle
  import opened ValueObjects
  import opened Resources
  import opened Values
  import opened Aggregate
  import opened Persistence
  import opened Ports
  import opened PlatformLayer
  import opened Publisher
  import opened Driver

  // --- The aggregate ---

  predicate HasMetadata(s: Status) {
    s != Received && s != Validating && s != Failed
  }

  predicate HasArtifact(s: Status) {
    s == ArtifactPublished || HasApp(s)
  }

  predicate HasApp(s: Status) {
    s == ArgoAppCreated || s == Syncing || s == Healthy || s == Degraded || s == Completed
  }

  predicate IsSynced(s: Status) {
    HasApp(s) && s != ArgoAppCreated
  }

  predicate IsHealthy(s: Status) {
    s == Healthy || s == Completed
  }

  // Past CHART_COMPOSED: the statuses a deployment can have once Publish has
  // been called.
  predicate BeyondPublish(s: Status) {
    HasArtifact(s) || s == Failed
  }

  function AppName(o: Origin): string {
    o.applicationID + "-" + o.target.environment + "-" + o.target.namespace
  }

  // What the status of a deployment says about the rest of it.
  predicate WellFormed(a: Agg) {
    && a.id == DeriveID(a.origin)
    && a.status != Rejected && a.status != RolledBack
    && (HasMetadata(a.status) ==> a.metadata.Some?)
    && (a.metadata.Some? ==> a.metadata.value.argoAppName == AppName(a.origin))
    && (HasArtifact(a.status) ==> a.artifact.Some?)
    && (a.artifact.Some? ==> BeyondPublish(a.status) && a.metadata.Some?
                             && a.artifact.value.tag == a.metadata.value.deploymentVersion)
    && (HasApp(a.status) ==> a.argoApp.Some?)
    && (a.argoApp.Some? ==>
          a.argoApp.value == ArgoApp(AppName(a.origin), a.origin.target.namespace, a.origin.target.appProject))
    && (IsHealthy(a.status) ==> a.health.Some? && a.health.value.healthStatus == "Healthy")
    && (IsTerminal(a.status) <==> a.completedAt.Some?)
    && (a.errMsg != "" ==> a.status == Failed || a.status == Completed)
  }

  // --- The effects ---

  // The package is the merge of the chart, the caller's values and the platform's.
  predicate ComposedFrom(o: Origin, pkg: Package) {
    && PlatformValues(o, pkg.appValuesKey).Ok?
    && pkg.values == Merge3(pkg.chart.values, o.values, PlatformValues(o, pkg.appValuesKey).value)
  }

  ghost predicate WasPushed(id: string, x: Artifact, trace: seq<Effect>) {
    exists i :: 0 <= i < |trace| && trace[i].Pushed? && trace[i].id == id && trace[i].ok && trace[i].artifact == x
  }

  ghost predicate WasApplied(id: string, app: string, trace: seq<Effect>) {
    exists i :: 0 <= i < |trace| && trace[i].Applied? && trace[i].id == id && trace[i].ok && trace[i].spec.name == app
  }

  ghost predicate WasSynced(id: string, app: string, trace: seq<Effect>) {
    exists i :: 0 <= i < |trace| && trace[i].Synced? && trace[i].id == id && trace[i].ok && trace[i].app == app
  }

  ghost predicate WasHealthy(id: string, app: string, trace: seq<Effect>) {
    exists i :: 0 <= i < |trace| && trace[i].Polled? && trace[i].id == id && trace[i].app == app
                && trace[i].reply.Some? && trace[i].reply.value.healthStatus == "Healthy"
  }

  // Everything a deployment records about the outside did happen there.
  ghost predicate Evidence(a: Agg, trace: seq<Effect>) {
    && (a.artifact.Some? ==> WasPushed(a.id, a.artifact.value, trace))
    && (HasApp(a.status) ==> WasApplied(a.id, AppName(a.origin), trace))
    && (IsSynced(a.status) ==> WasSynced(a.id, AppName(a.origin), trace))
    && (a.health.Some? && a.health.value.healthStatus == "Healthy" ==> WasHealthy(a.id, AppName(a.origin), trace))
  }

  // The chart the last successful resolve of a deployment returned.
  function LastResolved(id: string, trace: seq<Effect>): Option<ResolvedChart> {
    if trace == [] then None
    else
      var e := trace[|trace| - 1];
      if e.id == id && e.Resolved? && e.found.Some? then e.found else LastResolved(id, trace[..|trace| - 1])
  }

  // The last thing done outside for a deployment.
  function LastDone(id: string, trace: seq<Effect>): Option<Effect> {
    if trace == [] then None
    else
      var e := trace[|trace| - 1];
      if e.id == id then Some(e) else LastDone(id, trace[..|trace| - 1])
  }

  // The archive, values key and version are those of the last successful resolve.
  ghost predicate ResolvedAs(id: string, o: Origin, archive: Option<Chart>, appValuesKey: string, version: string,
                             trace: seq<Effect>)
  {
    var last := LastResolved(id, trace);
    && last.Some? && last.value.archive == archive && last.value.appValuesKey == appValuesKey
    && version == NewDeploymentVersion(last.value.version, ShortSHA(o.source), o.startedAt)
  }

  // An effect that is allowed to come after the effects before it.
  ghost predicate Justified(e: Effect, before: seq<Effect>) {
    match e
    case Resolved(_, _, _) => true
    case Pushed(id, pkg, _, _, _) =>
      LastResolved(id, before).Some? && LastResolved(id, before).value.archive == Some(pkg.chart)
    case Checked(id, _, repoURL, _, _, _) => exists x: Artifact :: WasPushed(id, x, before) && repoURL == x.registry
    case Applied(id, spec, _) =>
      && LastDone(id, before) ==
           Some(Checked(id, spec.project, spec.repoURL, spec.destServer, spec.destNS, true))
      && exists x: Artifact ::
        WasPushed(id, x, before) && Reassembled(spec.repoURL, spec.chart, spec.version) == x.ociReference
    case Synced(id, app, _) => WasApplied(id, app, before)
    case Polled(id, app, _) => WasSynced(id, app, before)
  }

  ghost predicate InOrder(trace: seq<Effect>) {
    forall i :: 0 <= i < |trace| ==> Justified(trace[i], trace[..i])
  }

  // How often Publish was called for a deployment, whatever it answered.
  function Pushes(id: string, trace: seq<Effect>): nat {
    if trace == [] then 0
    else Pushes(id, trace[..|trace| - 1]) + var e := trace[|trace| - 1]; if e.Pushed? && e.id == id then 1 else 0
  }

  predicate Labelled(labels: map<string, string>, o: Origin) {
    && "app.kubernetes.io/instance" in labels && labels["app.kubernetes.io/instance"] == o.applicationID
    && "platform.myorg.io/team" in labels && labels["platform.myorg.io/team"] == o.team
    && "platform.myorg.io/environment" in labels && labels["platform.myorg.io/environment"] == o.target.environment
    && "app.kubernetes.io/managed-by" in labels && labels["app.kubernetes.io/managed-by"] == "platform-orchestrator"
  }

  predicate Traced(annotations: map<string, string>, id: string, o: Origin) {
    && "platform.myorg.io/deployment-id" in annotations && annotations["platform.myorg.io/deployment-id"] == id
    && "platform.myorg.io/correlation-id" in annotations
    && annotations["platform.myorg.io/correlation-id"] == o.correlationID
  }

  // What is done for a deployment is done for its own: its chart is resolved;
  // what is pushed is composed from that chart and from what it was created with,
  // and goes to the reference of its application and version; what is checked,
  // applied, synced and polled is its application, in its project and on its
  // target.
  ghost predicate Proper(cfg: Config, o: Origin, e: Effect, before: seq<Effect>) {
    match e
    case Resolved(_, source, _) => source == o.chartSource
    case Pushed(id, pkg, digest, artifact, _) =>
      && ResolvedAs(id, o, Some(pkg.chart), pkg.appValuesKey, pkg.version, before)
      && ComposedFrom(o, pkg)
      && IsNamed(artifact, cfg.registryHost, cfg.repositoryPrefix, o.applicationID, pkg.chart.name, pkg.version, digest)
    case Checked(_, project, _, destServer, destNS, _) =>
      project == o.target.appProject && destServer == cfg.destServer && destNS == o.target.namespace
    case Applied(_, spec, _) =>
      && spec.name == AppName(o) && spec.namespace == cfg.argoNamespace && spec.project == o.target.appProject
      && spec.destServer == cfg.destServer && spec.destNS == o.target.namespace
      && Labelled(spec.labels, o) && Traced(spec.annotations, e.id, o)
    case Synced(_, app, _) => app == AppName(o)
    case Polled(_, app, _) => app == AppName(o)
  }

  ghost predicate AllProper(cfg: Config, id: string, o: Origin, trace: seq<Effect>) {
    forall i :: 0 <= i < |trace| && trace[i].id == id ==> Proper(cfg, o, trace[i], trace[..i])
  }

  // --- One deployment ---

  // The stored record of id, when there is one.
  ghost predicate StoreOk(id: string, o: Origin, docs: Docs, trace: seq<Effect>) {
    if id in docs then
      && Faithful(docs[id])
      && var a := FromDoc(docs[id]).value;
      && a.id == id && a.origin == o && WellFormed(a) && Evidence(a, trace)
      && (Pushes(id, trace) > 0 ==> BeyondPublish(a.status) || a.status == ChartComposed)
    else Pushes(id, trace) == 0
  }

  function Last(docs: Docs, id: string): Agg
    requires id in docs && FromDoc(docs[id]).Ok?
  {
    FromDoc(docs[id]).value
  }

  // The aggregate a drive holds in memory, beside the stored one: it has only
  // moved forward from it.
  ghost predicate MemoryOk(id: string, o: Origin, d: Agg, docs: Docs, trace: seq<Effect>) {
    && id in docs && FromDoc(docs[id]).Ok?
    && d.id == id && d.origin == o && WellFormed(d) && Evidence(d, trace)
    && NothingCleared(Last(docs, id), d)
    && Reaches(Last(docs, id).status, d.status)
    && (Pushes(id, trace) > 0 ==> BeyondPublish(d.status))
  }

  // The call a drive waits for fits the status it holds.
  ghost predicate PcOk(pc: Pc, o: Origin, d: Agg, stored: Agg) {
    match pc
    case Saving(next) =>
      && d.status == next && next != Received && next != ChartComposed && (IsTerminal(next) ==> next == Completed)
      && d.errMsg == ""
    case Resolving => d.status == MetadataGenerated || d.status == ChartResolved
    case SavingResolved(_, _) => d.status == ChartResolved
    case Composing(_, key) => d.status == ChartResolved && PlatformValues(o, key).Ok?
    case SavingComposed(pkg) =>
      d.status == ChartComposed && ComposedFrom(o, pkg) && pkg.version == MetadataOf(d).deploymentVersion
    case Publishing(pkg) =>
      && d.status == ChartComposed && ComposedFrom(o, pkg) && pkg.version == MetadataOf(d).deploymentVersion
      && stored.status == ChartComposed
    case CheckingProject => d.status == ArtifactPublished
    case Creating => d.status == ArtifactPublished
    case StartingSync => d.status == ArgoAppCreated
    case Polling => d.status == Syncing
    case SavingPoll => d.status == Syncing && d.health.Some?
    case Waiting => d.status == Syncing
    case SavingFailure(msg) => d.errMsg == msg && (d.status == Failed || d.status == Completed)
  }

  ghost predicate DriveOk(o: Origin, drive: Drive, docs: Docs, trace: seq<Effect>) {
    match drive
    case Loading(_) => true
    case Returning(_, _) => true
    case Driving(id, pc, d) => MemoryOk(id, o, d, docs, trace) && PcOk(pc, o, d, Last(docs, id))
  }

  // What a drive carries from its calls to the next ones is what they answered.
  ghost predicate Grounded(cfg: Config, o: Origin, drive: Drive, trace: seq<Effect>) {
    drive.Driving? ==>
      match drive.pc
      case SavingResolved(archive, key) =>
        ResolvedAs(drive.id, o, archive, key, MetadataOf(drive.d).deploymentVersion, trace)
      case Composing(archive, key) =>
        ResolvedAs(drive.id, o, archive, key, MetadataOf(drive.d).deploymentVersion, trace)
      case SavingComposed(pkg) => ResolvedAs(drive.id, o, Some(pkg.chart), pkg.appValuesKey, pkg.version, trace)
      case Publishing(pkg) => ResolvedAs(drive.id, o, Some(pkg.chart), pkg.appValuesKey, pkg.version, trace)
      case Creating =>
        drive.d.artifact.Some? ==>
          LastDone(drive.id, trace) == Some(CheckOf(drive.id, SpecOf(cfg, drive.d, drive.d.artifact.value), true))
      case _ => true
  }

  // Everything about one deployment and the drive that has it.
  ghost predicate DeploymentOk(cfg: Config, o: Origin, c: Conf) {
    && ValidOrigin(o)
    && StoreOk(c.drive.id, o, c.docs, c.trace)
    && DriveOk(o, c.drive, c.docs, c.trace) && Grounded(cfg, o, c.drive, c.trace)
    && Pushes(c.drive.id, c.trace) <= 1
    && AllProper(cfg, c.drive.id, o, c.trace)
    && InOrder(c.trace)
  }

  // --- One step keeps it ---

  lemma {:induction false} PushesGrow(id: string, trace: seq<Effect>, more: seq<Effect>)
    requires |more| <= 1
    ensures Pushes(id, trace + more) ==
      Pushes(id, trace) + if more != [] && more[0].Pushed? && more[0].id == id then 1 else 0
  {
    if more == [] {
      assert trace + more == trace;
    } else {
      assert (trace + more)[..|trace|] == trace;
    }
  }

  lemma {:induction false} LastGrows(id: string, trace: seq<Effect>, more: seq<Effect>)
    requires |more| <= 1
    ensures LastResolved(id, trace + more) ==
      if more != [] && more[0].id == id && more[0].Resolved? && more[0].found.Some? then more[0].found
      else LastResolved(id, trace)
    ensures LastDone(id, trace + more) == if more != [] && more[0].id == id then Some(more[0]) else LastDone(id, trace)
  {
    if more == [] {
      assert trace + more == trace;
    } else {
      assert (trace + more)[..|trace|] == trace;
    }
  }

  lemma {:induction false} EvidenceGrows(a: Agg, trace: seq<Effect>, more: seq<Effect>)
    requires Evidence(a, trace)
    ensures Evidence(a, trace + more)
  {
    assert forall i :: 0 <= i < |trace| ==> (trace + more)[i] == trace[i];
  }

  lemma {:induction false} OrderGrows(trace: seq<Effect>, more: seq<Effect>)
    requires InOrder(trace) && |more| <= 1
    requires more != [] ==> Justified(more[0], trace)
    ensures InOrder(trace + more)
  {
    forall i | 0 <= i < |trace + more|
      ensures Justified((trace + more)[i], (trace + more)[..i])
    {
      assert (trace + more)[..i] == trace[..i];
    }
  }

  lemma {:induction false} ProperGrows(cfg: Config, id: string, o: Origin, trace: seq<Effect>, more: seq<Effect>)
    requires AllProper(cfg, id, o, trace) && |more| <= 1
    requires more != [] && more[0].id == id ==> Proper(cfg, o, more[0], trace)
    ensures AllProper(cfg, id, o, trace + more)
  {
    hide Proper;
    forall i | 0 <= i < |trace + more| && (trace + more)[i].id == id
      ensures Proper(cfg, o, (trace + more)[i], (trace + more)[..i])
    {
      assert (trace + more)[..i] == trace[..i];
    }
  }

  // A save of what a drive holds makes it the stored record.
  lemma {:induction false} SaveKeeps(id: string, o: Origin, d: Agg, docs: Docs, trace: seq<Effect>, a: Answer)
    requires ValidOrigin(o) && StoreOk(id, o, docs, trace) && MemoryOk(id, o, d, docs, trace)
    ensures
      var after := SaveAnswered(docs, d, a);
      && StoreOk(id, o, after, trace) && MemoryOk(id, o, d, after, trace)
      && Reaches(Last(docs, id).status, Last(after, id).status)
      && (a.ok || a.applied ==> Last(after, id) == d)
      && (!a.ok && !a.applied ==> after == docs)
      && forall other :: other != id ==> Stored(after, other) == Stored(docs, other)
  {
    hide BuiltFor;
    ReachesSelf(d.status);
    ReachesSelf(Last(docs, id).status);
    SaveThenFind(docs, d);
  }

  // A move of the aggregate in memory that clears nothing and follows an edge,
  // while the effects grow from trace to after.
  lemma {:induction false} MoveKeeps(id: string, o: Origin, d: Agg, e: Agg, docs: Docs, trace: seq<Effect>,
                                     after: seq<Effect>)
    requires MemoryOk(id, o, d, docs, trace)
    requires e.id == id && e.origin == o && NothingCleared(d, e)
    requires d.status == e.status || CanTransitionTo(d.status, e.status)
    requires WellFormed(e) && Evidence(e, after)
    requires Pushes(id, after) > 0 ==> BeyondPublish(e.status)
    ensures MemoryOk(id, o, e, docs, after)
  {
    if d.status != e.status {
      ReachesStep(d.status, e.status);
      ReachesTransitive(Last(docs, id).status, d.status, e.status);
    }
  }

  lemma CanFail(s: Status)
    ensures CanTransitionTo(s, Failed) <==> !IsTerminal(s) && s != Received
  {
  }

  // Failing is possible from every status a drive can hold, except that a
  // completed deployment only takes the message.
  lemma {:induction false} FailKeeps(id: string, o: Origin, d: Agg, docs: Docs, trace: seq<Effect>,
                                     after: seq<Effect>,
                                     msg: string, now: Timestamp)
    requires MemoryOk(id, o, d, docs, trace) && Evidence(d, after)
    requires d.status != Received && (d.status == Completed || !IsTerminal(d.status))
    ensures
      var drive := FailWith(d, msg, now, id);
      && DriveOk(o, drive, docs, after)
      && drive.d.errMsg == msg
      && drive.d.status == (if d.status == Completed then Completed else Failed)
  {
    hide FromDoc, Evidence, CanTransitionTo, Reaches, Pushes, MarkFailed, NothingCleared;
    CanFail(d.status);
    MarksSoundly(d, msg, now, after);
    MoveKeeps(id, o, d, MarkFailed(d, msg, now), docs, trace, after);
  }

  lemma {:induction false} MarksSoundly(d: Agg, msg: string, now: Timestamp, trace: seq<Effect>)
    requires WellFormed(d) && Evidence(d, trace)
    requires d.status != Received && (d.status == Completed || !IsTerminal(d.status))
    ensures
      var e := MarkFailed(d, msg, now);
      && WellFormed(e) && Evidence(e, trace) && NothingCleared(d, e)
      && e.id == d.id && e.origin == d.origin && e.errMsg == msg
      && e.status == (if d.status == Completed then Completed else Failed)
  {
    hide DeriveID, AppName, WasPushed, WasApplied, WasSynced, WasHealthy, CanTransitionTo;
    CanFail(d.status);
  }

  // A sound aggregate loaded at a status that is not terminal passes the guard
  // of run and every guard of its stage, and each transition asked for is
  // allowed: no nil pointer is met and nothing fails before the first call.
  lemma {:induction false} GuardsNeverFire(d: Agg, now: Timestamp, id: string)
    requires WellFormed(d)
    ensures !Dispatch(d, now, id).Loading?
    ensures d.status != Failed ==> Enter(d, now, id) == Dispatch(d, now, id)
    ensures Dispatch(d, now, id).Driving? ==> !Dispatch(d, now, id).pc.SavingFailure?
    ensures Dispatch(d, now, id).Returning? ==> Dispatch(d, now, id) == Returning(id, None)
    ensures Dispatch(d, now, id).Returning? <==>
      d.status == ChartComposed || d.status == Degraded || IsTerminal(d.status)
  {
    hide DeriveID, AppName, BaseMetadata, Name;
    match d.status {
      case Received | Validating | Rejected | MetadataGenerated | ChartResolved | ChartComposed
        | ArtifactPublished | ArgoAppCreated | Syncing | Healthy | Degraded | Failed | RolledBack | Completed =>
    }
  }

  lemma BaseNames(o: Origin)
    ensures BaseMetadata(o).argoAppName == AppName(o)
  {
  }

  lemma {:induction false} FirstStagesKeep(id: string, o: Origin, d: Agg, docs: Docs, trace: seq<Effect>,
                                           now: Timestamp)
    requires MemoryOk(id, o, d, docs, trace)
    requires d.status == Received || d.status == Validating
    ensures DriveOk(o, Dispatch(d, now, id), docs, trace)
  {
    hide FromDoc, NewDeploymentID, BaseMetadata, AppName, WasPushed, WasApplied, WasSynced, WasHealthy, Reaches,
      Pushes, FailWith;
    BaseNames(o);
    if d.status == Received {
      MoveKeeps(id, o, d, Moved(d, Validating, now), docs, trace, trace);
    } else {
      MoveKeeps(id, o, d, Moved(WithMetadata(d, BaseMetadata(o), now), MetadataGenerated, now), docs, trace, trace);
    }
  }

  lemma {:induction false} LastStageKeeps(id: string, o: Origin, d: Agg, docs: Docs, trace: seq<Effect>,
                                          now: Timestamp)
    requires MemoryOk(id, o, d, docs, trace) && d.status == Healthy
    ensures DriveOk(o, Dispatch(d, now, id), docs, trace)
  {
    hide FromDoc, NewDeploymentID, NewComponentID, NewArgoAppName, WasPushed, WasApplied, WasSynced, WasHealthy;
    MoveKeeps(id, o, d, Ended(d, Completed, now), docs, trace, trace);
  }

  // The other stages begin with a call, and nothing has moved before it.
  lemma {:induction false} StageBegins(o: Origin, d: Agg, stored: Agg, now: Timestamp, id: string)
    requires WellFormed(d) && d.status != Received && d.status != Validating && d.status != Healthy
    ensures
      var drive := Dispatch(d, now, id);
      drive == Returning(id, None) || (drive.Driving? && drive.d == d && PcOk(drive.pc, o, d, stored))
  {
    hide DeriveID, StepTo, FailWith, PlatformValues, ComposedFrom, Transitions, AppName;
  }

  lemma {:induction false} DispatchKeeps(id: string, o: Origin, d: Agg, docs: Docs, trace: seq<Effect>,
                                         now: Timestamp)
    requires MemoryOk(id, o, d, docs, trace)
    ensures DriveOk(o, Dispatch(d, now, id), docs, trace)
  {
    if d.status == Received || d.status == Validating {
      FirstStagesKeep(id, o, d, docs, trace, now);
    } else if d.status == Healthy {
      LastStageKeeps(id, o, d, docs, trace, now);
    } else {
      hide FromDoc, Dispatch, PcOk, WellFormed, Evidence, NothingCleared, Reaches, Pushes;
      StageBegins(o, d, Last(docs, id), now, id);
    }
  }

  // Steps that only move memory, or fail.

  lemma {:induction false} LoadKeeps(cfg: Config, o: Origin, id: string, docs: Docs, trace: seq<Effect>, a: Answer)
    requires ValidOrigin(o) && StoreOk(id, o, docs, trace)
    ensures DriveOk(o, NextDrive(cfg, docs, Loading(id), a), docs, trace)
  {
    hide NewDeploymentID, NewComponentID, NewArgoAppName, ToDoc;
    if a.ok && id in docs && !IsTerminal(Last(docs, id).status) {
      var d := Last(docs, id);
      GuardsNeverFire(d, a.now, id);
      if d.status != ChartComposed {
        ReachesSelf(d.status);
        DispatchKeeps(id, o, d, docs, trace, a.now);
      }
    }
  }

  lemma {:induction false} PrepareKeeps(o: Origin, id: string, d: Agg, docs: Docs, trace: seq<Effect>,
                                        archive: Option<Chart>, key: string, now: Timestamp)
    requires MemoryOk(id, o, d, docs, trace) && d.status == ChartResolved
    ensures DriveOk(o, PrepareCompose(d, archive, key, now, id), docs, trace)
  {
    hide FromDoc, PlatformValues;
    if PlatformValues(o, key).Err? {
      FailKeeps(id, o, d, docs, trace, trace, "compose: " + PlatformValues(o, key).error, now);
    }
  }

  lemma {:induction false} StampKeeps(o: Origin, id: string, d: Agg, docs: Docs, trace: seq<Effect>, r: ResolvedChart,
                                      now: Timestamp)
    requires MemoryOk(id, o, d, docs, trace)
    requires d.status == MetadataGenerated || d.status == ChartResolved
    ensures MemoryOk(id, o, Stamped(d, r, now), docs, trace)
  {
    hide FromDoc, NewDeploymentID, NewComponentID, NewArgoAppName, WasPushed, WasApplied, WasSynced, WasHealthy;
    MoveKeeps(id, o, d, Stamped(d, r, now), docs, trace, trace);
  }

  lemma {:induction false} ResolveKeeps(o: Origin, id: string, d: Agg, docs: Docs, trace: seq<Effect>, a: Answer)
    requires MemoryOk(id, o, d, docs, trace)
    requires d.status == MetadataGenerated || d.status == ChartResolved
    ensures DriveOk(o, AfterResolve(d, a, id), docs, trace)
  {
    hide FromDoc, NewDeploymentID, NewComponentID, NewArgoAppName, WasPushed, WasApplied, WasSynced, WasHealthy,
      Stamped, PrepareCompose;
    if !a.ok {
      FailKeeps(id, o, d, docs, trace, trace, "resolve: " + a.err, a.now);
    } else {
      StampKeeps(o, id, d, docs, trace, a.resolved, a.now);
      var stamped := Stamped(d, a.resolved, a.now);
      assert stamped.status == d.status by { StampsOnly(d, a.resolved, a.now); }
      if d.status == MetadataGenerated {
        MoveKeeps(id, o, stamped, Moved(stamped, ChartResolved, a.now), docs, trace, trace);
      } else {
        PrepareKeeps(o, id, stamped, docs, trace, a.resolved.archive, a.resolved.appValuesKey, a.now);
      }
    }
  }

  lemma StampsOnly(d: Agg, r: ResolvedChart, now: Timestamp)
    ensures Stamped(d, r, now).status == d.status
  {
  }

  lemma {:induction false} ComposeKeeps(cfg: Config, o: Origin, id: string, d: Agg, docs: Docs, trace: seq<Effect>,
                                        archive: Option<Chart>, key: string, a: Answer)
    requires MemoryOk(id, o, d, docs, trace) && d.status == ChartResolved && PlatformValues(o, key).Ok?
    ensures DriveOk(o, NextDrive(cfg, docs, Driving(id, Composing(archive, key), d), a), docs, trace)
  {
    hide FromDoc, NewDeploymentID, NewComponentID, NewArgoAppName, WasPushed, WasApplied, WasSynced, WasHealthy,
      PlatformValues, Merge3;
    if Composed(d, archive, key, a.ok).None? {
      FailKeeps(id, o, d, docs, trace, trace, "compose: " + a.err, a.now);
    } else {
      MoveKeeps(id, o, d, Moved(d, ChartComposed, a.now), docs, trace, trace);
    }
  }

  lemma {:induction false} WaitKeeps(cfg: Config, o: Origin, id: string, d: Agg, docs: Docs,
                                     trace: seq<Effect>, a: Answer)
    requires MemoryOk(id, o, d, docs, trace) && d.status == Syncing
    ensures DriveOk(o, NextDrive(cfg, docs, Driving(id, Waiting, d), a), docs, trace)
  {
    hide FromDoc, NewDeploymentID, NewComponentID, NewArgoAppName, WasPushed, WasApplied, WasSynced, WasHealthy;
    if a.timedOut {
      MoveKeeps(id, o, d, Moved(d, Degraded, a.now), docs, trace, trace);
    } else if !a.ok {
      FailKeeps(id, o, d, docs, trace, trace, a.err, a.now);
    }
  }

  // Steps that save.

  lemma {:induction false} AfterPollKeeps(o: Origin, id: string, d: Agg, docs: Docs, trace: seq<Effect>,
                                          now: Timestamp)
    requires MemoryOk(id, o, d, docs, trace) && d.status == Syncing && d.health.Some?
    ensures DriveOk(o, AfterPoll(d, now, id), docs, trace)
  {
    hide FromDoc, NewDeploymentID, NewComponentID, NewArgoAppName, WasPushed, WasApplied, WasSynced, WasHealthy;
    if d.health.value.healthStatus == "Healthy" {
      MoveKeeps(id, o, d, Moved(d, Healthy, now), docs, trace, trace);
    } else if d.health.value.healthStatus == "Degraded" {
      MoveKeeps(id, o, d, Moved(d, Degraded, now), docs, trace, trace);
    }
  }

  lemma {:induction false} SavingKeeps(cfg: Config, o: Origin, id: string, pc: Pc, d: Agg, docs: Docs,
                                       trace: seq<Effect>, a: Answer)
    requires ValidOrigin(o) && StoreOk(id, o, docs, trace)
    requires DriveOk(o, Driving(id, pc, d), docs, trace) && Saves(pc)
    ensures
      var after := SaveAnswered(docs, d, a);
      && StoreOk(id, o, after, trace) && DriveOk(o, NextDrive(cfg, docs, Driving(id, pc, d), a), after, trace)
      && (forall other :: other != id ==> Stored(after, other) == Stored(docs, other))
  {
    hide FromDoc, NewDeploymentID, NewComponentID, NewArgoAppName, WasPushed, WasApplied, WasSynced, WasHealthy,
      PlatformValues, Merge3, ValidOrigin, Enter, WellFormed, SaveError, DegradedError;
    var after := SaveAnswered(docs, d, a);
    SaveKeeps(id, o, d, docs, trace, a);
    match pc
    case Saving(next) =>
      if !a.ok {
        FailKeeps(id, o, d, after, trace, trace, SaveError(next, a.err), a.now);
      } else if next == Degraded {
        FailKeeps(id, o, d, after, trace, trace, DegradedError(d), a.now);
      } else {
        DispatchKeeps(id, o, d, after, trace, a.now);
      }
    case SavingResolved(archive, key) =>
      if !a.ok {
        FailKeeps(id, o, d, after, trace, trace, SaveError(ChartResolved, a.err), a.now);
      } else if archive.Some? {
        PrepareKeeps(o, id, d, after, trace, archive, key, a.now);
      }
    case SavingComposed(pkg) =>
      if !a.ok {
        FailKeeps(id, o, d, after, trace, trace, SaveError(ChartComposed, a.err), a.now);
      }
    case SavingPoll =>
      AfterPollKeeps(o, id, d, after, trace, a.now);
    case SavingFailure(_) =>
  }

  // Steps with an effect outside, from the effects trace to trace + [e].

  lemma {:induction false} PublishKeeps(cfg: Config, o: Origin, id: string, pkg: Package, d: Agg, docs: Docs,
                                        trace: seq<Effect>, a: Answer)
    requires DriveOk(o, Driving(id, Publishing(pkg), d), docs, trace)
    ensures
      var drive := Driving(id, Publishing(pkg), d);
      DriveOk(o, NextDrive(cfg, docs, drive, a), docs, trace + Effects(cfg, drive, a))
  {
    hide FromDoc, NewDeploymentID, NewComponentID, NewArgoAppName, WasPushed, WasApplied, WasSynced, WasHealthy,
      Dispatch, AfterResolve, AfterSave, AfterPoll, Composed, PrepareCompose, PlatformValues, Merge3, Pushes,
      FindByID, ToDoc, ChartPath, BaseMetadata, BuildRef;
    var art := ArtifactFor(cfg, o, pkg, a.digest);
    var more := [Pushed(id, pkg, a.digest, art, a.ok)];
    var after := trace + more;
    assert Effects(cfg, Driving(id, Publishing(pkg), d), a) == more;
    EvidenceGrows(d, trace, more);
    if !a.ok {
      FailKeeps(id, o, d, docs, trace, after, "publish: " + a.err, a.now);
    } else {
      assert WasPushed(id, art, after) by { JustDone(id, trace, more[0]); }
      MoveKeeps(id, o, d, Moved(WithArtifact(d, art, a.now), ArtifactPublished, a.now), docs, trace, after);
    }
  }

  // What an effect just done leaves as evidence.
  lemma {:induction false} JustDone(id: string, trace: seq<Effect>, e: Effect)
    requires e.id == id
    ensures e.Pushed? && e.ok ==> WasPushed(id, e.artifact, trace + [e])
    ensures e.Applied? && e.ok ==> WasApplied(id, e.spec.name, trace + [e])
    ensures e.Synced? && e.ok ==> WasSynced(id, e.app, trace + [e])
    ensures e.Polled? && e.reply.Some? && e.reply.value.healthStatus == "Healthy" ==> WasHealthy(id, e.app, trace + [e])
  {
    assert (trace + [e])[|trace|] == e;
  }

  lemma SpecNames(cfg: Config, d: Agg)
    requires WellFormed(d) && d.artifact.Some?
    ensures
      var spec := SpecOf(cfg, d, d.artifact.value);
      && spec.name == AppName(d.origin)
      && spec.destNS == d.origin.target.namespace && spec.project == d.origin.target.appProject
  {
    hide DeriveID, AppName, ChartPath, BaseMetadata, Provenance;
  }

  lemma {:induction false} CreateKeeps(cfg: Config, o: Origin, id: string, d: Agg, docs: Docs,
                                       trace: seq<Effect>, a: Answer)
    requires DriveOk(o, Driving(id, Creating, d), docs, trace)
    requires Pushes(id, trace + Effects(cfg, Driving(id, Creating, d), a)) == Pushes(id, trace)
    ensures
      var drive := Driving(id, Creating, d);
      DriveOk(o, NextDrive(cfg, docs, drive, a), docs, trace + Effects(cfg, drive, a))
  {
    hide FromDoc, DeriveID, AppName, Reaches, WasPushed, WasApplied, WasSynced, WasHealthy, Dispatch,
      AfterResolve, AfterSave, AfterPoll, Composed, PrepareCompose, PlatformValues, Merge3, Pushes, FindByID,
      ToDoc, ChartPath, BaseMetadata, BuildRef, SpecOf, MetadataOf;
    SpecNames(cfg, d);
    var spec := SpecOf(cfg, d, d.artifact.value);
    var more := [Applied(id, spec, a.ok)];
    var after := trace + more;
    assert Effects(cfg, Driving(id, Creating, d), a) == more;
    EvidenceGrows(d, trace, more);
    if !a.ok {
      FailKeeps(id, o, d, docs, trace, after, "argo app: " + a.err, a.now);
    } else {
      JustDone(id, trace, more[0]);
      var e := Moved(WithArgoApp(d, ArgoApp(spec.name, spec.destNS, spec.project), a.now), ArgoAppCreated, a.now);
      MoveKeeps(id, o, d, e, docs, trace, after);
    }
  }

  lemma {:induction false} SyncKeeps(cfg: Config, o: Origin, id: string, d: Agg, docs: Docs,
                                     trace: seq<Effect>, a: Answer)
    requires DriveOk(o, Driving(id, StartingSync, d), docs, trace)
    requires Pushes(id, trace + Effects(cfg, Driving(id, StartingSync, d), a)) == Pushes(id, trace)
    ensures
      var drive := Driving(id, StartingSync, d);
      DriveOk(o, NextDrive(cfg, docs, drive, a), docs, trace + Effects(cfg, drive, a))
  {
    hide FromDoc, NewDeploymentID, NewComponentID, NewArgoAppName, WasPushed, WasApplied, WasSynced, WasHealthy,
      Dispatch, AfterResolve, AfterSave, AfterPoll, Composed, PrepareCompose, PlatformValues, Merge3, Pushes,
      FindByID, ToDoc, ChartPath;
    var more := [Synced(id, AppName(o), a.ok)];
    var after := trace + more;
    assert Effects(cfg, Driving(id, StartingSync, d), a) == more;
    EvidenceGrows(d, trace, more);
    if !a.ok {
      FailKeeps(id, o, d, docs, trace, after, "sync: " + a.err, a.now);
    } else {
      JustDone(id, trace, more[0]);
      MoveKeeps(id, o, d, Moved(d, Syncing, a.now), docs, trace, after);
    }
  }

  lemma {:induction false} PollKeeps(cfg: Config, o: Origin, id: string, d: Agg, docs: Docs,
                                     trace: seq<Effect>, a: Answer)
    requires DriveOk(o, Driving(id, Polling, d), docs, trace)
    requires Pushes(id, trace + Effects(cfg, Driving(id, Polling, d), a)) == Pushes(id, trace)
    ensures
      var drive := Driving(id, Polling, d);
      DriveOk(o, NextDrive(cfg, docs, drive, a), docs, trace + Effects(cfg, drive, a))
  {
    hide FromDoc, NewDeploymentID, NewComponentID, NewArgoAppName, WasPushed, WasApplied, WasSynced, WasHealthy,
      Dispatch, AfterResolve, AfterSave, AfterPoll, Composed, PrepareCompose, PlatformValues, Merge3, Pushes,
      FindByID, ToDoc, ChartPath;
    var more := [Polled(id, AppName(o), if a.ok then Some(a.status) else None)];
    var after := trace + more;
    assert Effects(cfg, Driving(id, Polling, d), a) == more;
    EvidenceGrows(d, trace, more);
    if !a.ok {
      FailKeeps(id, o, d, docs, trace, after, "poll: " + a.err, a.now);
    } else {
      JustDone(id, trace, more[0]);
      MoveKeeps(id, o, d, Observed(d, a.status, a.now), docs, trace, after);
    }
  }

  // An effect of the drive; a push comes from the one stage that publishes.
  ghost predicate OwnEffect(drive: Drive, e: Effect) {
    && e.id == drive.id
    && (e.Pushed? ==> drive.Driving? && drive.pc.Publishing?)
  }

  // The drive may make the call it waits for: what the call relies on has
  // happened, and the call is the deployment's own.
  lemma {:induction false} EffectsJustified(cfg: Config, o: Origin, drive: Drive, docs: Docs,
                                            trace: seq<Effect>, a: Answer)
    requires DriveOk(o, drive, docs, trace) && Grounded(cfg, o, drive, trace)
    requires AllProper(cfg, drive.id, o, trace)
    ensures
      var more := Effects(cfg, drive, a);
      && |more| <= 1
      && (more != [] ==>
            Justified(more[0], trace) && Proper(cfg, o, more[0], trace) && OwnEffect(drive, more[0]))
  {
    hide Justified, Proper, MemoryOk, PcOk, AllProper;
    if drive.Driving? {
      match drive.pc
      case Publishing(pkg) => PushJustified(cfg, o, drive, docs, trace, a);
      case CheckingProject => CheckJustified(cfg, o, drive, docs, trace, a);
      case Creating => ApplyJustified(cfg, o, drive, docs, trace, a);
      case _ => CallJustified(cfg, o, drive, docs, trace, a);
    }
  }

  lemma {:induction false} PushJustified(cfg: Config, o: Origin, drive: Drive, docs: Docs, trace: seq<Effect>,
                                         a: Answer)
    requires DriveOk(o, drive, docs, trace) && Grounded(cfg, o, drive, trace)
    requires drive.Driving? && drive.pc.Publishing?
    ensures
      var e := Effects(cfg, drive, a)[0];
      Justified(e, trace) && Proper(cfg, o, e, trace)
  {
    hide FromDoc, WellFormed, Evidence, Reaches, NothingCleared, Pushes, ComposedFrom, Published, IsNamed,
      LastResolved, NewDeploymentVersion, MetadataOf, Labelled, Traced;
    var pkg := drive.pc.pkg;
    PublishedIsNamed(cfg.registryHost, cfg.repositoryPrefix, o.applicationID, pkg.chart.name, pkg.version, a.digest);
  }

  // The artifact a drive holds was pushed for its application.
  lemma {:induction false} PushedBefore(cfg: Config, o: Origin, d: Agg, trace: seq<Effect>)
    requires d.artifact.Some? && Evidence(d, trace) && AllProper(cfg, d.id, o, trace)
    ensures
      var x := d.artifact.value;
      && WasPushed(d.id, x, trace) && x.registry == cfg.registryHost
      && Reassembled(x.registry, ChartPath(x), x.tag) == x.ociReference
  {
    hide ResolvedAs, ComposedFrom, Labelled, Traced, Published, ChartPath, Reassembled, AppName;
    var x := d.artifact.value;
    var i :| 0 <= i < |trace| && trace[i].Pushed? && trace[i].id == d.id && trace[i].ok && trace[i].artifact == x;
    assert Proper(cfg, o, trace[i], trace[..i]);
    var pkg := trace[i].pkg;
    PublishedIsNamed(cfg.registryHost, cfg.repositoryPrefix, o.applicationID, pkg.chart.name, pkg.version, x.digest);
    assert x ==
      Published(cfg.registryHost, cfg.repositoryPrefix, o.applicationID, pkg.chart.name, pkg.version, x.digest);
    ReassemblesPushed(cfg.registryHost, cfg.repositoryPrefix, o.applicationID, pkg.chart.name, pkg.version, x.digest);
  }

  lemma {:induction false} CheckJustified(cfg: Config, o: Origin, drive: Drive, docs: Docs, trace: seq<Effect>,
                                          a: Answer)
    requires DriveOk(o, drive, docs, trace) && AllProper(cfg, drive.id, o, trace)
    requires drive.Driving? && drive.pc.CheckingProject?
    ensures
      var e := Effects(cfg, drive, a)[0];
      |Effects(cfg, drive, a)| == 1 && Justified(e, trace) && Proper(cfg, o, e, trace)
  {
    hide FromDoc, Evidence, Reaches, NothingCleared, Pushes, AllProper, DeriveID, AppName, BaseMetadata,
      Provenance, ChartPath, WasPushed, MetadataOf;
    PushedBefore(cfg, o, drive.d, trace);
  }

  lemma {:induction false} ApplyJustified(cfg: Config, o: Origin, drive: Drive, docs: Docs, trace: seq<Effect>,
                                          a: Answer)
    requires DriveOk(o, drive, docs, trace) && AllProper(cfg, drive.id, o, trace) && Grounded(cfg, o, drive, trace)
    requires drive.Driving? && drive.pc.Creating?
    ensures
      var e := Effects(cfg, drive, a)[0];
      |Effects(cfg, drive, a)| == 1 && Justified(e, trace) && Proper(cfg, o, e, trace)
  {
    hide FromDoc, Evidence, Reaches, NothingCleared, Pushes, AllProper, DeriveID, AppName, BaseMetadata,
      Provenance, ChartPath, WasPushed, LastDone, Reassembled, Labelled, Traced;
    PushedBefore(cfg, o, drive.d, trace);
    SpecIsOwn(cfg, drive.d);
  }

  lemma SpecIsOwn(cfg: Config, d: Agg)
    requires d.artifact.Some?
    ensures
      var spec := SpecOf(cfg, d, d.artifact.value);
      Labelled(spec.labels, d.origin) && Traced(spec.annotations, d.id, d.origin)
  {
  }

  lemma {:induction false} CallJustified(cfg: Config, o: Origin, drive: Drive, docs: Docs, trace: seq<Effect>,
                                         a: Answer)
    requires DriveOk(o, drive, docs, trace)
    requires drive.Driving? && !drive.pc.Publishing? && !drive.pc.CheckingProject? && !drive.pc.Creating?
    ensures
      var more := Effects(cfg, drive, a);
      |more| <= 1 && (more != [] ==> Justified(more[0], trace) && Proper(cfg, o, more[0], trace))
  {
    hide FromDoc, Reaches, NothingCleared, Pushes, DeriveID, WasPushed, WasApplied, WasSynced, WasHealthy,
      ComposedFrom;
  }

  lemma {:induction false} StoreGrows(id: string, o: Origin, docs: Docs, trace: seq<Effect>, more: seq<Effect>)
    requires StoreOk(id, o, docs, trace)
    requires Pushes(id, trace + more) > Pushes(id, trace) ==> id in docs && Last(docs, id).status == ChartComposed
    requires Pushes(id, trace + more) >= Pushes(id, trace)
    ensures StoreOk(id, o, docs, trace + more)
  {
    hide WellFormed, Pushes, FromDoc, ToDoc;
    if id in docs {
      EvidenceGrows(Last(docs, id), trace, more);
    }
  }

  // The rest of a deployment, when the effects grow by what its drive just did.
  lemma {:induction false} EffectsKeep(cfg: Config, o: Origin, drive: Drive, docs: Docs, trace: seq<Effect>,
                                       a: Answer)
    requires DeploymentOk(cfg, o, Conf(drive, docs, trace))
    ensures
      var after := trace + Effects(cfg, drive, a);
      && StoreOk(drive.id, o, docs, after) && InOrder(after)
      && AllProper(cfg, drive.id, o, after) && Pushes(drive.id, after) <= 1
      && (!(drive.Driving? && drive.pc.Publishing?) ==> Pushes(drive.id, after) == Pushes(drive.id, trace))
      && (forall other :: other != drive.id ==> Pushes(other, after) == Pushes(other, trace))
  {
    hide FromDoc, WellFormed, Evidence, InOrder, NothingCleared, Reaches, Effects, Justified, Proper, AllProper,
      ValidOrigin, Faithful, Pushes, Grounded;
    var more := Effects(cfg, drive, a);
    EffectsJustified(cfg, o, drive, docs, trace, a);
    OrderGrows(trace, more);
    ProperGrows(cfg, drive.id, o, trace, more);
    PushesGrow(drive.id, trace, more);
    forall other | other != drive.id
      ensures Pushes(other, trace + more) == Pushes(other, trace)
    {
      PushesGrow(other, trace, more);
    }
    StoreGrows(drive.id, o, docs, trace, more);
  }

  // A drive that has moved while its call left something outside.
  lemma {:induction false} DriveGrows(o: Origin, drive: Drive, docs: Docs, trace: seq<Effect>, more: seq<Effect>)
    requires DriveOk(o, drive, docs, trace) && Pushes(drive.id, trace + more) == Pushes(drive.id, trace)
    ensures DriveOk(o, drive, docs, trace + more)
  {
    hide FromDoc, WellFormed, Evidence, NothingCleared, Reaches, Pushes, PcOk;
    if drive.Driving? {
      EvidenceGrows(drive.d, trace, more);
    }
  }

  // The answers a drive carries on are the last ones of the effects.
  lemma {:induction false} GroundsKeep(cfg: Config, o: Origin, drive: Drive, docs: Docs, trace: seq<Effect>,
                                       a: Answer)
    requires DriveOk(o, drive, docs, trace) && Grounded(cfg, o, drive, trace)
    ensures Grounded(cfg, o, NextDrive(cfg, docs, drive, a), trace + Effects(cfg, drive, a))
  {
    var more := Effects(cfg, drive, a);
    var after := trace + more;
    hide Grounded, DriveOk;
    match drive
    case Loading(id) =>
      if FindByID(docs, id).Ok? {
        EntersUngrounded(cfg, o, FindByID(docs, id).value, a.now, id, after);
      }
      LoadedGrounds(cfg, o, drive, docs, after, a);
    case Returning(_, _) => UngroundedOk(cfg, o, drive, after);
    case Driving(id, pc, d) =>
      if pc.Resolving? {
        ResolveGrounds(cfg, o, drive, docs, trace, a);
      } else if pc.CheckingProject? {
        CheckGrounds(cfg, o, drive, docs, trace, a);
      } else if pc.SavingResolved? || pc.Composing? || pc.SavingComposed? {
        ArchiveGrounds(cfg, o, drive, docs, trace, a);
      } else {
        OtherGrounds(cfg, o, drive, docs, after, a);
      }
  }

  // No drive needs grounds at the start of a stage.
  predicate Ungrounded(drive: Drive) {
    drive.Driving? ==>
      && !drive.pc.SavingResolved? && !drive.pc.Composing? && !drive.pc.SavingComposed?
      && !drive.pc.Publishing? && !drive.pc.Creating?
  }

  lemma UngroundedOk(cfg: Config, o: Origin, drive: Drive, trace: seq<Effect>)
    requires Ungrounded(drive)
    ensures Grounded(cfg, o, drive, trace)
  {
  }

  lemma {:induction false} EntersUngrounded(cfg: Config, o: Origin, d: Agg, now: Timestamp, id: string,
                                            trace: seq<Effect>)
    ensures Ungrounded(Dispatch(d, now, id)) && Ungrounded(Enter(d, now, id))
  {
    hide WithMetadata, BaseMetadata, Ended, Moved, CanTransitionTo, MarkFailed;
  }

  lemma {:induction false} LoadedGrounds(cfg: Config, o: Origin, drive: Drive, docs: Docs, after: seq<Effect>,
                                         a: Answer)
    requires drive.Loading?
    requires FindByID(docs, drive.id).Ok? ==> Ungrounded(Enter(FindByID(docs, drive.id).value, a.now, drive.id))
    ensures Grounded(cfg, o, NextDrive(cfg, docs, drive, a), after)
  {
    hide FindByID, Enter, IsTerminal;
  }

  lemma {:induction false} OtherGrounds(cfg: Config, o: Origin, drive: Drive, docs: Docs, after: seq<Effect>,
                                        a: Answer)
    requires drive.Driving? && !drive.pc.Resolving? && !drive.pc.CheckingProject?
    requires !drive.pc.SavingResolved? && !drive.pc.Composing? && !drive.pc.SavingComposed?
    ensures Grounded(cfg, o, NextDrive(cfg, docs, drive, a), after)
  {
    hide Dispatch, SaveError, DegradedError, CanTransitionTo, Moved, MarkFailed, WithArtifact, WithArgoApp,
      Observed, SpecOf, ArtifactFor, Grounded, Name;
    EntersUngrounded(cfg, o, drive.d, a.now, drive.id, after);
    UngroundedOk(cfg, o, NextDrive(cfg, docs, drive, a), after);
  }

  lemma {:induction false} ResolveGrounds(cfg: Config, o: Origin, drive: Drive, docs: Docs, trace: seq<Effect>,
                                          a: Answer)
    requires DriveOk(o, drive, docs, trace) && drive.Driving? && drive.pc.Resolving?
    ensures Grounded(cfg, o, NextDrive(cfg, docs, drive, a), trace + Effects(cfg, drive, a))
  {
    hide FromDoc, WellFormed, Evidence, NothingCleared, Reaches, Pushes, DeriveID, NewDeploymentVersion,
      CanTransitionTo, MarkFailed, PlatformValues, Name, LastResolved;
    LastGrows(drive.id, trace, Effects(cfg, drive, a));
  }

  lemma {:induction false} CheckGrounds(cfg: Config, o: Origin, drive: Drive, docs: Docs, trace: seq<Effect>,
                                        a: Answer)
    requires drive.Driving? && drive.pc.CheckingProject?
    ensures Grounded(cfg, o, NextDrive(cfg, docs, drive, a), trace + Effects(cfg, drive, a))
  {
    hide SpecOf, LastDone, LastResolved, MarkFailed, Name;
    LastGrows(drive.id, trace, Effects(cfg, drive, a));
  }

  lemma {:induction false} ArchiveGrounds(cfg: Config, o: Origin, drive: Drive, docs: Docs, trace: seq<Effect>,
                                          a: Answer)
    requires Grounded(cfg, o, drive, trace) && drive.Driving?
    requires drive.pc.SavingResolved? || drive.pc.Composing? || drive.pc.SavingComposed?
    ensures Grounded(cfg, o, NextDrive(cfg, docs, drive, a), trace + Effects(cfg, drive, a))
  {
    hide ResolvedAs, CanTransitionTo, MarkFailed, PlatformValues, Name, Merge3, SaveError;
    assert trace + [] == trace;
  }

  // A call after which nothing has changed outside: it asks, or stays in the
  // process.
  predicate Quiet(pc: Pc) {
    pc.Resolving? || pc.Composing? || pc.CheckingProject? || pc.Waiting?
  }

  lemma {:induction false} QuietKeeps(cfg: Config, o: Origin, id: string, pc: Pc, d: Agg, docs: Docs,
                                      trace: seq<Effect>, a: Answer)
    requires DriveOk(o, Driving(id, pc, d), docs, trace) && Quiet(pc)
    ensures DriveOk(o, NextDrive(cfg, docs, Driving(id, pc, d), a), docs, trace)
  {
    hide FromDoc, WellFormed, Evidence, NothingCleared, Reaches, PlatformValues, StepTo, FailWith, AfterResolve,
      Composed, Pushes;
    match pc
    case Resolving => ResolveKeeps(o, id, d, docs, trace, a);
    case Composing(archive, key) => ComposeKeeps(cfg, o, id, d, docs, trace, archive, key, a);
    case CheckingProject =>
      if !a.ok {
        FailKeeps(id, o, d, docs, trace, trace, "project: " + a.err, a.now);
      }
    case Waiting => WaitKeeps(cfg, o, id, d, docs, trace, a);
  }

  lemma {:induction false} ActingKeeps(cfg: Config, o: Origin, id: string, pc: Pc, d: Agg, docs: Docs,
                                       trace: seq<Effect>, a: Answer)
    requires DriveOk(o, Driving(id, pc, d), docs, trace) && !Quiet(pc) && !Saves(pc)
    requires !pc.Publishing? ==> Pushes(id, trace + Effects(cfg, Driving(id, pc, d), a)) == Pushes(id, trace)
    ensures
      var drive := Driving(id, pc, d);
      DriveOk(o, NextDrive(cfg, docs, drive, a), docs, trace + Effects(cfg, drive, a))
  {
    hide DriveOk, NextDrive, Effects, Pushes;
    match pc
    case Publishing(pkg) => PublishKeeps(cfg, o, id, pkg, d, docs, trace, a);
    case Creating => CreateKeeps(cfg, o, id, d, docs, trace, a);
    case StartingSync => SyncKeeps(cfg, o, id, d, docs, trace, a);
    case Polling => PollKeeps(cfg, o, id, d, docs, trace, a);
  }

  lemma NoEffects(cfg: Config, drive: Drive, a: Answer, trace: seq<Effect>)
    requires drive.Driving? ==> Saves(drive.pc)
    ensures trace + Effects(cfg, drive, a) == trace
  {
    assert trace + [] == trace;
  }

  // Every answer to every call a drive can wait for keeps everything about its
  // deployment, and touches no other.
  lemma {:induction false} StepKeeps(cfg: Config, o: Origin, c: Conf, a: Answer)
    requires DeploymentOk(cfg, o, c)
    ensures
      var n := DriveStep(cfg, c, a);
      && DeploymentOk(cfg, o, n)
      && n.drive.id == c.drive.id
      && forall other :: other != c.drive.id ==>
        Stored(n.docs, other) == Stored(c.docs, other) && Pushes(other, n.trace) == Pushes(other, c.trace)
  {
    var docs, trace, drive := c.docs, c.trace, c.drive;
    hide FromDoc, StoreOk, MemoryOk, PcOk, InOrder, AllProper, ValidOrigin, NextDrive, Effects, Pushes,
      SaveAnswered, Grounded, DriveOk;
    EffectsKeep(cfg, o, drive, docs, trace, a);
    GroundsKeep(cfg, o, drive, docs, trace, a);
    if drive.Driving? && Saves(drive.pc) {
      NoEffects(cfg, drive, a, trace);
      SavingKeeps(cfg, o, drive.id, drive.pc, drive.d, docs, trace, a);
    } else if drive.Driving? && Quiet(drive.pc) {
      QuietKeeps(cfg, o, drive.id, drive.pc, drive.d, docs, trace, a);
      DriveGrows(o, NextDrive(cfg, docs, drive, a), docs, trace, Effects(cfg, drive, a));
    } else if drive.Driving? {
      ActingKeeps(cfg, o, drive.id, drive.pc, drive.d, docs, trace, a);
    } else if drive.Loading? {
      LoadKeeps(cfg, o, drive.id, docs, trace, a);
      NoEffects(cfg, drive, a, trace);
    } else {
      ReturnedStays(cfg, docs, drive, a);
      ReturnedOk(o, drive, docs, trace + Effects(cfg, drive, a));
    }
  }

  lemma ReturnedOk(o: Origin, drive: Drive, docs: Docs, trace: seq<Effect>)
    requires drive.Returning?
    ensures DriveOk(o, drive, docs, trace)
  {
  }

  lemma ReturnedStays(cfg: Config, docs: Docs, drive: Drive, a: Answer)
    requires drive.Returning?
    ensures NextDrive(cfg, docs, drive, a) == drive
  {
  }
}
