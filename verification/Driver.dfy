/** One drive of a deployment through the pipeline, as a machine whose step
    takes the answer to the call it is waiting for, does the computing that
    follows, and stops in front of the next call
    (internal/application/deployment/execute.go). */
module Driver {
  import opened Wrappers
  import opened Lifecycle
  import opened ValueObjects
  import opened Values
  import opened Aggregate
  import opened Persistence
  import opened Ports
  import opened PlatformLayer
  import opened Publisher

  // The call a drive is about to make.
  datatype Pc =
    | Saving(next: Status)
    | Resolving
    | SavingResolved(archive: Option<Chart>, appValuesKey: string)
    | Composing(archive: Option<Chart>, appValuesKey: string)
    | SavingComposed(pkg: Package)
    | Publishing(pkg: Package)
    | CheckingProject
    | Creating
    | StartingSync
    | Polling
    | SavingPoll
    | Waiting
    | SavingFailure(msg: string)

  // Loading and Driving hold the in-flight lock; Returning is about to release
  // it, with the error Execute returns.
  datatype Drive =
    | Loading(id: string)
    | Driving(id: string, pc: Pc, d: Agg)
    | Returning(id: string, error: Option<string>)

  datatype Conf = Conf(drive: Drive, docs: Docs, trace: seq<Effect>)

  function BaseMetadata(o: Origin): Metadata {
    Metadata(
      NewComponentID(o.applicationID, o.target.environment, o.target.cluster, ShortSHA(o.source)),
      "",
      NewArgoAppName(o.applicationID, o.target.environment, o.target.namespace),
      map["app.kubernetes.io/instance" := o.applicationID,
          "app.kubernetes.io/managed-by" := "platform-orchestrator",
          "platform.myorg.io/team" := o.team,
          "platform.myorg.io/environment" := o.target.environment])
  }

  // Go dereferences the metadata pointer; WellFormed states keep it set
  // wherever this is used.
  function MetadataOf(d: Agg): Metadata {
    match d.metadata case Some(m) => m case None => Metadata("", "", "", map[])
  }

  // The resolved chart version becomes part of the deployment version.
  function Stamped(d: Agg, resolved: ResolvedChart, now: Timestamp): Agg {
    var version := NewDeploymentVersion(resolved.version, ShortSHA(d.origin.source), d.origin.startedAt);
    WithMetadata(d, MetadataOf(d).(deploymentVersion := version), now)
  }

  function Provenance(id: string, o: Origin): map<string, string> {
    map["platform.myorg.io/deployment-id" := id, "platform.myorg.io/correlation-id" := o.correlationID]
  }

  function SpecOf(cfg: Config, d: Agg, art: Artifact): ArgoSpec {
    ArgoSpec(MetadataOf(d).argoAppName, cfg.argoNamespace, d.origin.target.appProject,
             art.registry, ChartPath(art), art.tag, cfg.destServer, d.origin.target.namespace,
             BaseMetadata(d.origin).labels,
             Provenance(d.id, d.origin))
  }

  // The project check asks for what is about to be applied.
  function CheckOf(id: string, spec: ArgoSpec, ok: bool): Effect {
    Checked(id, spec.project, spec.repoURL, spec.destServer, spec.destNS, ok)
  }

  function ArtifactFor(cfg: Config, o: Origin, pkg: Package, digest: string): Artifact {
    Published(cfg.registryHost, cfg.repositoryPrefix, o.applicationID, pkg.chart.name, pkg.version, digest)
  }

  function SaveError(next: Status, err: string): string {
    if next == Completed then "save completed: " + err else "save at " + Name(next) + ": " + err
  }

  function DegradedError(d: Agg): string {
    "degraded: " + match d.health case Some(h) => h.message case None => "timeout"
  }

  // Execute's error path: mark the aggregate and save what can be saved.
  function FailWith(d: Agg, msg: string, now: Timestamp, id: string): (r: Drive)
    ensures r.id == id
  {
    Driving(id, SavingFailure(msg), MarkFailed(d, msg, now))
  }

  // step: the transition in memory, then its save.
  function StepTo(d: Agg, next: Status, pc: Pc, now: Timestamp, id: string): (r: Drive)
    ensures r.id == id
  {
    if CanTransitionTo(d.status, next) then Driving(id, pc, Moved(d, next, now))
    else FailWith(d, "no edge to " + Name(next), now, id)
  }

  // The first guarded stage of run that the status enters. CHART_COMPOSED and
  // DEGRADED enter none.
  function Dispatch(d: Agg, now: Timestamp, id: string): (r: Drive)
    ensures r.id == id
  {
    match d.status
    case Received => StepTo(d, Validating, Saving(Validating), now, id)
    case Validating =>
      StepTo(WithMetadata(d, BaseMetadata(d.origin), now), MetadataGenerated, Saving(MetadataGenerated), now, id)
    case MetadataGenerated => Driving(id, Resolving, d)
    case ChartResolved => Driving(id, Resolving, d)
    case ArtifactPublished =>
      if d.artifact.None? then FailWith(d, "no artifact", now, id)
      else Driving(id, CheckingProject, d)
    case ArgoAppCreated =>
      if d.argoApp.None? then FailWith(d, "no argo app", now, id)
      else Driving(id, StartingSync, d)
    case Syncing => Driving(id, Polling, d)
    case Healthy =>
      if CanTransitionTo(d.status, Completed) then Driving(id, Saving(Completed), Ended(d, Completed, now))
      else FailWith(d, "complete", now, id)
    case _ => Returning(id, None)
  }

  // run on a loaded deployment.
  function Enter(d: Agg, now: Timestamp, id: string): (r: Drive)
    ensures r.id == id
  {
    if d.status != Received && d.status != Validating && d.metadata.None? then
      FailWith(d, "no metadata", now, id)
    else Dispatch(d, now, id)
  }

  // The compose stage with what has been resolved.
  function PrepareCompose(d: Agg, archive: Option<Chart>, key: string, now: Timestamp, id: string): (r: Drive)
    ensures r.id == id
  {
    match PlatformValues(d.origin, key)
    case Err(e) => FailWith(d, "compose: " + e, now, id)
    case Ok(_) => Driving(id, Composing(archive, key), d)
  }

  // Compose refuses an empty archive or version before it merges anything.
  function Composed(d: Agg, archive: Option<Chart>, key: string, ok: bool): Option<Package> {
    var version := MetadataOf(d).deploymentVersion;
    if archive.None? || version == "" || !ok || PlatformValues(d.origin, key).Err? then None
    else Some(Package(archive.value, key, version,
                      Merge3(archive.value.values, d.origin.values, PlatformValues(d.origin, key).value)))
  }

  function AfterResolve(d: Agg, a: Answer, id: string): (r: Drive)
    ensures r.id == id
  {
    if !a.ok then FailWith(d, "resolve: " + a.err, a.now, id)
    else
      var stamped := Stamped(d, a.resolved, a.now);
      if d.status == MetadataGenerated then
        StepTo(stamped, ChartResolved, SavingResolved(a.resolved.archive, a.resolved.appValuesKey), a.now, id)
      else PrepareCompose(stamped, a.resolved.archive, a.resolved.appValuesKey, a.now, id)
  }

  function AfterSave(d: Agg, next: Status, a: Answer, id: string): (r: Drive)
    ensures r.id == id
  {
    if !a.ok then FailWith(d, SaveError(next, a.err), a.now, id)
    else if next == Degraded then FailWith(d, DegradedError(d), a.now, id)
    else Dispatch(d, a.now, id)
  }

  function AfterPoll(d: Agg, now: Timestamp, id: string): (r: Drive)
    ensures r.id == id
  {
    var health := match d.health case Some(h) => h.healthStatus case None => "";
    if health == "Healthy" then StepTo(d, Healthy, Saving(Healthy), now, id)
    else if health == "Degraded" then StepTo(d, Degraded, Saving(Degraded), now, id)
    else Driving(id, Waiting, d)
  }

  function Observed(d: Agg, s: ArgoStatus, now: Timestamp): Agg {
    WithHealth(d, Health(s.syncStatus, s.healthStatus, s.message, now), now)
  }

  // The drive after the answer to its call.
  function NextDrive(cfg: Config, docs: Docs, drive: Drive, a: Answer): (r: Drive)
    ensures r.id == drive.id
  {
    match drive
    case Loading(id) =>
      if !a.ok then Returning(id, Some("load " + id + ": " + a.err))
      else (match FindByID(docs, id)
            case Err(e) => Returning(id, Some("load " + id + ": " + e))
            case Ok(d) => if IsTerminal(d.status) then Returning(id, None) else Enter(d, a.now, id))
    case Returning(_, _) => drive
    case Driving(id, pc, d) =>
      match pc
      case Saving(next) => AfterSave(d, next, a, id)
      case Resolving => AfterResolve(d, a, id)
      case SavingResolved(archive, key) =>
        if !a.ok then FailWith(d, SaveError(ChartResolved, a.err), a.now, id)
        else if archive.Some? then PrepareCompose(d, archive, key, a.now, id)
        else Driving(id, Resolving, d)
      case Composing(archive, key) =>
        (match Composed(d, archive, key, a.ok)
         case None => FailWith(d, "compose: " + a.err, a.now, id)
         case Some(pkg) => StepTo(d, ChartComposed, SavingComposed(pkg), a.now, id))
      case SavingComposed(pkg) =>
        if !a.ok then FailWith(d, SaveError(ChartComposed, a.err), a.now, id)
        else Driving(id, Publishing(pkg), d)
      case Publishing(pkg) =>
        if !a.ok then FailWith(d, "publish: " + a.err, a.now, id)
        else StepTo(WithArtifact(d, ArtifactFor(cfg, d.origin, pkg, a.digest), a.now),
                    ArtifactPublished, Saving(ArtifactPublished), a.now, id)
      case CheckingProject =>
        if !a.ok then FailWith(d, "project: " + a.err, a.now, id)
        else Driving(id, Creating, d)
      case Creating =>
        if !a.ok || d.artifact.None? then FailWith(d, "argo app: " + a.err, a.now, id)
        else
          var spec := SpecOf(cfg, d, d.artifact.value);
          StepTo(WithArgoApp(d, ArgoApp(spec.name, spec.destNS, spec.project), a.now),
                 ArgoAppCreated, Saving(ArgoAppCreated), a.now, id)
      case StartingSync =>
        if !a.ok then FailWith(d, "sync: " + a.err, a.now, id)
        else StepTo(d, Syncing, Saving(Syncing), a.now, id)
      case Polling =>
        if !a.ok then FailWith(d, "poll: " + a.err, a.now, id)
        else Driving(id, SavingPoll, Observed(d, a.status, a.now))
      case SavingPoll => AfterPoll(d, a.now, id)
      case Waiting =>
        if a.timedOut then StepTo(d, Degraded, Saving(Degraded), a.now, id)
        else if !a.ok then FailWith(d, a.err, a.now, id)
        else Driving(id, Polling, d)
      case SavingFailure(msg) => Returning(id, Some(msg))
  }

  predicate Saves(pc: Pc) {
    pc.Saving? || pc.SavingResolved? || pc.SavingComposed? || pc.SavingPoll? || pc.SavingFailure?
  }

  // The store after the call: every save, also one whose error is ignored,
  // may have been applied.
  function NextDocs(docs: Docs, drive: Drive, a: Answer): Docs {
    if drive.Driving? && Saves(drive.pc) then SaveAnswered(docs, drive.d, a) else docs
  }

  // What the call leaves outside the store.
  function Effects(cfg: Config, drive: Drive, a: Answer): seq<Effect> {
    if !drive.Driving? then []
    else
      match drive.pc
      case Resolving => [Resolved(drive.id, drive.d.origin.chartSource, if a.ok then Some(a.resolved) else None)]
      case Publishing(pkg) =>
        [Pushed(drive.id, pkg, a.digest, ArtifactFor(cfg, drive.d.origin, pkg, a.digest), a.ok)]
      case CheckingProject =>
        if drive.d.artifact.None? then []
        else [CheckOf(drive.id, SpecOf(cfg, drive.d, drive.d.artifact.value), a.ok)]
      case Creating =>
        if drive.d.artifact.None? then []
        else [Applied(drive.id, SpecOf(cfg, drive.d, drive.d.artifact.value), a.ok)]
      case StartingSync => [Synced(drive.id, MetadataOf(drive.d).argoAppName, a.ok)]
      case Polling => [Polled(drive.id, MetadataOf(drive.d).argoAppName, if a.ok then Some(a.status) else None)]
      case _ => []
  }

  function DriveStep(cfg: Config, c: Conf, a: Answer): Conf {
    Conf(NextDrive(cfg, c.docs, c.drive, a), NextDocs(c.docs, c.drive, a), c.trace + Effects(cfg, c.drive, a))
  }

  // The drive after a whole sequence of answers.
  function DriveRun(cfg: Config, c: Conf, answers: seq<Answer>): Conf {
    if answers == [] then c
    else DriveStep(cfg, DriveRun(cfg, c, answers[..|answers| - 1]), answers[|answers| - 1])
  }

  lemma RunGrows(cfg: Config, c: Conf, answers: seq<Answer>, a: Answer)
    ensures DriveRun(cfg, c, answers + [a]) == DriveStep(cfg, DriveRun(cfg, c, answers), a)
  {
    hide DriveStep;
    assert (answers + [a])[..|answers|] == answers;
  }
}
