/** The executor as it is written: a handler that takes a lock, loads a
    deployment and runs it through guarded stages
    (internal/application/deployment/execute.go). Each method says which point
    of the driver's machine it starts from and which it ends at, so that the
    whole of Execute is a run of that machine on the answers it was given. */
module Executor {
  import opened Wrappers
  import opened Lifecycle
  import opened ValueObjects
  import opened Values
  import opened Aggregate
  import opened Persistence
  import opened Ports
  import opened PlatformLayer
  import opened Publisher
  import opened Driver
  import opened Invariant
  import opened Outcome

  // The state a drive started from, and how many answers were logged before it.
  datatype Since = Since(start: Conf, base: nat)

  lemma OneMoreAnswer(cfg: Config, since: Since, log: seq<Answer>, a: Answer)
    requires since.base <= |log|
    ensures DriveRun(cfg, since.start, (log + [a])[since.base..]) ==
            DriveStep(cfg, DriveRun(cfg, since.start, log[since.base..]), a)
  {
    assert (log + [a])[since.base..] == log[since.base..] + [a];
    RunGrows(cfg, since.start, log[since.base..], a);
  }

  class DeployExecutionHandler {
    const cfg: Config
    const w: World
    var inflight: set<string>

    constructor (cfg: Config, w: World)
      ensures this.cfg == cfg && this.w == w && inflight == {}
    {
      this.cfg, this.w, inflight := cfg, w, {};
    }

    // The machine has reached drive.
    ghost predicate At(since: Since, drive: Drive)
      reads w
    {
      && since.base <= |w.log|
      && DriveRun(cfg, since.start, w.log[since.base..]) == Conf(drive, w.docs, w.trace)
    }

    method Acquire(id: string) returns (ok: bool)
      modifies this`inflight
      ensures ok <==> id !in old(inflight)
      ensures inflight == old(inflight) + {id}
    {
      ok := id !in inflight;
      inflight := inflight + {id};
    }

    method Release(id: string)
      modifies this`inflight
      ensures inflight == old(inflight) - {id}
    {
      inflight := inflight - {id};
    }

    // The transition in memory, then its save.
    method Step(d: Deployment, next: Status, ghost pc: Pc, ghost id: string, ghost since: Since)
      returns (err: Option<string>, ghost a: Answer)
      requires At(since, StepTo(d.State(), next, pc, w.now, id))
      requires pc == Saving(next) || (pc.SavingResolved? && next == ChartResolved)
            || (pc.SavingComposed? && next == ChartComposed)
      requires next != Completed
      modifies d, w
      ensures err.Some? ==> At(since, FailWith(d.State(), err.value, w.now, id))
      ensures err.None? ==>
        && a.ok && a.now == w.now
        && d.State() == Moved(old(d.State()), next, old(w.now)) && d.status == next
        && At(since, NextDrive(cfg, old(w.docs), Driving(id, pc, d.State()), a))
    {
      hide DriveRun, Name, MarkFailed, Dispatch, PrepareCompose, SaveAnswered, DegradedError;
      a := *;
      var moved := d.TransitionTo(next, w.now);
      if !moved {
        err := Some("no edge to " + Name(next));
        return;
      }
      ghost var log := w.log;
      var answer := w.Save(d);
      a := answer;
      OneMoreAnswer(cfg, since, log, a);
      if !answer.ok {
        err := Some("save at " + Name(next) + ": " + answer.err);
        assert err.value == SaveError(next, answer.err);
      } else {
        err := None;
      }
    }

    // ensureArchive: resolves unless the archive is there already.
    method EnsureArchive(d: Deployment, archive: Option<Chart>, key: string, id: string, ghost since: Since)
      returns (err: Option<string>, chart: Option<Chart>, appValuesKey: string)
      requires archive.None? ==> At(since, Driving(id, Resolving, d.State()))
      modifies d, w
      ensures archive.Some? ==>
        err.None? && chart == archive && appValuesKey == key && d.State() == old(d.State()) && unchanged(w)
      ensures archive.None? && err.Some? ==> At(since, FailWith(d.State(), err.value, w.now, id))
      ensures archive.None? && err.None? ==>
        && d.status == old(d.status)
        && At(since, if d.status == MetadataGenerated
                     then StepTo(d.State(), ChartResolved, SavingResolved(chart, appValuesKey), w.now, id)
                     else PrepareCompose(d.State(), chart, appValuesKey, w.now, id))
    {
      hide DriveRun, Name, FailWith, Dispatch, PrepareCompose, StepTo, NewDeploymentVersion, DeriveID,
        PlatformValues;
      err, chart, appValuesKey := None, archive, key;
      if archive.Some? {
        return;
      }
      ghost var log := w.log;
      var a := w.Resolve(id, d.origin.chartSource);
      OneMoreAnswer(cfg, since, log, a);
      if !a.ok {
        err := Some("resolve: " + a.err);
        return;
      }
      chart, appValuesKey := a.resolved.archive, a.resolved.appValuesKey;
      var md := MetadataOf(d.State());
      var version := NewDeploymentVersion(a.resolved.version, ShortSHA(d.origin.source), d.origin.startedAt);
      d.SetMetadata(md.(deploymentVersion := version), w.now);
      assert d.State() == Stamped(old(d.State()), a.resolved, w.now);
    }

    // METADATA_GENERATED to CHART_RESOLVED.
    method ResolveStage(d: Deployment, id: string, ghost since: Since)
      returns (err: Option<string>, archive: Option<Chart>, key: string)
      requires d.status == MetadataGenerated && At(since, Driving(id, Resolving, d.State()))
      modifies d, w
      ensures err.Some? ==> At(since, FailWith(d.State(), err.value, w.now, id))
      ensures err.None? ==>
        && d.status == ChartResolved
        && At(since, if archive.Some? then PrepareCompose(d.State(), archive, key, w.now, id)
                     else Driving(id, Resolving, d.State()))
    {
      hide DriveRun, Name, FailWith, Dispatch, PrepareCompose, PlatformValues, DriveStep;
      err, archive, key := EnsureArchive(d, None, "", id, since);
      if err.Some? {
        return;
      }
      ghost var a;
      err, a := Step(d, ChartResolved, SavingResolved(archive, key), id, since);
    }

    // CHART_RESOLVED through CHART_COMPOSED to ARTIFACT_PUBLISHED.
    method ComposeStage(d: Deployment, archive: Option<Chart>, key: string, id: string, ghost since: Since)
      returns (err: Option<string>)
      requires d.status == ChartResolved
      requires At(since, if archive.Some? then PrepareCompose(d.State(), archive, key, w.now, id)
                         else Driving(id, Resolving, d.State()))
      modifies d, w
      ensures err.Some? ==> At(since, FailWith(d.State(), err.value, w.now, id))
      ensures err.None? ==> d.status == ArtifactPublished && At(since, Dispatch(d.State(), w.now, id))
    {
      hide DriveRun, Name, FailWith, Dispatch, DriveStep, PlatformValues, Merge3;
      var chart, appValuesKey;
      err, chart, appValuesKey := EnsureArchive(d, archive, key, id, since);
      if err.Some? {
        return;
      }
      assert At(since, PrepareCompose(d.State(), chart, appValuesKey, w.now, id));
      var pkg;
      err, pkg := Compose(d, chart, appValuesKey, id, since);
      if err.Some? {
        return;
      }
      ghost var a;
      err, a := Step(d, ChartComposed, SavingComposed(pkg), id, since);
      if err.Some? {
        return;
      }
      err := PublishPackage(d, pkg, id, since);
    }

    // The platform's values and the compose call.
    method Compose(d: Deployment, archive: Option<Chart>, key: string, id: string, ghost since: Since)
      returns (err: Option<string>, pkg: Package)
      requires At(since, PrepareCompose(d.State(), archive, key, w.now, id))
      modifies w
      ensures err.Some? ==> At(since, FailWith(d.State(), err.value, w.now, id))
      ensures err.None? ==> At(since, StepTo(d.State(), ChartComposed, SavingComposed(pkg), w.now, id))
    {
      hide DriveRun, Name, FailWith, Dispatch, StepTo, PlatformValues, Merge3;
      err, pkg := None, Package(Chart("", map[]), "", "", map[]);
      var version := MetadataOf(d.State()).deploymentVersion;
      var pv := ComputePlatformValues(d.origin, key);
      if pv.Err? {
        err := Some("compose: " + pv.error);
        return;
      }
      ghost var log, trace := w.log, w.trace;
      var a := w.Call();
      OneMoreAnswer(cfg, since, log, a);
      assert trace + [] == trace;
      if archive.None? || version == "" || !a.ok {
        err := Some("compose: " + a.err);
        return;
      }
      pkg := Package(archive.value, key, version, Merge3(archive.value.values, d.origin.values, pv.value));
    }

    method PublishPackage(d: Deployment, pkg: Package, id: string, ghost since: Since) returns (err: Option<string>)
      requires d.status == ChartComposed && At(since, Driving(id, Publishing(pkg), d.State()))
      modifies d, w
      ensures err.Some? ==> At(since, FailWith(d.State(), err.value, w.now, id))
      ensures err.None? ==> d.status == ArtifactPublished && At(since, Dispatch(d.State(), w.now, id))
    {
      hide DriveRun, Name, FailWith, Dispatch, BuildRef, SaveError, DegradedError;
      ghost var log := w.log;
      var art, a := w.Publish(id, pkg, cfg.registryHost, cfg.repositoryPrefix, d.origin.applicationID);
      OneMoreAnswer(cfg, since, log, a);
      if !a.ok {
        return Some("publish: " + a.err);
      }
      d.SetArtifact(art, w.now);
      ghost var b;
      err, b := Step(d, ArtifactPublished, Saving(ArtifactPublished), id, since);
    }

    // ARTIFACT_PUBLISHED to ARGO_APP_CREATED.
    method CreateStage(d: Deployment, id: string, ghost since: Since) returns (err: Option<string>)
      requires d.status == ArtifactPublished && At(since, Dispatch(d.State(), w.now, id))
      modifies d, w
      ensures err.Some? ==> At(since, FailWith(d.State(), err.value, w.now, id))
      ensures err.None? ==> d.status == ArgoAppCreated && At(since, Dispatch(d.State(), w.now, id))
    {
      if d.artifact.None? {
        return Some("no artifact");
      }
      hide DriveRun, Name, FailWith, ChartPath, BaseMetadata, SaveError, DegradedError;
      var spec := SpecOf(cfg, d.State(), d.artifact.value);
      ghost var log := w.log;
      var checked := w.ValidateProject(id, spec.project, spec.repoURL, spec.destServer, spec.destNS);
      OneMoreAnswer(cfg, since, log, checked);
      if !checked.ok {
        return Some("project: " + checked.err);
      }
      assert At(since, Driving(id, Creating, d.State()));
      err := ApplySpec(d, spec, id, since);
    }

    method ApplySpec(d: Deployment, spec: ArgoSpec, id: string, ghost since: Since) returns (err: Option<string>)
      requires d.status == ArtifactPublished && At(since, Driving(id, Creating, d.State()))
      requires d.artifact.Some? && spec == SpecOf(cfg, d.State(), d.artifact.value)
      modifies d, w
      ensures err.Some? ==> At(since, FailWith(d.State(), err.value, w.now, id))
      ensures err.None? ==> d.status == ArgoAppCreated && At(since, Dispatch(d.State(), w.now, id))
    {
      hide DriveRun, Name, FailWith, Dispatch, ChartPath, BaseMetadata, SpecOf, SaveError, DegradedError;
      ghost var log := w.log;
      var a := w.CreateOrUpdate(id, spec);
      OneMoreAnswer(cfg, since, log, a);
      if !a.ok {
        return Some("argo app: " + a.err);
      }
      d.SetArgoApp(ArgoApp(spec.name, spec.destNS, spec.project), w.now);
      ghost var b;
      err, b := Step(d, ArgoAppCreated, Saving(ArgoAppCreated), id, since);
    }

    // ARGO_APP_CREATED to SYNCING.
    method SyncStage(d: Deployment, id: string, ghost since: Since) returns (err: Option<string>)
      requires d.status == ArgoAppCreated && At(since, Dispatch(d.State(), w.now, id))
      modifies d, w
      ensures err.Some? ==> At(since, FailWith(d.State(), err.value, w.now, id))
      ensures err.None? ==> d.status == Syncing && At(since, Dispatch(d.State(), w.now, id))
    {
      if d.argoApp.None? {
        return Some("no argo app");
      }
      hide DriveRun, Name, FailWith, SaveError, DegradedError;
      ghost var log := w.log;
      var a := w.Sync(id, MetadataOf(d.State()).argoAppName);
      OneMoreAnswer(cfg, since, log, a);
      if !a.ok {
        return Some("sync: " + a.err);
      }
      ghost var b;
      err, b := Step(d, Syncing, Saving(Syncing), id, since);
    }

    // Polls until the application is Healthy (true), or is Degraded or has not
    // converged in time (false). The n-th tick comes no earlier than n intervals
    // after the start, so the calls to Status are bounded.
    method PollHealth(d: Deployment, id: string, ghost since: Since) returns (healthy: bool, err: Option<string>)
      requires d.status == Syncing && At(since, Driving(id, Polling, d.State()))
      modifies d, w
      ensures |w.trace| - |old(w.trace)| <= cfg.convergenceTimeout / cfg.pollInterval + 2
      ensures err.Some? ==> !healthy && At(since, FailWith(d.State(), err.value, w.now, id))
      ensures err.None? ==>
        && d.status == Syncing && d.health.Some?
        && (healthy <==> d.health.value.healthStatus == "Healthy")
        && (!healthy ==> d.health.value.healthStatus == "Degraded"
                         || old(w.now).instant + cfg.convergenceTimeout < w.now.instant)
        && At(since, if healthy then StepTo(d.State(), Healthy, Saving(Healthy), w.now, id)
                     else StepTo(d.State(), Degraded, Saving(Degraded), w.now, id))
    {
      hide At, FailWith, StepTo, InTime;
      var appName := MetadataOf(d.State()).argoAppName;
      var start := w.now.instant;
      var deadline: nat := start + cfg.convergenceTimeout;
      var tick: nat := start;
      ghost var polls: nat, limit: nat := 0, cfg.convergenceTimeout / cfg.pollInterval;
      TicksStart(start, cfg.pollInterval, limit);
      while true
        invariant d.status == Syncing && At(since, Driving(id, Polling, d.State()))
        invariant d.metadata == old(d.metadata)
        invariant InTime(start, cfg.pollInterval, tick, polls, limit) && polls <= limit + 1 && tick <= w.now.instant
        invariant |w.trace| == |old(w.trace)| + polls
        decreases limit + 1 - polls
      {
        TicksFit(start, cfg.pollInterval, tick, polls, cfg.convergenceTimeout);
        var verdict, failed := PollTurn(d, appName, deadline, tick + cfg.pollInterval, id, since);
        if failed.Some? {
          return false, failed;
        }
        if verdict.Some? {
          return verdict.value, None;
        }
        tick, polls := tick + cfg.pollInterval, polls + 1;
      }
    }

    // One turn of the loop: a verdict, an error, or the wait for the next tick.
    method PollTurn(d: Deployment, appName: string, deadline: nat, nextTick: nat, id: string, ghost since: Since)
      returns (verdict: Option<bool>, err: Option<string>)
      requires d.status == Syncing && At(since, Driving(id, Polling, d.State()))
      requires appName == MetadataOf(d.State()).argoAppName
      modifies d, w
      ensures old(w.now).instant <= w.now.instant
      ensures old(w.trace) <= w.trace && |w.trace| == |old(w.trace)| + 1
      ensures err.Some? ==> At(since, FailWith(d.State(), err.value, w.now, id))
      ensures err.None? ==> d.status == Syncing && d.metadata == old(d.metadata) && d.health.Some?
      ensures err.None? && verdict == Some(true) ==>
        && d.health.value.healthStatus == "Healthy"
        && At(since, StepTo(d.State(), Healthy, Saving(Healthy), w.now, id))
      ensures err.None? && verdict == Some(false) ==>
        && d.health.value.healthStatus != "Healthy"
        && (d.health.value.healthStatus == "Degraded" || deadline < w.now.instant)
        && At(since, StepTo(d.State(), Degraded, Saving(Degraded), w.now, id))
      ensures err.None? && verdict.None? ==>
        && old(w.now).instant <= deadline && nextTick <= w.now.instant
        && At(since, Driving(id, Polling, d.State()))
    {
      hide DriveRun, FailWith, StepTo;
      verdict := None;
      var health;
      health, err := PollOnce(d, appName, id, since);
      if err.Some? {
        return;
      }
      if health == "Healthy" {
        verdict := Some(true);
        return;
      }
      if health == "Degraded" {
        verdict := Some(false);
        return;
      }
      var late;
      late, err := Await(d, deadline, nextTick, id, since);
      if late {
        verdict, err := Some(false), None;
      }
    }

    // One Status call; what it observed is recorded and saved, and the error of
    // that save is ignored.
    method PollOnce(d: Deployment, appName: string, id: string, ghost since: Since)
      returns (health: string, err: Option<string>)
      requires d.status == Syncing && At(since, Driving(id, Polling, d.State()))
      requires appName == MetadataOf(d.State()).argoAppName
      modifies d, w
      ensures old(w.now).instant <= w.now.instant
      ensures old(w.trace) <= w.trace && |w.trace| == |old(w.trace)| + 1
      ensures err.Some? ==> At(since, FailWith(d.State(), err.value, w.now, id))
      ensures err.None? ==>
        && d.status == Syncing && d.metadata == old(d.metadata)
        && d.health.Some? && d.health.value.healthStatus == health
        && At(since, AfterPoll(d.State(), w.now, id))
    {
      hide DriveRun, FailWith, AfterPoll, SaveAnswered;
      health := "";
      ghost var log := w.log;
      var a := w.Status(id, appName);
      OneMoreAnswer(cfg, since, log, a);
      if !a.ok {
        err := Some("poll: " + a.err);
        return;
      }
      d.SetHealth(Health(a.status.syncStatus, a.status.healthStatus, a.status.message, w.now), w.now);
      assert At(since, Driving(id, SavingPoll, d.State()));
      health, err := a.status.healthStatus, None;
      SaveIgnored(d, id, since);
    }

    method SaveIgnored(d: Deployment, ghost id: string, ghost since: Since)
      requires At(since, Driving(id, SavingPoll, d.State()))
      modifies w
      ensures old(w.now).instant <= w.now.instant && w.trace == old(w.trace)
      ensures At(since, AfterPoll(d.State(), w.now, id))
    {
      hide DriveRun, AfterPoll, SaveAnswered;
      ghost var log, trace := w.log, w.trace;
      var a := w.Save(d);
      OneMoreAnswer(cfg, since, log, a);
      assert trace + [] == trace;
    }

    // The deadline check, and the wait for the next tick or for cancellation.
    method Await(d: Deployment, deadline: nat, tick: nat, ghost id: string, ghost since: Since)
      returns (late: bool, stop: Option<string>)
      requires At(since, Driving(id, Waiting, d.State()))
      modifies w
      ensures old(w.now).instant <= w.now.instant && w.trace == old(w.trace)
      ensures late <==> deadline < old(w.now).instant
      ensures late ==> At(since, StepTo(d.State(), Degraded, Saving(Degraded), w.now, id))
      ensures !late && stop.Some? ==> At(since, FailWith(d.State(), stop.value, w.now, id))
      ensures !late && stop.None? ==> tick <= w.now.instant && At(since, Driving(id, Polling, d.State()))
    {
      hide DriveRun, FailWith, StepTo;
      ghost var log, trace := w.log, w.trace;
      var a := w.AwaitTick(deadline, tick);
      OneMoreAnswer(cfg, since, log, a);
      assert trace + [] == trace;
      late := a.timedOut;
      stop := if late || a.ok then None else Some(a.err);
    }

    // SYNCING to HEALTHY or DEGRADED.
    method PollStage(d: Deployment, id: string, ghost since: Since) returns (err: Option<string>)
      requires d.status == Syncing && At(since, Dispatch(d.State(), w.now, id))
      modifies d, w
      ensures err.Some? ==> At(since, FailWith(d.State(), err.value, w.now, id))
      ensures err.None? ==> d.status == Healthy && At(since, Dispatch(d.State(), w.now, id))
    {
      hide DriveRun, Name, FailWith, SaveError, DriveStep;
      var healthy;
      healthy, err := PollHealth(d, id, since);
      if err.Some? {
        return;
      }
      ghost var a;
      if healthy {
        err, a := Step(d, Healthy, Saving(Healthy), id, since);
      } else {
        err, a := Step(d, Degraded, Saving(Degraded), id, since);
        if err.None? {
          var msg := match d.health case Some(h) => h.message case None => "timeout";
          err := Some("degraded: " + msg);
        }
      }
    }

    // HEALTHY to COMPLETED.
    method CompleteStage(d: Deployment, id: string, ghost since: Since) returns (err: Option<string>)
      requires d.status == Healthy && At(since, Dispatch(d.State(), w.now, id))
      modifies d, w
      ensures err.Some? ==> At(since, FailWith(d.State(), err.value, w.now, id))
      ensures err.None? ==> d.status == Completed && At(since, Returning(id, None))
    {
      hide DriveRun, Name, FailWith, SaveAnswered, DegradedError;
      var completed := d.Complete(w.now);
      if !completed {
        return Some("complete");
      }
      ghost var log, trace := w.log, w.trace;
      var a := w.Save(d);
      OneMoreAnswer(cfg, since, log, a);
      assert trace + [] == trace;
      if !a.ok {
        return Some("save completed: " + a.err);
      }
      return None;
    }

    // One forward pass; each stage is guarded on the current status.
    method Run(d: Deployment, id: string, ghost since: Since) returns (err: Option<string>)
      requires At(since, Enter(d.State(), w.now, id))
      modifies d, w
      ensures err.Some? ==> At(since, FailWith(d.State(), err.value, w.now, id))
      ensures err.None? ==> At(since, Returning(id, None))
    {
      hide DriveRun, Name, FailWith, BaseMetadata, DeriveID, DriveStep, PrepareCompose, SaveError,
        DegradedError;
      if d.status != Received && d.status != Validating && d.metadata.None? {
        return Some("no metadata");
      }
      ghost var a;
      if d.status == Received {
        err, a := Step(d, Validating, Saving(Validating), id, since);
        if err.Some? {
          return;
        }
      }
      if d.status == Validating {
        d.SetMetadata(BaseMetadata(d.origin), w.now);
        err, a := Step(d, MetadataGenerated, Saving(MetadataGenerated), id, since);
        if err.Some? {
          return;
        }
      }
      var archive: Option<Chart>, key := None, "";
      if d.status == MetadataGenerated {
        err, archive, key := ResolveStage(d, id, since);
        if err.Some? {
          return;
        }
      }
      if d.status == ChartResolved {
        err := ComposeStage(d, archive, key, id, since);
        if err.Some? {
          return;
        }
      }
      err := DeployStages(d, id, since);
    }

    // The stages after the push.
    method DeployStages(d: Deployment, id: string, ghost since: Since) returns (err: Option<string>)
      requires At(since, Dispatch(d.State(), w.now, id))
      requires d.status != Received && d.status != Validating
      requires d.status != MetadataGenerated && d.status != ChartResolved
      modifies d, w
      ensures err.Some? ==> At(since, FailWith(d.State(), err.value, w.now, id))
      ensures err.None? ==> At(since, Returning(id, None))
    {
      hide DriveRun, Name, FailWith, DriveStep, StepTo;
      if d.status == ArtifactPublished {
        err := CreateStage(d, id, since);
        if err.Some? {
          return;
        }
      }
      if d.status == ArgoAppCreated {
        err := SyncStage(d, id, since);
        if err.Some? {
          return;
        }
      }
      if d.status == Syncing {
        err := PollStage(d, id, since);
        if err.Some? {
          return;
        }
      }
      if d.status == Healthy {
        err := CompleteStage(d, id, since);
        return;
      }
      return None;
    }

    // Drives a deployment once. A deployment already in flight is left alone;
    // otherwise the lock is taken and given back, and what happens in between is
    // exactly a drive of the machine, up to its return.
    method Execute(id: string) returns (err: Option<string>)
      modifies this`inflight, w
      ensures inflight == old(inflight)
      ensures id in old(inflight) ==> err.None? && unchanged(w)
      ensures id !in old(inflight) ==>
        && |old(w.log)| <= |w.log|
        && DriveRun(cfg, Conf(Loading(id), old(w.docs), old(w.trace)), w.log[|old(w.log)|..])
             == Conf(Returning(id, err), w.docs, w.trace)
      ensures id !in old(inflight) ==> forall o: Origin ::
        Ends(o, Conf(Loading(id), old(w.docs), old(w.trace)), w.log[|old(w.log)|..], err)
    {
      hide Ends;
      var acquired := Acquire(id);
      if !acquired {
        return None;
      }
      ghost var since := Since(Conf(Loading(id), w.docs, w.trace), |w.log|);
      assert w.log[since.base..] == [];
      assert At(since, Loading(id));
      err := Locked(id, since);
      Release(id);
      forall o: Origin
        ensures Ends(o, since.start, w.log[since.base..], err)
      {
        HowItEnds(o, since.start, w.log[since.base..], err);
      }
    }

    // Started on a sound deployment, nil means that it is done, or that there
    // was nothing to do, and that no call was refused; an error is recorded as a
    // failure.
    ghost predicate Ends(o: Origin, start: Conf, answers: seq<Answer>, err: Option<string>) {
      DeploymentOk(cfg, o, start) ==>
        match err
        case None =>
          && NilOutcome(start.drive.id, start, DriveRun(cfg, start, answers))
          && forall n :: !RefusedAt(cfg, start, answers, n)
        case Some(e) => ErrorOutcome(cfg, start, answers, e)
    }

    lemma HowItEnds(o: Origin, start: Conf, answers: seq<Answer>, err: Option<string>)
      requires start.drive.Loading? && DriveRun(cfg, start, answers).drive == Returning(start.drive.id, err)
      ensures Ends(o, start, answers, err)
    {
      hide DeploymentOk, DriveRun, NilOutcome, ErrorOutcome, RefusedAt;
      if DeploymentOk(cfg, o, start) {
        match err
        case None =>
          NilMeansDone(cfg, o, start, answers);
          forall n
            ensures !RefusedAt(cfg, start, answers, n)
          {
            NilMeansUnrefused(cfg, o, start, answers, n);
          }
        case Some(e) => ErrorMeansFailed(cfg, o, start, answers, e);
      }
    }

    // What Execute does while it holds the lock.
    method Locked(id: string, ghost since: Since) returns (err: Option<string>)
      requires At(since, Loading(id))
      modifies w
      ensures At(since, Returning(id, err))
    {
      hide DriveRun, FailWith, Enter, SaveAnswered, FindByID;
      ghost var log, trace := w.log, w.trace;
      var found, a := w.Find(id);
      OneMoreAnswer(cfg, since, log, a);
      assert trace + [] == trace;
      if found.Err? {
        return Some("load " + id + ": " + found.error);
      }
      var d := new Deployment.Reconstitute(found.value);
      if IsTerminal(d.status) {
        return None;
      }
      var failed := Run(d, id, since);
      if failed.None? {
        return None;
      }
      FailAndSave(d, failed.value, id, since);
      return failed;
    }

    // The error path: the aggregate is marked FAILED when it can be, and saved;
    // the outcome of that save is ignored.
    method FailAndSave(d: Deployment, msg: string, ghost id: string, ghost since: Since)
      requires At(since, FailWith(d.State(), msg, w.now, id))
      modifies d, w
      ensures At(since, Returning(id, Some(msg)))
    {
      hide DriveRun, SaveAnswered;
      var marked := d.Fail(msg, w.now);
      ghost var log, trace := w.log, w.trace;
      var a := w.Save(d);
      OneMoreAnswer(cfg, since, log, a);
      assert trace + [] == trace;
    }
  }

  // The n-th tick, one of the first limit and one more.
  ghost predicate InTime(start: nat, interval: Duration, tick: nat, n: nat, limit: nat) {
    tick == start + n * interval && n <= limit + 1
  }

  lemma TicksStart(start: nat, interval: Duration, limit: nat)
    ensures InTime(start, interval, start, 0, limit)
  {
  }

  // A tick that comes within the timeout is one of the first timeout / interval.
  lemma TicksFit(start: nat, interval: Duration, tick: nat, n: nat, timeout: nat)
    requires InTime(start, interval, tick, n, timeout / interval)
    ensures start <= tick
    ensures tick <= start + timeout ==>
      n <= timeout / interval && InTime(start, interval, tick + interval, n + 1, timeout / interval)
  {
    assert timeout / interval * interval + timeout % interval == timeout;
    if n > timeout / interval {
      assert n * interval >= (timeout / interval + 1) * interval;
    }
  }
}
