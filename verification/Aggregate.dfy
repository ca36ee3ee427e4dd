/** The Deployment aggregate (internal/domain/deployment/entity.go): its state
    as a value, and the mutable object whose methods move that state. */
module Aggregate {
  import opened Wrappers
  import opened Lifecycle
  import opened ValueObjects
  import opened Resources
  import opened Values

  datatype Metadata = Metadata(componentID: string, deploymentVersion: string, argoAppName: string,
                               labels: map<string, string>)
  datatype Artifact = Artifact(ociReference: string, digest: string, registry: string, repository: string,
                               tag: string)
  datatype ArgoApp = ArgoApp(name: string, namespace: string, project: string)
  datatype Health = Health(syncStatus: string, healthStatus: string, message: string, evaluatedAt: Timestamp)

  // What New fixes for good.
  datatype Origin = Origin(applicationID: string, team: string, image: Image, chartSource: ChartSource,
                           target: Target, source: Source, values: Tree, resources: seq<Resource>,
                           correlationID: string, startedAt: Timestamp)

  // The state of a deployment. Go's zero completedAt is None.
  datatype Agg = Agg(id: string, origin: Origin, status: Status, metadata: Option<Metadata>,
                     artifact: Option<Artifact>, argoApp: Option<ArgoApp>, health: Option<Health>,
                     errMsg: string, completedAt: Option<Timestamp>, updatedAt: Timestamp)

  // The value objects of an origin are ones their constructors accept.
  predicate ValidParts(o: Origin) {
    ValidImage(o.image) && ValidChartSource(o.chartSource) && ValidTarget(o.target)
  }

  // An origin New accepts, with resources built for its application.
  predicate ValidOrigin(o: Origin) {
    && ValidParts(o)
    && o.applicationID != "" && o.team != ""
    && Satisfiable(o.resources) && BuiltFor(o.applicationID, o.resources)
  }

  function DeriveID(o: Origin): string {
    NewDeploymentID(o.applicationID, o.target.environment, ShortSHA(o.source), o.startedAt)
  }

  function Fresh(o: Origin): Agg {
    Agg(DeriveID(o), o, Received, None, None, None, None, "", None, o.startedAt)
  }

  function NewState(o: Origin): Result<Agg> {
    if o.applicationID == "" then Err("application ID is required")
    else if o.team == "" then Err("team is required")
    else if !Satisfiable(o.resources) then Err("resources are not satisfiable")
    else Ok(Fresh(o))
  }

  // --- Moves ---

  function Moved(a: Agg, next: Status, now: Timestamp): Agg {
    if CanTransitionTo(a.status, next) then a.(status := next, updatedAt := now) else a
  }

  function WithMetadata(a: Agg, m: Metadata, now: Timestamp): Agg {
    a.(metadata := Some(m), id := DeriveID(a.origin), updatedAt := now)
  }

  function WithArtifact(a: Agg, x: Artifact, now: Timestamp): Agg { a.(artifact := Some(x), updatedAt := now) }
  function WithArgoApp(a: Agg, x: ArgoApp, now: Timestamp): Agg { a.(argoApp := Some(x), updatedAt := now) }
  function WithHealth(a: Agg, x: Health, now: Timestamp): Agg { a.(health := Some(x), updatedAt := now) }

  // Moves to a status that ends the deployment, stamping the completion.
  function Ended(a: Agg, last: Status, now: Timestamp): Agg {
    if CanTransitionTo(a.status, last) then Moved(a, last, now).(completedAt := Some(now)) else a
  }

  // The message is recorded even when the move to FAILED is refused.
  function MarkFailed(a: Agg, msg: string, now: Timestamp): Agg {
    Ended(a.(errMsg := msg), Failed, now)
  }

  class Deployment {
    var id: string
    const origin: Origin
    var status: Status
    var metadata: Option<Metadata>
    var artifact: Option<Artifact>
    var argoApp: Option<ArgoApp>
    var health: Option<Health>
    var errMsg: string
    var completedAt: Option<Timestamp>
    var updatedAt: Timestamp

    function State(): Agg
      reads this
    {
      Agg(id, origin, status, metadata, artifact, argoApp, health, errMsg, completedAt, updatedAt)
    }

    // Rebuilds a deployment from persistence, without validation.
    constructor Reconstitute(a: Agg)
      ensures State() == a
    {
      id, origin, status := a.id, a.origin, a.status;
      metadata, artifact, argoApp, health := a.metadata, a.artifact, a.argoApp, a.health;
      errMsg, completedAt, updatedAt := a.errMsg, a.completedAt, a.updatedAt;
    }

    method TransitionTo(next: Status, now: Timestamp) returns (ok: bool)
      modifies this
      ensures ok <==> CanTransitionTo(old(status), next)
      ensures State() == Moved(old(State()), next, now)
    {
      ok := CanTransitionTo(status, next);
      if ok {
        status, updatedAt := next, now;
      }
    }

    method SetMetadata(m: Metadata, now: Timestamp)
      modifies this
      ensures State() == WithMetadata(old(State()), m, now)
    {
      metadata := Some(m);
      id := NewDeploymentID(origin.applicationID, origin.target.environment, ShortSHA(origin.source), origin.startedAt);
      updatedAt := now;
    }

    method SetArtifact(a: Artifact, now: Timestamp)
      modifies this
      ensures State() == WithArtifact(old(State()), a, now)
    {
      artifact, updatedAt := Some(a), now;
    }

    method SetArgoApp(a: ArgoApp, now: Timestamp)
      modifies this
      ensures State() == WithArgoApp(old(State()), a, now)
    {
      argoApp, updatedAt := Some(a), now;
    }

    method SetHealth(h: Health, now: Timestamp)
      modifies this
      ensures State() == WithHealth(old(State()), h, now)
    {
      health, updatedAt := Some(h), now;
    }

    method Fail(msg: string, now: Timestamp) returns (ok: bool)
      modifies this
      ensures ok <==> CanTransitionTo(old(status), Failed)
      ensures State() == MarkFailed(old(State()), msg, now)
    {
      errMsg := msg;
      ok := TransitionTo(Failed, now);
      if ok {
        completedAt := Some(now);
      }
    }

    method Complete(now: Timestamp) returns (ok: bool)
      modifies this
      ensures ok <==> CanTransitionTo(old(status), Completed)
      ensures State() == Ended(old(State()), Completed, now)
    {
      ok := TransitionTo(Completed, now);
      if ok {
        completedAt := Some(now);
      }
    }

    method Reject(reason: string, now: Timestamp) returns (ok: bool)
      modifies this
      ensures ok <==> CanTransitionTo(old(status), Rejected)
      ensures State() == if ok then Ended(old(State()), Rejected, now).(errMsg := reason) else old(State())
    {
      ok := TransitionTo(Rejected, now);
      if ok {
        errMsg, completedAt := reason, Some(now);
      }
    }
  }

  method New(o: Origin) returns (r: Result<Deployment>)
    ensures r.Ok? <==> NewState(o).Ok?
    ensures r.Ok? ==> fresh(r.value) && r.value.State() == NewState(o).value
  {
    if o.applicationID == "" {
      return Err("application ID is required");
    }
    if o.team == "" {
      return Err("team is required");
    }
    var ok := ValidateResourceSet(o.resources);
    if !ok {
      return Err("resources are not satisfiable");
    }
    var d := new Deployment.Reconstitute(Fresh(o));
    return Ok(d);
  }
}
