/** The deployment status: its transition relation, its terminal statuses and
    the strings it is stored as (internal/domain/deployment/status.go). */
module Lifecycle {
  import opened Wrappers

  datatype Status =
    | Received
    | Validating
    | Rejected
    | MetadataGenerated
    | ChartResolved
    | ChartComposed
    | ArtifactPublished
    | ArgoAppCreated
    | Syncing
    | Healthy
    | Degraded
    | Failed
    | RolledBack
    | Completed

  // The edges out of a status; terminal statuses have none.
  function Transitions(s: Status): seq<Status> {
    match s
    case Received => [Validating]
    case Validating => [Rejected, MetadataGenerated, Failed]
    case MetadataGenerated => [ChartResolved, Failed]
    case ChartResolved => [ChartComposed, Failed]
    case ChartComposed => [ArtifactPublished, Failed]
    case ArtifactPublished => [ArgoAppCreated, Failed]
    case ArgoAppCreated => [Syncing, Failed, RolledBack]
    case Syncing => [Healthy, Degraded, Failed, RolledBack]
    case Healthy => [Completed, Failed]
    case Degraded => [RolledBack, Failed]
    case _ => []
  }

  predicate CanTransitionTo(s: Status, next: Status) {
    next in Transitions(s)
  }

  predicate IsTerminal(s: Status) {
    s == Rejected || s == Failed || s == RolledBack || s == Completed
  }

  // The number of the Go constant, counted from 1.
  function Number(s: Status): nat {
    match s
    case Received => 1
    case Validating => 2
    case Rejected => 3
    case MetadataGenerated => 4
    case ChartResolved => 5
    case ChartComposed => 6
    case ArtifactPublished => 7
    case ArgoAppCreated => 8
    case Syncing => 9
    case Healthy => 10
    case Degraded => 11
    case Failed => 12
    case RolledBack => 13
    case Completed => 14
  }

  function Name(s: Status): string {
    match s
    case Received => "RECEIVED"
    case Validating => "VALIDATING"
    case Rejected => "REJECTED"
    case MetadataGenerated => "METADATA_GENERATED"
    case ChartResolved => "CHART_RESOLVED"
    case ChartComposed => "CHART_COMPOSED"
    case ArtifactPublished => "ARTIFACT_PUBLISHED"
    case ArgoAppCreated => "ARGO_APP_CREATED"
    case Syncing => "SYNCING"
    case Healthy => "HEALTHY"
    case Degraded => "DEGRADED"
    case Failed => "FAILED"
    case RolledBack => "ROLLED_BACK"
    case Completed => "COMPLETED"
  }

  function ParseStatus(s: string): Result<Status> {
    match s
    case "RECEIVED" => Ok(Received)
    case "VALIDATING" => Ok(Validating)
    case "REJECTED" => Ok(Rejected)
    case "METADATA_GENERATED" => Ok(MetadataGenerated)
    case "CHART_RESOLVED" => Ok(ChartResolved)
    case "CHART_COMPOSED" => Ok(ChartComposed)
    case "ARTIFACT_PUBLISHED" => Ok(ArtifactPublished)
    case "ARGO_APP_CREATED" => Ok(ArgoAppCreated)
    case "SYNCING" => Ok(Syncing)
    case "HEALTHY" => Ok(Healthy)
    case "DEGRADED" => Ok(Degraded)
    case "FAILED" => Ok(Failed)
    case "ROLLED_BACK" => Ok(RolledBack)
    case "COMPLETED" => Ok(Completed)
    case _ => Err("unknown deployment status: " + s)
  }

  // Name and ParseStatus are inverse: a string parses exactly when it is the
  // name of a status, and then to that status.
  lemma ParseInvertsName(s: Status, text: string)
    ensures ParseStatus(Name(s)) == Ok(s)
    ensures ParseStatus(text) == Ok(s) <==> text == Name(s)
  {
    match s {
      case Received | Validating | Rejected | MetadataGenerated | ChartResolved | ChartComposed
        | ArtifactPublished | ArgoAppCreated | Syncing | Healthy | Degraded | Failed | RolledBack | Completed =>
    }
  }

  // How many transitions can still follow a status, at most.
  function Remaining(s: Status): nat {
    match s
    case Received => 9
    case Validating => 8
    case MetadataGenerated => 7
    case ChartResolved => 6
    case ChartComposed => 5
    case ArtifactPublished => 4
    case ArgoAppCreated => 3
    case Syncing => 2
    case Healthy => 1
    case Degraded => 1
    case _ => 0
  }

  // The statuses of a deployment that goes well, in order.
  const PIPELINE := [Received, Validating, MetadataGenerated, ChartResolved, ChartComposed, ArtifactPublished,
                     ArgoAppCreated, Syncing, Healthy, Completed]

  // The relation in words: along the pipeline; to FAILED from any status that has
  // begun and not ended; to REJECTED from validation; to DEGRADED from syncing;
  // and to ROLLED_BACK while an application exists that is not healthy.
  lemma {:induction false} EdgesAre(s: Status, t: Status)
    ensures CanTransitionTo(s, t) <==>
      || (exists i :: 0 <= i < |PIPELINE| - 1 && PIPELINE[i] == s && PIPELINE[i + 1] == t)
      || (t == Failed && s !in {Received, Rejected, Failed, RolledBack, Completed})
      || (s == Validating && t == Rejected)
      || (s == Syncing && t == Degraded)
      || (t == RolledBack && s in {ArgoAppCreated, Syncing, Degraded})
  {
    InPipelineIff(s, t);
    hide PIPELINE;
  }

  lemma {:induction false} InPipelineIff(s: Status, t: Status)
    ensures (exists i :: 0 <= i < |PIPELINE| - 1 && PIPELINE[i] == s && PIPELINE[i + 1] == t) <==>
      CanTransitionTo(s, t) && t != Failed && t != Rejected && t != Degraded && t != RolledBack
  {
    if CanTransitionTo(s, t) && t != Failed && t != Rejected && t != Degraded && t != RolledBack {
      var i := if Number(s) < 3 then Number(s) - 1 else if Number(s) < 11 then Number(s) - 2 else 0;
      assert PIPELINE[i] == s && PIPELINE[i + 1] == t;
    }
  }

  // The reflexive-transitive closure of CanTransitionTo.
  ghost predicate Reaches(s: Status, t: Status) {
    exists n: nat :: ReachesIn(n, s, t)
  }

  ghost predicate ReachesIn(n: nat, s: Status, t: Status) {
    if n == 0 then s == t else exists u :: CanTransitionTo(s, u) && ReachesIn(n - 1, u, t)
  }

  lemma ReachesSelf(s: Status)
    ensures Reaches(s, s)
  {
    assert ReachesIn(0, s, s);
  }

  lemma {:induction false} ReachesStep(s: Status, t: Status)
    requires CanTransitionTo(s, t)
    ensures Reaches(s, t)
  {
    assert ReachesIn(0, t, t);
    assert ReachesIn(1, s, t);
  }

  lemma {:induction false} ReachesInAdds(n: nat, m: nat, s: Status, t: Status, u: Status)
    requires ReachesIn(n, s, t) && ReachesIn(m, t, u)
    ensures ReachesIn(n + m, s, u)
  {
    hide CanTransitionTo;
    if n > 0 {
      var v :| CanTransitionTo(s, v) && ReachesIn(n - 1, v, t);
      ReachesInAdds(n - 1, m, v, t, u);
    }
  }

  lemma {:induction false} ReachesTransitive(s: Status, t: Status, u: Status)
    requires Reaches(s, t) && Reaches(t, u)
    ensures Reaches(s, u)
  {
    var n: nat, m: nat :| ReachesIn(n, s, t) && ReachesIn(m, t, u);
    ReachesInAdds(n, m, s, t, u);
  }

  // One edge spends at least one of the remaining transitions and climbs.
  lemma {:induction false} EdgeSpends(s: Status, t: Status)
    requires CanTransitionTo(s, t)
    ensures Remaining(t) < Remaining(s)
    ensures Number(s) < Number(t)
    ensures !IsTerminal(s)
  {
    match s {
      case Received | Validating | Rejected | MetadataGenerated | ChartResolved | ChartComposed
        | ArtifactPublished | ArgoAppCreated | Syncing | Healthy | Degraded | Failed | RolledBack | Completed =>
    }
  }

  // A walk along edges of the transition relation.
  ghost predicate IsWalk(walk: seq<Status>) {
    && walk != []
    && forall i :: 0 <= i < |walk| - 1 ==> CanTransitionTo(walk[i], walk[i + 1])
  }

  // Every walk climbs the status numbers strictly, takes at most nine
  // transitions, and joins two statuses of the closure.
  lemma {:induction false} WalksAreShort(walk: seq<Status>)
    requires IsWalk(walk)
    ensures |walk| - 1 <= Remaining(walk[0]) <= 9
    ensures Reaches(walk[0], walk[|walk| - 1])
    ensures forall j :: 0 < j < |walk| ==> Number(walk[0]) < Number(walk[j])
  {
    ReachesSelf(walk[0]);
    if |walk| > 1 {
      var rest := walk[1..];
      assert CanTransitionTo(walk[0], walk[1]);
      forall i | 0 <= i < |rest| - 1
        ensures CanTransitionTo(rest[i], rest[i + 1])
      {
        assert CanTransitionTo(walk[i + 1], walk[i + 2]);
      }
      WalksAreShort(rest);
      EdgeSpends(walk[0], walk[1]);
      ReachesStep(walk[0], walk[1]);
      ReachesTransitive(walk[0], walk[1], walk[|walk| - 1]);
      forall j | 0 < j < |walk|
        ensures Number(walk[0]) < Number(walk[j])
      {
        assert rest[j - 1] == walk[j];
      }
    }
  }

  // A terminal status is one nothing leaves, and only a terminal one.
  lemma TerminalIffStuck(s: Status)
    ensures IsTerminal(s) <==> forall t :: !CanTransitionTo(s, t)
    ensures IsTerminal(s) ==> forall t :: Reaches(s, t) ==> t == s
  {
    if !IsTerminal(s) {
      assert CanTransitionTo(s, Transitions(s)[0]);
    } else {
      forall t | Reaches(s, t)
        ensures t == s
      {
        var n: nat :| ReachesIn(n, s, t);
      }
    }
  }
}
