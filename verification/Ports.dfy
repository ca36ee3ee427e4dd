/** The outside world of the executor: what its ports answer, the effects its
    calls have, and the store behind them (internal/application/port). */
module Ports {
  import opened Wrappers
  import opened ValueObjects
  import opened Values
  import opened Aggregate
  import opened Persistence
  import opened Publisher

  // An umbrella archive: its chart name and default values.
  datatype Chart = Chart(name: string, values: Tree)

  // The archive is None when the resolver returned no bytes.
  datatype ResolvedChart = ResolvedChart(version: string, archive: Option<Chart>, appValuesKey: string)

  // A composed chart, with the archive and values key it was composed from.
  datatype Package = Package(chart: Chart, appValuesKey: string, version: string, values: Tree)

  datatype ArgoStatus = ArgoStatus(syncStatus: string, healthStatus: string, message: string)

  datatype ArgoSpec = ArgoSpec(name: string, namespace: string, project: string, repoURL: string, chart: string,
                               version: string, destServer: string, destNS: string,
                               labels: map<string, string>, annotations: map<string, string>)

  type Duration = n: nat | n > 0 witness 1

  // The placement and timing the handler is configured with. Durations are
  // positive because the handler's constructor replaces any other by a default.
  datatype Config = Config(registryHost: string, repositoryPrefix: string, argoNamespace: string,
                           destServer: string, pollInterval: Duration, convergenceTimeout: Duration)

  // Everything the outside can answer one call with, and the clock after it.
  // Each call reads the fields it needs: ok and err for every call; applied for
  // a Save that reports an error although the write took place; timedOut for the
  // wait between two polls.
  datatype Answer = Answer(ok: bool, err: string, applied: bool, resolved: ResolvedChart, digest: string,
                           status: ArgoStatus, timedOut: bool, now: Timestamp)

  // The calls that leave the process, other than those to the store and the
  // composer, with what they ask and what they are answered.
  datatype Effect =
    | Resolved(id: string, source: ChartSource, found: Option<ResolvedChart>)
    | Pushed(id: string, pkg: Package, digest: string, artifact: Artifact, ok: bool)
    | Checked(id: string, project: string, repoURL: string, destServer: string, destNS: string, ok: bool)
    | Applied(id: string, spec: ArgoSpec, ok: bool)
    | Synced(id: string, app: string, ok: bool)
    | Polled(id: string, app: string, reply: Option<ArgoStatus>)

  // The collection after a Save answered by a.
  function SaveAnswered(docs: Docs, d: Agg, a: Answer): Docs {
    if a.ok || a.applied then Saved(docs, d) else docs
  }

  // The ports as one object. Every call takes an arbitrary answer, logs it, and
  // moves the clock forward.
  class World {
    var docs: Docs
    var trace: seq<Effect>
    var now: Timestamp
    ghost var log: seq<Answer>

    constructor (docs: Docs, now: Timestamp)
      ensures this.docs == docs && trace == [] && this.now == now && log == []
    {
      this.docs, trace, this.now, log := docs, [], now, [];
    }

    method Ask() returns (a: Answer)
      modifies this
      ensures docs == old(docs) && trace == old(trace)
      ensures log == old(log) + [a] && now == a.now && old(now).instant <= now.instant
    {
      a := *;
      if a.now.instant < now.instant {
        a := a.(now := now);
      }
      log, now := log + [a], a.now;
    }

    // A call that leaves nothing outside: composing a chart.
    method Call() returns (a: Answer)
      modifies this
      ensures docs == old(docs) && trace == old(trace)
      ensures log == old(log) + [a] && now == a.now && old(now).instant <= now.instant
    {
      a := Ask();
    }

    method Save(d: Deployment) returns (a: Answer)
      requires d as object != this
      modifies this
      ensures docs == SaveAnswered(old(docs), d.State(), a) && trace == old(trace)
      ensures log == old(log) + [a] && now == a.now && old(now).instant <= now.instant
    {
      a := Ask();
      docs := SaveAnswered(docs, d.State(), a);
    }

    // FindByID; a call that fails finds nothing.
    method Find(id: string) returns (r: Result<Agg>, a: Answer)
      modifies this
      ensures docs == old(docs) && trace == old(trace)
      ensures log == old(log) + [a] && now == a.now && old(now).instant <= now.instant
      ensures r == if a.ok then FindByID(docs, id) else Err(a.err)
    {
      a := Ask();
      r := if a.ok then FindByID(docs, id) else Err(a.err);
    }

    // The calls with an effect outside; each is logged whether or not it succeeds.

    method Publish(id: string, pkg: Package, host: string, prefix: string,
                   appID: string) returns (art: Artifact, a: Answer)
      modifies this
      ensures docs == old(docs)
      ensures art == Published(host, prefix, appID, pkg.chart.name, pkg.version, a.digest)
      ensures trace == old(trace) + [Pushed(id, pkg, a.digest, art, a.ok)]
      ensures log == old(log) + [a] && now == a.now && old(now).instant <= now.instant
    {
      a := Ask();
      art := Published(host, prefix, appID, pkg.chart.name, pkg.version, a.digest);
      trace := trace + [Pushed(id, pkg, a.digest, art, a.ok)];
    }

    method Resolve(id: string, source: ChartSource) returns (a: Answer)
      modifies this
      ensures docs == old(docs)
      ensures trace == old(trace) + [Resolved(id, source, if a.ok then Some(a.resolved) else None)]
      ensures log == old(log) + [a] && now == a.now && old(now).instant <= now.instant
    {
      a := Ask();
      trace := trace + [Resolved(id, source, if a.ok then Some(a.resolved) else None)];
    }

    method ValidateProject(id: string, project: string, repoURL: string, destServer: string, destNS: string)
      returns (a: Answer)
      modifies this
      ensures docs == old(docs)
      ensures trace == old(trace) + [Checked(id, project, repoURL, destServer, destNS, a.ok)]
      ensures log == old(log) + [a] && now == a.now && old(now).instant <= now.instant
    {
      a := Ask();
      trace := trace + [Checked(id, project, repoURL, destServer, destNS, a.ok)];
    }

    method CreateOrUpdate(id: string, spec: ArgoSpec) returns (a: Answer)
      modifies this
      ensures docs == old(docs) && trace == old(trace) + [Applied(id, spec, a.ok)]
      ensures log == old(log) + [a] && now == a.now && old(now).instant <= now.instant
    {
      a := Ask();
      trace := trace + [Applied(id, spec, a.ok)];
    }

    method Sync(id: string, app: string) returns (a: Answer)
      modifies this
      ensures docs == old(docs) && trace == old(trace) + [Synced(id, app, a.ok)]
      ensures log == old(log) + [a] && now == a.now && old(now).instant <= now.instant
    {
      a := Ask();
      trace := trace + [Synced(id, app, a.ok)];
    }

    method Status(id: string, app: string) returns (a: Answer)
      modifies this
      ensures docs == old(docs)
      ensures trace == old(trace) + [Polled(id, app, if a.ok then Some(a.status) else None)]
      ensures log == old(log) + [a] && now == a.now && old(now).instant <= now.instant
    {
      a := Ask();
      trace := trace + [Polled(id, app, if a.ok then Some(a.status) else None)];
    }

    // Waits for the next tick, unless the deadline has passed already. A tick
    // does not come before its time.
    method AwaitTick(deadline: nat, tick: nat) returns (a: Answer)
      modifies this
      ensures docs == old(docs) && trace == old(trace)
      ensures log == old(log) + [a] && now == a.now && old(now).instant <= now.instant
      ensures a.timedOut <==> old(now).instant > deadline
      ensures !a.timedOut && a.ok ==> tick <= now.instant
    {
      a := *;
      a := a.(timedOut := now.instant > deadline);
      if a.now.instant < now.instant {
        a := a.(now := now);
      }
      if a.now.instant < tick {
        a := a.(now := a.now.(instant := tick));
      }
      log, now := log + [a], a.now;
    }
  }
}
