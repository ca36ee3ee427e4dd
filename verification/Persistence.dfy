/** The document repository: a deployment to its document and back, and Save as
    a field-wise upsert (internal/adapter/outbound/persistence/deployment.go). */
module Persistence {
  import opened Wrappers
  import opened Lifecycle
  import opened ValueObjects
  import opened Resources
  import opened Values
  import opened Aggregate

  // A stored document. The fields the encoder omits when they are empty are
  // options; a missing field is None.
  datatype Doc = Doc(
    id: string, applicationID: string, team: string, status: string,
    environment: string, cluster: string, namespace: string, appProject: string,
    imageRepo: string, imageTag: string, imageDigest: string,
    chartRepo: string, chartName: string, chartConstraint: Option<string>, chartAllowPre: Option<bool>,
    values: Option<Tree>, resources: Option<seq<Spec>>,
    gitSHA: string, gitRef: string, runID: string, runAttempt: int, workflow: string, actor: string,
    repoFull: string, correlationID: string, errMsg: string,
    startedAt: Timestamp, completedAt: Option<Timestamp>, updatedAt: Timestamp,
    metadata: Option<Metadata>, artifact: Option<Artifact>, argoApp: Option<ArgoApp>, health: Option<Health>)

  type Docs = map<string, Doc>

  function OmitEmpty<T(==)>(x: T, empty: T): Option<T> {
    if x == empty then None else Some(x)
  }

  function Decoded<T>(x: Option<T>, empty: T): T {
    match x case Some(v) => v case None => empty
  }

  function ToDoc(a: Agg): Doc {
    var o := a.origin;
    Doc(a.id, o.applicationID, o.team, Name(a.status),
        o.target.environment, o.target.cluster, o.target.namespace, o.target.appProject,
        o.image.repository, o.image.tag, o.image.digest,
        o.chartSource.repository, o.chartSource.name,
        OmitEmpty(o.chartSource.versionConstraint, ""), OmitEmpty(o.chartSource.allowPrerelease, false),
        OmitEmpty(o.values, map[]), OmitEmpty(ToSpecs(o.resources), []),
        o.source.gitSHA, o.source.gitRef, o.source.githubRunID, o.source.githubRunAttempt,
        o.source.workflowName, o.source.actor, o.source.repositoryFull, o.correlationID, a.errMsg,
        o.startedAt, a.completedAt, a.updatedAt,
        a.metadata, a.artifact, a.argoApp, a.health)
  }

  function FromDoc(d: Doc): Result<Agg> {
    var status :- ParseStatus(d.status);
    var image :- NewImage(d.imageRepo, d.imageTag, d.imageDigest);
    var chart :- NewChartSource(d.chartRepo, d.chartName, Decoded(d.chartConstraint, ""),
                                Decoded(d.chartAllowPre, false));
    var target :- NewTarget(d.environment, d.cluster, d.namespace, d.appProject);
    var source :- NewSource(d.gitSHA, d.gitRef, d.runID, d.runAttempt, d.workflow, d.actor, d.repoFull);
    var resources :- BuildAll(d.applicationID, Decoded(d.resources, []));
    Ok(Agg(d.id,
           Origin(d.applicationID, d.team, image, chart, target, source, Decoded(d.values, map[]), resources,
                  d.correlationID, d.startedAt),
           status, d.metadata, d.artifact, d.argoApp, d.health, d.errMsg, d.completedAt, d.updatedAt))
  }

  // A $set with upsert: a field the update omits keeps what the document had.
  function Kept<T>(update: Option<T>, stored: Option<T>): Option<T> {
    if update.Some? then update else stored
  }

  function Upsert(stored: Option<Doc>, u: Doc): Doc {
    match stored
    case None => u
    case Some(s) =>
      u.(chartConstraint := Kept(u.chartConstraint, s.chartConstraint),
         chartAllowPre := Kept(u.chartAllowPre, s.chartAllowPre),
         values := Kept(u.values, s.values),
         resources := Kept(u.resources, s.resources),
         completedAt := Kept(u.completedAt, s.completedAt),
         metadata := Kept(u.metadata, s.metadata),
         artifact := Kept(u.artifact, s.artifact),
         argoApp := Kept(u.argoApp, s.argoApp),
         health := Kept(u.health, s.health))
  }

  function Stored(docs: Docs, id: string): Option<Doc> {
    if id in docs then Some(docs[id]) else None
  }

  // The collection after an applied Save.
  function Saved(docs: Docs, a: Agg): Docs {
    docs[a.id := Upsert(Stored(docs, a.id), ToDoc(a))]
  }

  function FindByID(docs: Docs, id: string): Result<Agg> {
    if id in docs then FromDoc(docs[id]) else Err("deployment not found")
  }

  // What fromDoc needs of a deployment to rebuild it.
  predicate Storable(a: Agg) {
    ValidParts(a.origin) && BuiltFor(a.origin.applicationID, a.origin.resources)
  }

  // Reloading rebuilds exactly the deployment that was written: every
  // constructor accepts its own output again.
  lemma {:induction false} RoundTrip(a: Agg)
    requires Storable(a)
    ensures FromDoc(ToDoc(a)) == Ok(a)
  {
    hide NewResource;
    ParseInvertsName(a.status, "");
    RebuildsAll(a.origin.applicationID, a.origin.resources);
  }

  // Whatever reloads is storable again, so the cycle can repeat forever.
  lemma {:induction false} ReloadsStorable(d: Doc)
    requires FromDoc(d).Ok?
    ensures Storable(FromDoc(d).value)
  {
    hide NewResource;
    BuiltAllFor(d.applicationID, Decoded(d.resources, []));
  }

  // No field that is omitted when empty goes from set back to empty.
  predicate NothingCleared(from: Agg, to: Agg) {
    && (to.origin.chartSource.versionConstraint == "" ==> from.origin.chartSource.versionConstraint == "")
    && (!to.origin.chartSource.allowPrerelease ==> !from.origin.chartSource.allowPrerelease)
    && (to.origin.values == map[] ==> from.origin.values == map[])
    && (to.origin.resources == [] ==> from.origin.resources == [])
    && (to.completedAt.None? ==> from.completedAt.None?)
    && (to.metadata.None? ==> from.metadata.None?)
    && (to.artifact.None? ==> from.artifact.None?)
    && (to.argoApp.None? ==> from.argoApp.None?)
    && (to.health.None? ==> from.health.None?)
  }

  // The field-wise upsert overwrites exactly when the save clears nothing.
  lemma {:induction false} UpsertOverwritesIff(from: Agg, to: Agg)
    ensures Upsert(Some(ToDoc(from)), ToDoc(to)) == ToDoc(to) <==> NothingCleared(from, to)
  {
    assert ToSpecs(to.origin.resources) == [] <==> to.origin.resources == [];
    assert ToSpecs(from.origin.resources) == [] <==> from.origin.resources == [];
  }

  // The document is one a storable deployment was written as.
  ghost predicate Faithful(d: Doc) {
    FromDoc(d).Ok? && ToDoc(FromDoc(d).value) == d
  }

  // Save followed by FindByID returns the aggregate just saved, and leaves every
  // other document as it was.
  lemma {:induction false} SaveThenFind(docs: Docs, a: Agg)
    requires Storable(a)
    requires a.id in docs ==> Faithful(docs[a.id]) && NothingCleared(FromDoc(docs[a.id]).value, a)
    ensures Saved(docs, a)[a.id] == ToDoc(a) && Faithful(ToDoc(a))
    ensures FindByID(Saved(docs, a), a.id) == Ok(a)
    ensures forall id :: id != a.id ==> FindByID(Saved(docs, a), id) == FindByID(docs, id)
  {
    RoundTrip(a);
    if a.id in docs {
      UpsertOverwritesIff(FromDoc(docs[a.id]).value, a);
    }
  }
}
