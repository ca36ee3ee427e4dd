/** The value objects of a deployment and the identifiers derived from them
    (internal/domain/deployment/valueobject.go). */
module ValueObjects {
  import opened Wrappers

  // A point in time together with the two UTC renderings the identifiers use:
  // the day as yyyymmdd and the time of day as hhmmss.
  datatype Timestamp = Timestamp(instant: nat, day: string, clock: string)

  datatype Image = Image(repository: string, tag: string, digest: string)
  datatype Target = Target(environment: string, cluster: string, namespace: string, appProject: string)
  datatype SourceFields = SourceFields(gitSHA: string, gitRef: string, githubRunID: string, githubRunAttempt: int,
                                       workflowName: string, actor: string, repositoryFull: string)

  // The fields are private and NewSource is the one way to set them, so a source
  // always has a commit of seven characters or more.
  type Source = s: SourceFields | 7 <= |s.gitSHA| witness SourceFields("0000000", "", "", 0, "", "", "")

  datatype ChartSource = ChartSource(repository: string, name: string, versionConstraint: string,
                                     allowPrerelease: bool)

  function NewImage(repository: string, tag: string, digest: string): Result<Image> {
    if repository == "" then Err("image repository is required")
    else if digest == "" then Err("image digest is required")
    else if !("sha256:" <= digest) then Err("image digest must start with a sha256: prefix")
    else Ok(Image(repository, tag, digest))
  }

  function NewTarget(environment: string, cluster: string, namespace: string, appProject: string): Result<Target> {
    if environment == "" then Err("environment is required")
    else if cluster == "" then Err("cluster is required")
    else if namespace == "" then Err("namespace is required")
    else if appProject == "" then Err("app project is required")
    else Ok(Target(environment, cluster, namespace, appProject))
  }

  function NewSource(gitSHA: string, gitRef: string, runID: string, runAttempt: int, workflow: string,
                     actor: string, repo: string): Result<Source>
  {
    if |gitSHA| < 7 then Err("git SHA must be at least 7 characters")
    else Ok(SourceFields(gitSHA, gitRef, runID, runAttempt, workflow, actor, repo))
  }

  function NewChartSource(repository: string, name: string, constraint: string, allowPrerelease: bool)
    : Result<ChartSource>
  {
    if repository == "" then Err("chart repository is required")
    else if name == "" then Err("chart name is required")
    else Ok(ChartSource(repository, name, constraint, allowPrerelease))
  }

  // Values their own constructors accept again.
  predicate ValidImage(i: Image) { NewImage(i.repository, i.tag, i.digest) == Ok(i) }
  predicate ValidTarget(t: Target) { NewTarget(t.environment, t.cluster, t.namespace, t.appProject) == Ok(t) }
  predicate ValidChartSource(c: ChartSource) {
    NewChartSource(c.repository, c.name, c.versionConstraint, c.allowPrerelease) == Ok(c)
  }

  function ShortSHA(s: Source): string { s.gitSHA[..7] }

  function EnvSlug(environment: string): string {
    if |environment| > 4 then environment[..4] else environment
  }

  function NewDeploymentID(appID: string, environment: string, shortSHA: string, ts: Timestamp): string {
    "dep-" + ts.day + "-" + appID + "-" + EnvSlug(environment) + "-" + shortSHA
  }

  function NewComponentID(appID: string, environment: string, cluster: string, shortSHA: string): string {
    appID + "-" + environment + "-" + cluster + "-" + shortSHA
  }

  function NewDeploymentVersion(chartVersion: string, shortSHA: string, ts: Timestamp): string {
    chartVersion + "-" + ts.day + ts.clock + "-" + shortSHA
  }

  function NewArgoAppName(appID: string, environment: string, namespace: string): string {
    appID + "-" + environment + "-" + namespace
  }

  // --- What tells two names apart ---

  lemma {:induction false} Cancels(a: string, b: string, x: string, y: string)
    requires a + x == b + y && (|a| == |b| || |x| == |y|)
    ensures a == b && x == y
  {
    assert |a| == |b|;
    assert a == (a + x)[..|a|] && x == (a + x)[|a|..];
    assert b == (b + y)[..|b|] && y == (b + y)[|b|..];
  }

  // Two deployments of one application have the same id exactly when they start
  // on the same day, from the same commit, for environments that agree in their
  // first four characters.
  lemma {:induction false} SameIDIff(appID: string, e1: string, e2: string, sha1: string, sha2: string,
                                     t1: Timestamp, t2: Timestamp)
    requires |sha1| == |sha2| && |t1.day| == |t2.day|
    ensures NewDeploymentID(appID, e1, sha1, t1) == NewDeploymentID(appID, e2, sha2, t2) <==>
      t1.day == t2.day && sha1 == sha2 && (e1 == e2 || (|e1| >= 4 && |e2| >= 4 && e1[..4] == e2[..4]))
  {
    var id1, id2 := NewDeploymentID(appID, e1, sha1, t1), NewDeploymentID(appID, e2, sha2, t2);
    if id1 == id2 {
      var front1, front2 := "dep-" + t1.day + "-" + appID + "-", "dep-" + t2.day + "-" + appID + "-";
      Cancels(front1 + EnvSlug(e1) + "-", front2 + EnvSlug(e2) + "-", sha1, sha2);
      Cancels(front1 + EnvSlug(e1), front2 + EnvSlug(e2), "-", "-");
      Cancels(front1, front2, EnvSlug(e1), EnvSlug(e2));
      assert "dep-" + t1.day == ("dep-" + t1.day + "-" + appID + "-")[..4 + |t1.day|];
      assert "dep-" + t2.day == ("dep-" + t2.day + "-" + appID + "-")[..4 + |t1.day|];
      Cancels("dep-", "dep-", t1.day, t2.day);
    }
  }

  // Deployments of two applications in one environment never share an id.
  lemma {:induction false} SameIDApplication(a1: string, a2: string, environment: string, sha1: string, sha2: string,
                                             t1: Timestamp, t2: Timestamp)
    requires |sha1| == |sha2| && |t1.day| == |t2.day|
    requires NewDeploymentID(a1, environment, sha1, t1) == NewDeploymentID(a2, environment, sha2, t2)
    ensures a1 == a2
  {
    var front1, front2 := "dep-" + t1.day + "-", "dep-" + t2.day + "-";
    var slug := EnvSlug(environment);
    Cancels(front1 + a1 + "-" + slug + "-", front2 + a2 + "-" + slug + "-", sha1, sha2);
    Cancels(front1 + a1 + "-" + slug, front2 + a2 + "-" + slug, "-", "-");
    Cancels(front1 + a1 + "-", front2 + a2 + "-", slug, slug);
    Cancels(front1 + a1, front2 + a2, "-", "-");
    Cancels(front1, front2, a1, a2);
  }

  // A component of one application and environment is told by cluster and commit.
  lemma {:induction false} SameComponentIff(appID: string, e: string, c1: string, c2: string, sha1: string,
                                            sha2: string)
    requires |sha1| == |sha2|
    ensures NewComponentID(appID, e, c1, sha1) == NewComponentID(appID, e, c2, sha2) <==> c1 == c2 && sha1 == sha2
  {
    if NewComponentID(appID, e, c1, sha1) == NewComponentID(appID, e, c2, sha2) {
      var front := appID + "-" + e + "-";
      Cancels(front + c1 + "-", front + c2 + "-", sha1, sha2);
      Cancels(front + c1, front + c2, "-", "-");
      Cancels(front, front, c1, c2);
    }
  }

  // Two versions of one chart version are the same exactly when start and commit are.
  lemma {:induction false} SameVersionIff(v1: string, v2: string, sha1: string, sha2: string, t1: Timestamp,
                                          t2: Timestamp)
    requires |sha1| == |sha2| && |t1.day| == |t2.day| && |t1.clock| == |t2.clock|
    ensures NewDeploymentVersion(v1, sha1, t1) == NewDeploymentVersion(v2, sha2, t2) <==>
      v1 == v2 && t1.day == t2.day && t1.clock == t2.clock && sha1 == sha2
  {
    if NewDeploymentVersion(v1, sha1, t1) == NewDeploymentVersion(v2, sha2, t2) {
      Cancels(v1 + "-" + t1.day + t1.clock + "-", v2 + "-" + t2.day + t2.clock + "-", sha1, sha2);
      Cancels(v1 + "-" + t1.day + t1.clock, v2 + "-" + t2.day + t2.clock, "-", "-");
      Cancels(v1 + "-" + t1.day, v2 + "-" + t2.day, t1.clock, t2.clock);
      Cancels(v1 + "-", v2 + "-", t1.day, t2.day);
      Cancels(v1, v2, "-", "-");
    }
  }

  // Two applications named alike, in one environment, share their Argo CD name
  // exactly when they share their namespace; likewise in one namespace.
  lemma {:induction false} SameAppNameIff(appID: string, e1: string, e2: string, n1: string, n2: string)
    ensures e1 == e2 ==> (NewArgoAppName(appID, e1, n1) == NewArgoAppName(appID, e2, n2) <==> n1 == n2)
    ensures n1 == n2 ==> (NewArgoAppName(appID, e1, n1) == NewArgoAppName(appID, e2, n2) <==> e1 == e2)
  {
    if NewArgoAppName(appID, e1, n1) == NewArgoAppName(appID, e2, n2) {
      if e1 == e2 {
        Cancels(appID + "-" + e1 + "-", appID + "-" + e2 + "-", n1, n2);
      } else if n1 == n2 {
        Cancels(appID + "-" + e1 + "-", appID + "-" + e2 + "-", n1, n2);
        Cancels(appID + "-" + e1, appID + "-" + e2, "-", "-");
        Cancels(appID + "-", appID + "-", e1, e2);
      }
    }
  }
}
