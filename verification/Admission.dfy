/** The create boundary: the gates in front of the one initial save
    (internal/application/deployment/create.go and resources.go). */
module Admission {
  import opened Wrappers
  import opened Lifecycle
  import opened ValueObjects
  import opened Resources
  import opened Values
  import opened Aggregate
  import opened Persistence
  import opened Ports
  import opened Reserved
  import A = Allowlist
  import P = ResourcePolicy

  datatype Command = Command(
    applicationID: string, team: string, imageRepository: string, imageTag: string, imageDigest: string,
    chartRepository: string, chartName: string, chartConstraint: string, allowPrerelease: bool,
    environment: string, cluster: string, namespace: string, appProject: string,
    values: Tree, resources: seq<Spec>, gitSHA: string, gitRef: string, githubRunID: string,
    githubRunAttempt: int, workflowName: string, actor: string, repositoryFull: string, correlationID: string)

  // The gates of the handler. The branch policy and the allowlist are skipped
  // when they are not configured; a missing resource policy closes its gate.
  datatype Gates = Gates(allowlist: Option<A.Allowlist>, resourcePolicy: Option<P.Policy>)

  // --- What is admitted ---

  // The branch policy's answer for this command, when there is such a policy.
  predicate BranchAllows(branch: Option<Result<bool>>) {
    branch.Some? ==> branch.value == Ok(true)
  }

  ghost predicate AllowlistAdmits(g: Gates, overlay: Tree, environment: string) {
    g.allowlist.Some? && g.allowlist.value.enforce ==>
      A.NoViolations(overlay, A.KeysFor(g.allowlist.value, environment))
  }

  predicate Authorized(policy: Option<P.Policy>, resources: seq<Resource>, environment: string) {
    resources == [] ||
    (policy.Some? && (policy.value.enforce ==> P.Allows(policy.value, ToSpecs(resources), environment)))
  }

  // The value objects of the command, in the order they are built.
  function Parts(cmd: Command, resources: seq<Resource>, now: Timestamp): Result<Origin> {
    var image :- NewImage(cmd.imageRepository, cmd.imageTag, cmd.imageDigest);
    var chart :- NewChartSource(cmd.chartRepository, cmd.chartName, cmd.chartConstraint, cmd.allowPrerelease);
    var target :- NewTarget(cmd.environment, cmd.cluster, cmd.namespace, cmd.appProject);
    var source :- NewSource(cmd.gitSHA, cmd.gitRef, cmd.githubRunID, cmd.githubRunAttempt,
                            cmd.workflowName, cmd.actor, cmd.repositoryFull);
    Ok(Origin(cmd.applicationID, cmd.team, image, chart, target, source, cmd.values, resources,
              cmd.correlationID, now))
  }

  // The aggregate a command creates, or why it is refused.
  ghost function Admit(g: Gates, branch: Option<Result<bool>>, cmd: Command, now: Timestamp): Result<Agg> {
    if !BranchAllows(branch) then Err("policy violation")
    else if TouchesReserved(cmd.values) || !AllowlistAdmits(g, cmd.values, cmd.environment) then
      Err("tunable allowlist violation")
    else
      var resources :- BuildAll(cmd.applicationID, cmd.resources);
      if !Authorized(g.resourcePolicy, resources, cmd.environment) then Err("resource policy violation")
      else
        var origin :- Parts(cmd, resources, now);
        NewState(origin)
  }

  // --- The handler ---

  method AuthorizeResources(policy: Option<P.Policy>, resources: seq<Resource>,
                            environment: string) returns (ok: bool)
    ensures ok <==> Authorized(policy, resources, environment)
  {
    if |resources| == 0 {
      return true;
    }
    if policy.None? {
      return false;
    }
    var requests: seq<Spec> := [];
    for i := 0 to |resources|
      invariant requests == ToSpecs(resources)[..i]
    {
      requests := requests + [ToSpec(resources[i])];
    }
    assert requests == ToSpecs(resources);
    var d := P.Evaluate(policy.value, requests, environment);
    return !d.reject;
  }

  method CheckAllowlist(g: Gates, cmd: Command) returns (ok: bool)
    ensures ok <==> AllowlistAdmits(g, cmd.values, cmd.environment)
  {
    if g.allowlist.None? {
      return true;
    }
    var d := A.Validate(g.allowlist.value, cmd.values, cmd.environment);
    ghost var bad :| A.Verdict(g.allowlist.value, cmd.values, cmd.environment, d, bad);
    assert forall p :: p in bad <==>
      A.Reported(cmd.values, p) && !A.Covered(A.KeysFor(g.allowlist.value, cmd.environment), A.Written(p));
    assert bad != [] ==> bad[0] in bad;
    return !d.reject;
  }

  // The only save is the last step, and only an admitted command reaches it: a
  // refused one leaves the store unchanged.
  method Handle(w: World, g: Gates, branch: Option<Result<bool>>, cmd: Command) returns (r: Result<string>)
    modifies w
    ensures w.trace == old(w.trace)
    ensures match Admit(g, branch, cmd, old(w.now))
            case Err(_) => r.Err? && w.docs == old(w.docs) && w.log == old(w.log)
            case Ok(d) =>
              && |w.log| == |old(w.log)| + 1
              && w.docs == SaveAnswered(old(w.docs), d, w.log[|w.log| - 1])
              && (r.Ok? ==> r.value == d.id && w.docs == Saved(old(w.docs), d))
  {
    if branch.Some? && branch.value != Ok(true) {
      return Err("policy violation");
    }
    var reserved := ReservedValueOverrides(cmd.values);
    if |reserved| > 0 {
      return Err("tunable allowlist violation");
    }
    var tunable := CheckAllowlist(g, cmd);
    if !tunable {
      return Err("tunable allowlist violation");
    }
    var resources := BuildResources(cmd.applicationID, cmd.resources);
    if resources.Err? {
      return Err(resources.error);
    }
    var authorized := AuthorizeResources(g.resourcePolicy, resources.value, cmd.environment);
    if !authorized {
      return Err("resource policy violation");
    }
    var origin := Parts(cmd, resources.value, w.now);
    if origin.Err? {
      return Err(origin.error);
    }
    var d := New(origin.value);
    if d.Err? {
      return Err(d.error);
    }
    var a := w.Save(d.value);
    if !a.ok {
      return Err("create deployment: save: " + a.err);
    }
    return Ok(d.value.id);
  }

  // --- What admission guarantees ---

  // Every aggregate a save can create is sound, was authorized by the rules its
  // environment names when the policy enforces, and carries an overlay that
  // reaches nothing the platform owns and nothing the allowlist keeps closed.
  lemma {:induction false} AdmittedIsSound(g: Gates, branch: Option<Result<bool>>, cmd: Command, now: Timestamp)
    requires Admit(g, branch, cmd, now).Ok?
    ensures
      var d := Admit(g, branch, cmd, now).value;
      && ValidOrigin(d.origin) && d == Fresh(d.origin)
      && BuildAll(cmd.applicationID, cmd.resources) == Ok(d.origin.resources)
      && Asked(d.origin, cmd) && d.origin.startedAt == now
      && Authorized(g.resourcePolicy, d.origin.resources, cmd.environment)
      && NeverSets(d.origin.values) && AllowlistAdmits(g, d.origin.values, cmd.environment)
  {
    hide NewResource, AllowlistAdmits, Parts, ValidParts, BuildAll, TouchesReserved, BuiltFor, NeverSets,
      Authorized;
    BuiltAllFor(cmd.applicationID, cmd.resources);
    AcceptsIffNeverSets(cmd.values);
    PartsAreValid(cmd, BuildAll(cmd.applicationID, cmd.resources).value, now);
  }

  lemma {:induction false} PartsAreValid(cmd: Command, resources: seq<Resource>, now: Timestamp)
    requires Parts(cmd, resources, now).Ok?
    ensures
      var o := Parts(cmd, resources, now).value;
      && ValidParts(o)
      && Asked(o, cmd) && o.resources == resources && o.startedAt == now
  {
  }

  // The origin is the command's, field by field.
  predicate Asked(o: Origin, cmd: Command) {
    && o.applicationID == cmd.applicationID && o.team == cmd.team
    && o.image.repository == cmd.imageRepository && o.image.tag == cmd.imageTag && o.image.digest == cmd.imageDigest
    && o.chartSource.repository == cmd.chartRepository && o.chartSource.name == cmd.chartName
    && o.chartSource.versionConstraint == cmd.chartConstraint && o.chartSource.allowPrerelease == cmd.allowPrerelease
    && o.target.environment == cmd.environment && o.target.cluster == cmd.cluster
    && o.target.namespace == cmd.namespace && o.target.appProject == cmd.appProject
    && o.source.gitSHA == cmd.gitSHA && o.source.gitRef == cmd.gitRef
    && o.source.githubRunID == cmd.githubRunID && o.source.githubRunAttempt == cmd.githubRunAttempt
    && o.source.workflowName == cmd.workflowName && o.source.actor == cmd.actor
    && o.source.repositoryFull == cmd.repositoryFull
    && o.values == cmd.values && o.correlationID == cmd.correlationID
  }

  // The fields every command must fill in.
  predicate Complete(cmd: Command) {
    && cmd.applicationID != "" && cmd.team != ""
    && cmd.imageRepository != "" && "sha256:" <= cmd.imageDigest
    && cmd.chartRepository != "" && cmd.chartName != ""
    && cmd.environment != "" && cmd.cluster != "" && cmd.namespace != "" && cmd.appProject != ""
    && |cmd.gitSHA| >= 7
  }

  // No declared resource, or exactly one that can be built and is authorized.
  predicate ResourcesAdmitted(g: Gates, cmd: Command) {
    cmd.resources == [] || (
      && |cmd.resources| == 1
      && NewResource(cmd.applicationID, cmd.resources[0]).Ok?
      && Authorized(g.resourcePolicy, [NewResource(cmd.applicationID, cmd.resources[0]).value], cmd.environment))
  }

  // Exactly the commands that are admitted.
  lemma {:induction false} AdmittedIff(g: Gates, branch: Option<Result<bool>>, cmd: Command, now: Timestamp)
    ensures Admit(g, branch, cmd, now).Ok? <==>
      && BranchAllows(branch) && Complete(cmd)
      && NeverSets(cmd.values) && AllowlistAdmits(g, cmd.values, cmd.environment)
      && ResourcesAdmitted(g, cmd)
  {
    hide NewResource, AllowlistAdmits, NeverSets, TouchesReserved, Parts, Complete, BuildAll, P.Allows;
    AcceptsIffNeverSets(cmd.values);
    BuildsSatisfiableIff(cmd.applicationID, cmd.resources);
    if BuildAll(cmd.applicationID, cmd.resources).Ok? {
      var resources := BuildAll(cmd.applicationID, cmd.resources).value;
      PartsOkIff(cmd, resources, now);
    }
  }

  lemma {:induction false} PartsOkIff(cmd: Command, resources: seq<Resource>, now: Timestamp)
    ensures Parts(cmd, resources, now).Ok? && cmd.applicationID != "" && cmd.team != "" <==> Complete(cmd)
    ensures Parts(cmd, resources, now).Ok? ==>
      var o := Parts(cmd, resources, now).value;
      o.applicationID == cmd.applicationID && o.team == cmd.team && o.resources == resources
  {
  }

  // The resources that build and are satisfiable together: none, or one.
  lemma {:induction false} BuildsSatisfiableIff(applicationID: string, specs: seq<Spec>)
    ensures
      var built := BuildAll(applicationID, specs);
      && (built.Ok? && Satisfiable(built.value) <==>
            specs == [] || (|specs| == 1 && NewResource(applicationID, specs[0]).Ok?))
      && (specs == [] ==> built == Ok([]))
      && (|specs| == 1 && NewResource(applicationID, specs[0]).Ok? ==>
            built == Ok([NewResource(applicationID, specs[0]).value]))
  {
    hide NewResource;
    if |specs| == 1 {
      assert specs[..|specs| - 1] == [];
      assert BuildAll(applicationID, []) == Ok([]);
      var one := NewResource(applicationID, specs[0]);
      if one.Ok? {
        RederivesItself(applicationID, specs[0]);
        assert [] + [one.value] == [one.value];
      }
    }
    if BuildAll(applicationID, specs).Ok? {
      BuiltAllFor(applicationID, specs);
      var built := BuildAll(applicationID, specs).value;
      if Satisfiable(built) {
        AtMostOneDatabase(applicationID, built);
      }
    }
  }
}
