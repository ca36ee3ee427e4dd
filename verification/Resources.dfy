/** Declared application dependencies (internal/domain/deployment/resource.go). */
module Resources {
  import opened Wrappers
  import opened Text

  const POSTGRES := "postgres"
  const DEFAULT_POSTGRES_SIZE := "small"
  const DEFAULT_POSTGRES_VERSION := "16"
  const DEFAULT_POSTGRES_STORAGE_MB := 32768
  const MIN_POSTGRES_STORAGE_MB := 32768
  const MAX_POSTGRES_STORAGE_MB := 33553408
  const MAX_RESOURCE_NAME_LEN := 50

  // The Go zero Resource, with an empty type, is a value of this datatype too.
  datatype Resource = Resource(resourceType: string, name: string, databaseName: string,
                               size: string, version: string, storageMb: int)

  // The domain constructor's inputs, as a caller or a stored document gives them.
  datatype Spec = Spec(resourceType: string, size: string, version: string, storageMb: int)

  predicate IsPostgresSize(s: string) { s == "small" || s == "medium" || s == "large" }
  predicate IsPostgresVersion(v: string) { v == "14" || v == "15" || v == "16" }

  predicate Alphanumeric(c: char) { 'a' <= c <= 'z' || '0' <= c <= '9' }

  // A label in the sense of section 2.1 of RFC 1123, lower case.
  predicate IsLabel(s: string) {
    && s != ""
    && Alphanumeric(s[0]) && Alphanumeric(s[|s| - 1])
    && forall i :: 0 <= i < |s| ==> Alphanumeric(s[i]) || s[i] == '-'
  }

  function DeriveResourceName(applicationID: string): Result<string> {
    var name := TrimSpace(applicationID);
    if name == "" then Err("application ID is required to derive a resource name")
    else if |name| > MAX_RESOURCE_NAME_LEN then Err("application ID is too long to derive a resource name")
    else if !IsLabel(name) then Err("application ID cannot name a resource")
    else Ok(name)
  }

  function NewPostgresResource(applicationID: string, size: string, version: string, storageMb: int)
    : Result<Resource>
  {
    var name :- DeriveResourceName(applicationID);
    var size := if TrimSpace(size) == "" then DEFAULT_POSTGRES_SIZE else TrimSpace(size);
    if !IsPostgresSize(size) then Err("postgres size is not supported") else
    var version := if TrimSpace(version) == "" then DEFAULT_POSTGRES_VERSION else TrimSpace(version);
    if !IsPostgresVersion(version) then Err("postgres version is not supported") else
    var storageMb := if storageMb == 0 then DEFAULT_POSTGRES_STORAGE_MB else storageMb;
    if storageMb < MIN_POSTGRES_STORAGE_MB || storageMb > MAX_POSTGRES_STORAGE_MB then
      Err("postgres storageMb is outside the supported range")
    else
      Ok(Resource(POSTGRES, name, name + "-db", size, version, storageMb))
  }

  function NewResource(applicationID: string, spec: Spec): Result<Resource> {
    var t := TrimSpace(spec.resourceType);
    if t == POSTGRES then NewPostgresResource(applicationID, spec.size, spec.version, spec.storageMb)
    else if t == "" then Err("resource type is required")
    else Err("resource type is not supported")
  }

  function ToSpec(r: Resource): Spec {
    Spec(r.resourceType, r.size, r.version, r.storageMb)
  }

  lemma {:induction false} TrimUntouched(s: string)
    requires s == "" || (!IsSpace(s[0]) && !IsSpace(s[|s| - 1]))
    ensures TrimSpace(s) == s
  {
  }

  // What an accepted request yields, and that the constructor rebuilds exactly
  // that resource from its own type, size, version and storage: nothing else of
  // a resource has to be stored.
  lemma RederivesItself(applicationID: string, spec: Spec)
    requires NewResource(applicationID, spec).Ok?
    ensures
      var r := NewResource(applicationID, spec).value;
      && NewResource(applicationID, ToSpec(r)) == Ok(r)
      && r.resourceType == POSTGRES
      && r.name == TrimSpace(applicationID) && r.databaseName == r.name + "-db"
      && IsLabel(r.name) && |r.name| <= 50
      && IsPostgresSize(r.size) && IsPostgresVersion(r.version)
      && MIN_POSTGRES_STORAGE_MB <= r.storageMb <= MAX_POSTGRES_STORAGE_MB
  {
    var r := NewResource(applicationID, spec).value;
    TrimUntouched(POSTGRES);
    TrimUntouched(r.size);
    TrimUntouched(r.version);
  }

  // Exactly the requests that are accepted, and what the resource gets: what was
  // asked for, and the defaults where nothing was.
  lemma {:induction false} AcceptedIff(applicationID: string, spec: Spec)
    ensures
      var name, size, version := TrimSpace(applicationID), TrimSpace(spec.size), TrimSpace(spec.version);
      var built := NewResource(applicationID, spec);
      && (built.Ok? <==>
            && TrimSpace(spec.resourceType) == "postgres"
            && IsLabel(name) && |name| <= 50
            && size in {"", "small", "medium", "large"} && version in {"", "14", "15", "16"}
            && (spec.storageMb == 0 || 32768 <= spec.storageMb <= 33553408))
      && (built.Ok? ==>
            && built.value.resourceType == "postgres"
            && built.value.name == name && built.value.databaseName == name + "-db"
            && built.value.size == (if size == "" then "small" else size)
            && built.value.version == (if version == "" then "16" else version)
            && built.value.storageMb == (if spec.storageMb == 0 then 32768 else spec.storageMb))
  {
    hide TrimSpace;
  }

  // The set invariant: no empty resource and no type twice.
  predicate Satisfiable(rs: seq<Resource>) {
    && (forall i :: 0 <= i < |rs| ==> rs[i].resourceType != "")
    && (forall i, j :: 0 <= i < j < |rs| ==> rs[i].resourceType != rs[j].resourceType)
  }

  method ValidateResourceSet(rs: seq<Resource>) returns (ok: bool)
    ensures ok <==> Satisfiable(rs)
  {
    var seen: set<string> := {};
    for i := 0 to |rs|
      invariant seen == set k | 0 <= k < i :: rs[k].resourceType
      invariant Satisfiable(rs[..i])
    {
      if rs[i].resourceType == "" || rs[i].resourceType in seen {
        return false;
      }
      seen := seen + {rs[i].resourceType};
      assert forall k :: 0 <= k < i + 1 ==> rs[..i + 1][k] == rs[k];
    }
    assert rs[..|rs|] == rs;
    return true;
  }

  // Resources built for one application.
  predicate BuiltFor(applicationID: string, rs: seq<Resource>) {
    forall i :: 0 <= i < |rs| ==> NewResource(applicationID, ToSpec(rs[i])) == Ok(rs[i])
  }

  lemma {:induction false} BuiltIsPostgres(applicationID: string, r: Resource)
    requires NewResource(applicationID, ToSpec(r)) == Ok(r)
    ensures r.resourceType == POSTGRES && r.name == TrimSpace(applicationID)
  {
    RederivesItself(applicationID, ToSpec(r));
  }

  // Only postgres can be built, so a satisfiable set of built resources holds
  // at most one: the ceiling is structural.
  lemma {:induction false} AtMostOneDatabase(applicationID: string, rs: seq<Resource>)
    requires BuiltFor(applicationID, rs) && Satisfiable(rs)
    ensures |rs| <= 1
    ensures |rs| == 1 ==> rs[0].resourceType == POSTGRES && rs[0].name == TrimSpace(applicationID)
  {
    if |rs| > 0 {
      BuiltIsPostgres(applicationID, rs[0]);
      if |rs| > 1 {
        BuiltIsPostgres(applicationID, rs[1]);
      }
    }
  }

  function ToSpecs(rs: seq<Resource>): (specs: seq<Spec>)
    ensures |specs| == |rs| && forall i :: 0 <= i < |rs| ==> specs[i] == ToSpec(rs[i])
  {
    seq(|rs|, i requires 0 <= i < |rs| => ToSpec(rs[i]))
  }

  // Builds every resource of a list for one application, or fails on the first
  // that cannot be built.
  function BuildAll(applicationID: string, specs: seq<Spec>): Result<seq<Resource>> {
    if specs == [] then Ok([])
    else
      var front :- BuildAll(applicationID, specs[..|specs| - 1]);
      var last :- NewResource(applicationID, specs[|specs| - 1]);
      Ok(front + [last])
  }

  // The loop that both the create boundary and the reload run.
  method BuildResources(applicationID: string, specs: seq<Spec>) returns (r: Result<seq<Resource>>)
    ensures r == BuildAll(applicationID, specs)
  {
    var resources: seq<Resource> := [];
    for i := 0 to |specs|
      invariant BuildAll(applicationID, specs[..i]) == Ok(resources)
    {
      assert specs[..i + 1][..i] == specs[..i];
      var built := NewResource(applicationID, specs[i]);
      if built.Err? {
        BuildAllFails(applicationID, specs, i + 1);
        return Err(built.error);
      }
      resources := resources + [built.value];
    }
    assert specs[..|specs|] == specs;
    return Ok(resources);
  }

  lemma {:induction false} BuildAllFails(applicationID: string, specs: seq<Spec>, n: nat)
    requires n <= |specs| && BuildAll(applicationID, specs[..n]).Err?
    ensures BuildAll(applicationID, specs) == BuildAll(applicationID, specs[..n])
    decreases |specs|
  {
    if n == |specs| {
      assert specs[..n] == specs;
    } else {
      var front := specs[..|specs| - 1];
      assert front[..n] == specs[..n];
      BuildAllFails(applicationID, front, n);
    }
  }

  // Everything built is built for the application, one resource for one spec,
  // and is rebuilt unchanged from its own specs.
  lemma {:induction false} BuiltAllFor(applicationID: string, specs: seq<Spec>)
    requires BuildAll(applicationID, specs).Ok?
    ensures
      var rs := BuildAll(applicationID, specs).value;
      && |rs| == |specs| && BuiltFor(applicationID, rs)
      && forall i :: 0 <= i < |rs| ==> NewResource(applicationID, specs[i]) == Ok(rs[i])
  {
    hide NewResource;
    if specs != [] {
      BuiltAllFor(applicationID, specs[..|specs| - 1]);
      RederivesItself(applicationID, specs[|specs| - 1]);
    }
  }

  lemma {:induction false} RebuildsAll(applicationID: string, rs: seq<Resource>)
    requires BuiltFor(applicationID, rs)
    ensures BuildAll(applicationID, ToSpecs(rs)) == Ok(rs)
  {
    hide NewResource;
    if rs != [] {
      var front := rs[..|rs| - 1];
      RebuildsAll(applicationID, front);
      assert ToSpecs(rs)[..|rs| - 1] == ToSpecs(front);
      assert front + [rs[|rs| - 1]] == rs;
    }
  }
}
