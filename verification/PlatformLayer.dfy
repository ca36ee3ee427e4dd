/** The values the platform puts on top of every other layer, and what they fix
    in the composed chart (internal/application/deployment/execute.go). */
module PlatformLayer {
  import opened Wrappers
  import opened Text
  import opened ValueObjects
  import opened Resources
  import opened Values
  import opened Aggregate

  const SQL_BLOCK := "sqldatabase"

  function StrLeaf(s: string): Value { Leaf(Str(s)) }

  // The chart's list entry for one database.
  function SqlEntry(r: Resource): Value {
    Map(map[
      "name" := StrLeaf(r.name),
      "azureFlexibleServer" := Map(map[
        "size" := StrLeaf(r.size),
        "version" := StrLeaf(r.version),
        "storageMb" := Leaf(Int(r.storageMb)),
        "databaseName" := StrLeaf(r.databaseName)])])
  }

  function SqlEntries(rs: seq<Resource>): seq<Value> {
    if rs == [] then []
    else
      var last := rs[|rs| - 1];
      SqlEntries(rs[..|rs| - 1]) + if last.resourceType == POSTGRES then [SqlEntry(last)] else []
  }

  function SqlBlock(o: Origin, entries: seq<Value>): Value {
    Map(map[
      "enabled" := Leaf(Bool(true)),
      "engine" := StrLeaf("azure-flexibleserver"),
      "team" := StrLeaf(o.team),
      "environment" := StrLeaf(o.target.environment),
      "databases" := Map(map["sql" := List(entries)])])
  }

  function Bind(instance: string): Value {
    Map(map["postgres" := Map(map["bindBuildingBlock" := Map(map[
      "enabled" := Leaf(Bool(true)),
      "instanceName" := StrLeaf(instance)])])])
  }

  // The first postgres of the list, which is the one bound.
  function FirstPostgres(rs: seq<Resource>): Option<Resource> {
    if rs == [] then None
    else if rs[0].resourceType == POSTGRES then Some(rs[0])
    else FirstPostgres(rs[1..])
  }

  // No declared resource gives the empty layer; a declared one is refused when
  // the application's values key is unknown.
  function PlatformValues(o: Origin, appValuesKey: string): Result<Tree> {
    if o.resources == [] then Ok(map[])
    else if appValuesKey == "" then Err("no application values key")
    else
      var entries := SqlEntries(o.resources);
      if entries == [] then Ok(map[])
      else
        var vals: Tree := map[SQL_BLOCK := SqlBlock(o, entries)];
        match FirstPostgres(o.resources)
        case Some(r) => Ok(vals[appValuesKey := Bind(r.name)])
        case None => Ok(vals)
  }

  method BindValues(rs: seq<Resource>) returns (r: Option<Value>)
    ensures r == match FirstPostgres(rs) case Some(p) => Some(Bind(p.name)) case None => None
  {
    for i := 0 to |rs|
      invariant FirstPostgres(rs) == FirstPostgres(rs[i..])
    {
      assert rs[i..][1..] == rs[i + 1..];
      if rs[i].resourceType == POSTGRES {
        return Some(Bind(rs[i].name));
      }
    }
    return None;
  }

  method ComputePlatformValues(o: Origin, appValuesKey: string) returns (r: Result<Tree>)
    ensures r == PlatformValues(o, appValuesKey)
  {
    if |o.resources| == 0 {
      return Ok(map[]);
    }
    if appValuesKey == "" {
      return Err("no application values key");
    }
    var sqlDatabases: seq<Value> := [];
    for i := 0 to |o.resources|
      invariant sqlDatabases == SqlEntries(o.resources[..i])
    {
      assert o.resources[..i + 1][..i] == o.resources[..i];
      if o.resources[i].resourceType != POSTGRES {
        continue;
      }
      sqlDatabases := sqlDatabases + [SqlEntry(o.resources[i])];
    }
    assert o.resources[..|o.resources|] == o.resources;
    if |sqlDatabases| == 0 {
      return Ok(map[]);
    }
    var vals: Tree := map[SQL_BLOCK := SqlBlock(o, sqlDatabases)];
    var bind := BindValues(o.resources);
    if bind.Some? {
      vals := vals[appValuesKey := bind.value];
    }
    return Ok(vals);
  }

  // --- What the layer fixes ---

  const SQL_PATH: Path := [SQL_BLOCK, "databases", "sql"]

  function BindPath(appValuesKey: string, knob: string): Path {
    [appValuesKey, "postgres", "bindBuildingBlock", knob]
  }

  // The list entry of the database r, under this name.
  predicate Describes(entry: Value, name: string, r: Resource) {
    && Find(entry, ["name"]) == Some(Leaf(Str(name)))
    && Find(entry, ["azureFlexibleServer", "size"]) == Some(Leaf(Str(r.size)))
    && Find(entry, ["azureFlexibleServer", "version"]) == Some(Leaf(Str(r.version)))
    && Find(entry, ["azureFlexibleServer", "storageMb"]) == Some(Leaf(Int(r.storageMb)))
    && Find(entry, ["azureFlexibleServer", "databaseName"]) == Some(Leaf(Str(r.databaseName)))
  }

  // The values provision exactly the database r for the deployment, on the
  // platform's engine, and bind the application to it: the one list entry and
  // the bind carry the same name, that of the application.
  predicate Provisions(values: Tree, appValuesKey: string, o: Origin, r: Resource) {
    var name := TrimSpace(o.applicationID);
    && (match Lookup(values, ["sqldatabase", "databases", "sql"])
        case Some(List(items)) => |items| == 1 && Describes(items[0], name, r)
        case _ => false)
    && Lookup(values, [appValuesKey, "postgres", "bindBuildingBlock", "instanceName"]) == Some(Leaf(Str(name)))
    && Lookup(values, [appValuesKey, "postgres", "bindBuildingBlock", "enabled"]) == Some(Leaf(Bool(true)))
    && Lookup(values, ["sqldatabase", "enabled"]) == Some(Leaf(Bool(true)))
    && Lookup(values, ["sqldatabase", "engine"]) == Some(Leaf(Str("azure-flexibleserver")))
    && Lookup(values, ["sqldatabase", "team"]) == Some(Leaf(Str(o.team)))
    && Lookup(values, ["sqldatabase", "environment"]) == Some(Leaf(Str(o.target.environment)))
  }

  lemma {:induction false} EntryDescribes(r: Resource)
    ensures Describes(SqlEntry(r), r.name, r)
  {
    var server := SqlEntry(r).entries["azureFlexibleServer"];
    FindSingle(SqlEntry(r), "name");
    forall knob: string
      ensures Find(SqlEntry(r), ["azureFlexibleServer", knob]) == Find(server, [knob])
    {
      FindKey(SqlEntry(r), "azureFlexibleServer", [knob]);
    }
    FindSingle(server, "size");
    FindSingle(server, "version");
    FindSingle(server, "storageMb");
    FindSingle(server, "databaseName");
  }

  lemma {:induction false} LayerOfOne(o: Origin, appValuesKey: string)
    requires ValidOrigin(o) && o.resources != [] && appValuesKey != ""
    ensures |o.resources| == 1 && o.resources[0].name == TrimSpace(o.applicationID)
    ensures PlatformValues(o, appValuesKey) ==
      Ok(map[SQL_BLOCK := SqlBlock(o, [SqlEntry(o.resources[0])])][appValuesKey := Bind(o.resources[0].name)])
  {
    hide NewResource;
    AtMostOneDatabase(o.applicationID, o.resources);
    assert o.resources[..0] == [];
    assert SqlEntries(o.resources) == [SqlEntry(o.resources[0])];
    assert FirstPostgres(o.resources) == Some(o.resources[0]);
  }

  lemma {:induction false} FindBind(instance: string)
    ensures Find(Bind(instance), ["postgres", "bindBuildingBlock", "instanceName"]) == Some(StrLeaf(instance))
    ensures Find(Bind(instance), ["postgres", "bindBuildingBlock", "enabled"]) == Some(Leaf(Bool(true)))
  {
    var postgres := Bind(instance).entries["postgres"];
    var block := postgres.entries["bindBuildingBlock"];
    FindSingle(block, "instanceName");
    FindSingle(block, "enabled");
    forall knob
      ensures Find(Bind(instance), ["postgres", "bindBuildingBlock", knob]) == Find(block, [knob])
    {
      FindKey(Bind(instance), "postgres", ["bindBuildingBlock", knob]);
      FindKey(postgres, "bindBuildingBlock", [knob]);
    }
  }

  lemma {:induction false} FindSql(o: Origin, entries: seq<Value>)
    ensures Find(SqlBlock(o, entries), ["databases", "sql"]) == Some(List(entries))
    ensures Find(SqlBlock(o, entries), ["enabled"]) == Some(Leaf(Bool(true)))
    ensures Find(SqlBlock(o, entries), ["engine"]) == Some(StrLeaf("azure-flexibleserver"))
    ensures Find(SqlBlock(o, entries), ["team"]) == Some(StrLeaf(o.team))
    ensures Find(SqlBlock(o, entries), ["environment"]) == Some(StrLeaf(o.target.environment))
  {
    var block := SqlBlock(o, entries);
    FindKey(block, "databases", ["sql"]);
    FindSingle(block.entries["databases"], "sql");
    FindSingle(block, "enabled");
    FindSingle(block, "engine");
    FindSingle(block, "team");
    FindSingle(block, "environment");
  }

  // A layer that holds both blocks provisions the database by itself.
  lemma {:induction false} LayerProvisions(o: Origin, appValuesKey: string, layer: Tree, r: Resource)
    requires SQL_BLOCK in layer && layer[SQL_BLOCK] == SqlBlock(o, [SqlEntry(r)])
    requires appValuesKey in layer && layer[appValuesKey] == Bind(r.name) && r.name == TrimSpace(o.applicationID)
    ensures Provisions(layer, appValuesKey, o, r)
  {
    hide SqlBlock, Bind, SqlEntry, Find, TrimSpace, Describes;
    EntryDescribes(r);
    FindSql(o, [SqlEntry(r)]);
    FindBind(r.name);
    assert SQL_PATH == [SQL_BLOCK] + ["databases", "sql"];
    FindKey(Map(layer), SQL_BLOCK, ["databases", "sql"]);
    forall knob: string
      ensures Lookup(layer, [SQL_BLOCK, knob]) == Find(layer[SQL_BLOCK], [knob])
    {
      assert [SQL_BLOCK, knob] == [SQL_BLOCK] + [knob];
      FindKey(Map(layer), SQL_BLOCK, [knob]);
    }
    forall knob: string
      ensures Lookup(layer, BindPath(appValuesKey, knob)) ==
              Find(layer[appValuesKey], ["postgres", "bindBuildingBlock", knob])
    {
      assert BindPath(appValuesKey, knob) == [appValuesKey] + ["postgres", "bindBuildingBlock", knob];
      FindKey(Map(layer), appValuesKey, ["postgres", "bindBuildingBlock", knob]);
    }
  }

  // What a layer provisions, everything below it keeps.
  lemma {:induction false} ProvisionsStand(defaults: Tree, overlay: Tree, layer: Tree, appValuesKey: string,
                                           o: Origin, r: Resource)
    requires Provisions(layer, appValuesKey, o, r)
    ensures Provisions(Merge3(defaults, overlay, layer), appValuesKey, o, r)
  {
    hide Lookup, Describes, TrimSpace, Merge3;
    forall path: Path | Lookup(layer, path).Some? && !Lookup(layer, path).value.Map?
      ensures Lookup(Merge3(defaults, overlay, layer), path) == Lookup(layer, path)
    {
      PlatformLeafWins(defaults, overlay, layer, path);
    }
  }

  // Whatever the chart ships and the caller overlays, the composed chart holds
  // one database, named by the application id, and the application binds to
  // that same name.
  lemma {:induction false} OneDatabaseOneName(o: Origin, appValuesKey: string, defaults: Tree, overlay: Tree)
    requires ValidOrigin(o) && o.resources != []
    requires appValuesKey != "" && appValuesKey != "sqldatabase"
    ensures PlatformValues(o, appValuesKey).Ok?
    ensures
      var layer := PlatformValues(o, appValuesKey).value;
      Provisions(Merge3(defaults, overlay, layer), appValuesKey, o, o.resources[0])
    ensures o.resources[0].databaseName == TrimSpace(o.applicationID) + "-db"
  {
    hide NewResource, TrimSpace, SqlBlock, Bind, SqlEntry, Provisions, PlatformValues;
    LayerOfOne(o, appValuesKey);
    RederivesItself(o.applicationID, ToSpec(o.resources[0]));
    var layer := PlatformValues(o, appValuesKey).value;
    LayerProvisions(o, appValuesKey, layer, o.resources[0]);
    ProvisionsStand(defaults, overlay, layer, appValuesKey, o, o.resources[0]);
  }

  // The two top-level keys collide when the application subchart itself is
  // called like the SQL block: then the bind replaces the block. So the promise
  // holds for every chart and overlay exactly when the names differ.
  lemma {:induction false} OneDatabaseIff(o: Origin, appValuesKey: string)
    requires ValidOrigin(o) && o.resources != [] && appValuesKey != ""
    ensures
      var layer := PlatformValues(o, appValuesKey).value;
      (forall defaults: Tree, overlay: Tree ::
         Provisions(Merge3(defaults, overlay, layer), appValuesKey, o, o.resources[0]))
      <==> appValuesKey != "sqldatabase"
  {
    hide NewResource;
    LayerOfOne(o, appValuesKey);
    var layer := PlatformValues(o, appValuesKey).value;
    if appValuesKey != SQL_BLOCK {
      forall defaults: Tree, overlay: Tree
        ensures Provisions(Merge3(defaults, overlay, layer), appValuesKey, o, o.resources[0])
      {
        OneDatabaseOneName(o, appValuesKey, defaults, overlay);
      }
    } else {
      var empty: Tree := map[];
      assert layer == map[SQL_BLOCK := Bind(o.resources[0].name)];
      MergeIdentity(empty);
      MergeIdentity(layer);
      assert Merge3(empty, empty, layer) == layer;
      assert SQL_PATH[1..] == ["databases", "sql"];
      assert Find(Bind(o.resources[0].name), ["databases", "sql"]) == None;
      assert Lookup(layer, SQL_PATH) == None;
      assert !Provisions(Merge3(empty, empty, layer), appValuesKey, o, o.resources[0]);
    }
  }

  // Neither above nor below a block of the platform.
  predicate Apart(path: Path, appValuesKey: string) {
    && path != [] && path[0] != "sqldatabase"
    && (path[0] == appValuesKey ==>
          |path| > 1 && (path[1] == "postgres" ==> |path| > 2 && path[2] != "bindBuildingBlock"))
  }

  // The layer changes nothing outside its blocks.
  lemma {:induction false} LayerLeavesRest(o: Origin, appValuesKey: string, low: Tree, path: Path)
    requires PlatformValues(o, appValuesKey).Ok? && Apart(path, appValuesKey)
    ensures Lookup(Merge(low, PlatformValues(o, appValuesKey).value), path) == Lookup(low, path)
  {
    var layer := PlatformValues(o, appValuesKey).value;
    hide SqlBlock, SqlEntries, Bind;
    FindMerged(Map(low), Map(layer), path);
    if path[0] == appValuesKey && appValuesKey in layer {
      var r := FirstPostgres(o.resources).value;
      assert layer[appValuesKey] == Bind(r.name);
      BindLeavesRest(r.name, path[1..]);
    }
  }

  lemma {:induction false} BindLeavesRest(instance: string, path: Path)
    requires path != [] && (path[0] == "postgres" ==> |path| > 1 && path[1] != "bindBuildingBlock")
    ensures Find(Bind(instance), path).None? && !Cut(Bind(instance), path)
  {
    if path[0] == "postgres" {
      assert path[1..][0] == path[1];
    }
  }
}
