/** The value paths the platform owns outright, and what refusing overlays that
    reach them guarantees of the merged chart
    (internal/application/deployment/resources.go). */
module Reserved {
  import opened Wrappers
  import opened Text
  import opened Values
  import opened PlatformLayer

  function BindBlock(key: string): Path {
    [key, "postgres", "bindBuildingBlock"]
  }

  // The overlay sets the SQL block, or the bind block of any subchart.
  predicate TouchesReserved(overlay: Tree) {
    || SQL_BLOCK in overlay
    || exists k :: k in overlay && Lookup(overlay, BindBlock(k)).Some?
  }

  // The loop over segments finds exactly the paths a lookup finds.
  method ValuesHavePath(values: Tree, segments: Path) returns (has: bool)
    ensures has <==> segments != [] && Lookup(values, segments).Some?
  {
    var cur := values;
    for i := 0 to |segments|
      invariant Lookup(values, segments) == Find(Map(cur), segments[i..])
      invariant i < |segments| || segments == []
    {
      var seg := segments[i];
      assert segments[i..][0] == seg && segments[i..][1..] == segments[i + 1..];
      if seg !in cur {
        return false;
      }
      if i == |segments| - 1 {
        return true;
      }
      if !cur[seg].Map? {
        return false;
      }
      cur := cur[seg].entries;
    }
    return false;
  }

  // What is reported along an order of the top-level keys.
  function HitsAlong(overlay: Tree, keys: seq<string>): seq<string> {
    if keys == [] then if SQL_BLOCK in overlay then [SQL_BLOCK] else []
    else
      var k := keys[|keys| - 1];
      HitsAlong(overlay, keys[..|keys| - 1]) +
      if k != SQL_BLOCK && Lookup(overlay, BindBlock(k)).Some? then [k + ".postgres.bindBuildingBlock"] else []
  }

  ghost predicate SortedKeys(overlay: Tree, keys: seq<string>) {
    Sorted(keys) && multiset(keys) == multiset(overlay.Keys)
  }

  method SortedSubcharts(overlay: Tree) returns (keys: seq<string>)
    ensures SortedKeys(overlay, keys)
  {
    keys := [];
    var rest := overlay.Keys;
    while rest != {}
      invariant rest <= overlay.Keys && multiset(keys) == multiset(overlay.Keys - rest)
      decreases rest
    {
      var k :| k in rest;
      assert overlay.Keys - (rest - {k}) == (overlay.Keys - rest) + {k};
      keys, rest := keys + [k], rest - {k};
    }
    assert overlay.Keys - rest == overlay.Keys;
    keys := SortStrings(keys);
  }

  lemma {:induction false} HitsIffTouches(overlay: Tree, keys: seq<string>)
    requires multiset(keys) == multiset(overlay.Keys)
    ensures HitsAlong(overlay, keys) == [] <==> !TouchesReserved(overlay)
  {
    NoHits(overlay, keys);
    forall k
      ensures k in overlay <==> k in keys
    {
      assert k in multiset(keys) <==> k in multiset(overlay.Keys);
    }
  }

  lemma {:induction false} NoHits(overlay: Tree, keys: seq<string>)
    ensures HitsAlong(overlay, keys) == [] <==>
      (SQL_BLOCK !in overlay && forall k :: k in keys ==> k == SQL_BLOCK || Lookup(overlay, BindBlock(k)).None?)
  {
    if keys != [] {
      NoHits(overlay, keys[..|keys| - 1]);
    }
  }

  // The report follows the sorted keys, whatever order the map is iterated in,
  // and is empty exactly when the overlay touches nothing reserved.
  method ReservedValueOverrides(overlay: Tree) returns (hit: seq<string>)
    ensures exists keys :: SortedKeys(overlay, keys) && hit == HitsAlong(overlay, keys)
    ensures hit == [] <==> !TouchesReserved(overlay)
  {
    hit := [];
    var whole := ValuesHavePath(overlay, [SQL_BLOCK]);
    FindSingle(Map(overlay), SQL_BLOCK);
    if whole {
      hit := hit + [SQL_BLOCK];
    }
    var subcharts := SortedSubcharts(overlay);
    for i := 0 to |subcharts|
      invariant hit == HitsAlong(overlay, subcharts[..i])
    {
      var key := subcharts[i];
      assert subcharts[..i + 1][..i] == subcharts[..i];
      if key == SQL_BLOCK {
        continue;
      }
      var bound := ValuesHavePath(overlay, BindBlock(key));
      if bound {
        hit := hit + [key + ".postgres.bindBuildingBlock"];
      }
    }
    assert subcharts[..|subcharts|] == subcharts;
    HitsIffTouches(overlay, subcharts);
  }

  // So two calls on one overlay report the same.
  lemma {:induction false} ReportIsStable(overlay: Tree, keys1: seq<string>, keys2: seq<string>)
    requires SortedKeys(overlay, keys1) && SortedKeys(overlay, keys2)
    ensures HitsAlong(overlay, keys1) == HitsAlong(overlay, keys2)
  {
    OneArrangement(keys1, keys2);
  }

  // --- What the refusal guarantees ---

  // At or below a path the platform owns.
  predicate IsReserved(path: Path) {
    || (|path| >= 1 && path[0] == "sqldatabase")
    || (|path| >= 3 && path[1] == "postgres" && path[2] == "bindBuildingBlock")
  }

  // No chart lets the overlay put a value of its own at a reserved path: the
  // chart's value stays there, or nothing does.
  ghost predicate NeverSets(overlay: Tree) {
    forall defaults: Tree, path: Path :: IsReserved(path) ==>
      var merged := Lookup(Merge3(defaults, overlay, map[]), path);
      merged == None || merged == Lookup(defaults, path)
  }

  lemma {:induction false} FindBelow(v: Value, path: Path, n: nat)
    requires n <= |path| && Find(v, path[..n]).None?
    ensures Find(v, path).None?
    decreases path
  {
    if n > 0 && v.Map? && path[0] in v.entries {
      assert path[..n][1..] == path[1..][..n - 1];
      FindBelow(v.entries[path[0]], path[1..], n - 1);
    }
  }

  // An accepted overlay leaves the SQL block as the chart has it, and leaves
  // every path of every bind block so too, except where a non-map of the
  // overlay above the block erases it.
  lemma {:induction false} AcceptedLeavesReserved(defaults: Tree, overlay: Tree, path: Path)
    requires !TouchesReserved(overlay) && IsReserved(path)
    ensures Lookup(Merge3(defaults, overlay, map[]), path) ==
      if Cut(Map(overlay), path) then None else Lookup(defaults, path)
    ensures path[0] == "sqldatabase" ==> !Cut(Map(overlay), path)
  {
    MergeIdentity(Merge(defaults, overlay));
    FindMerged(Map(defaults), Map(overlay), path);
    var n := if path[0] == SQL_BLOCK then 1 else 3;
    if path[0] == SQL_BLOCK {
      assert path[..1] == [SQL_BLOCK];
    } else {
      assert path[..3] == BindBlock(path[0]);
    }
    FindBelow(Map(overlay), path, n);
  }

  // Under any platform layer the overlay has no say at a reserved path: what is
  // composed there is what the chart and the layer give without it, or the
  // layer alone where a non-map of the overlay erased the chart's default.
  lemma {:induction false} ReservedIsPlatforms(defaults: Tree, overlay: Tree, layer: Tree, path: Path)
    requires !TouchesReserved(overlay) && IsReserved(path)
    ensures Lookup(Merge3(defaults, overlay, layer), path) ==
      Lookup(if Cut(Map(overlay), path) then layer else Merge(defaults, layer), path)
    ensures path[0] == "sqldatabase" ==> !Cut(Map(overlay), path)
  {
    AcceptedLeavesReserved(defaults, overlay, path);
    MergeIdentity(Merge(defaults, overlay));
    FindMerged(Map(Merge(defaults, overlay)), Map(layer), path);
    FindMerged(Map(defaults), Map(layer), path);
  }

  // The check accepts exactly the overlays that can never set a reserved path.
  lemma {:induction false} AcceptsIffNeverSets(overlay: Tree)
    ensures !TouchesReserved(overlay) <==> NeverSets(overlay)
  {
    if !TouchesReserved(overlay) {
      forall defaults: Tree, path: Path | IsReserved(path)
        ensures
          var merged := Lookup(Merge3(defaults, overlay, map[]), path);
          merged == None || merged == Lookup(defaults, path)
      {
        AcceptedLeavesReserved(defaults, overlay, path);
      }
    } else {
      var empty: Tree := map[];
      MergeIdentity(overlay);
      assert Merge3(empty, overlay, map[]) == overlay;
      if SQL_BLOCK in overlay {
        FindSingle(Map(overlay), SQL_BLOCK);
        FindSingle(Map(empty), SQL_BLOCK);
        assert IsReserved([SQL_BLOCK]);
      } else {
        var k :| k in overlay && Lookup(overlay, BindBlock(k)).Some?;
        assert IsReserved(BindBlock(k)) && Lookup(empty, BindBlock(k)).None?;
      }
      assert !NeverSets(overlay);
    }
  }
}
