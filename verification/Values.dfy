/** Helm values trees, the meaning of the composer's merge on them, and the laws
    of that merge (internal/adapter/outbound/oci/composer.go). */
module Values {
  import opened Wrappers

  datatype Scalar = Null | Bool(b: bool) | Int(n: int) | Real(r: real) | Str(s: string)
  datatype Value = Leaf(scalar: Scalar) | List(items: seq<Value>) | Map(entries: Tree)

  // A nil Go map reads as an empty one, so both are map[] here.
  type Tree = map<string, Value>
  type Path = seq<string>

  // The value a merge leaves where both trees have one.
  function MergeValue(low: Value, high: Value): Value
    decreases high
  {
    if low.Map? && high.Map? then
      Map(map k | k in low.entries.Keys + high.entries.Keys ::
            if k !in high.entries then low.entries[k]
            else if k !in low.entries then high.entries[k]
            else MergeValue(low.entries[k], high.entries[k]))
    else high
  }

  function Merge(low: Tree, high: Tree): Tree {
    MergeValue(Map(low), Map(high)).entries
  }

  // Chart defaults, then the user's overlay, then the platform's values.
  function Merge3(defaults: Tree, overlay: Tree, platform: Tree): Tree {
    Merge(Merge(defaults, overlay), platform)
  }

  function Find(v: Value, path: Path): Option<Value> {
    if path == [] then Some(v)
    else if v.Map? && path[0] in v.entries then Find(v.entries[path[0]], path[1..])
    else None
  }

  function Lookup(t: Tree, path: Path): Option<Value> {
    Find(Map(t), path)
  }

  lemma FindKey(v: Value, k: string, rest: Path)
    requires v.Map? && k in v.entries
    ensures Find(v, [k] + rest) == Find(v.entries[k], rest)
  {
    assert ([k] + rest)[1..] == rest;
  }

  lemma FindSingle(v: Value, k: string)
    requires v.Map?
    ensures Find(v, [k]) == if k in v.entries then Some(v.entries[k]) else None
  {
    assert [k][1..] == [];
  }

  // A non-map of v sits strictly above path and cuts off everything there.
  predicate Cut(v: Value, path: Path) {
    path != [] && (if v.Map? then path[0] in v.entries && Cut(v.entries[path[0]], path[1..]) else true)
  }

  // --- The path law ---

  // What stands at a path: nothing, a map, or a value that ends the path.
  datatype Shape = Absent | Inner | End(value: Value)

  function ShapeAt(v: Value, path: Path): Shape {
    match Find(v, path)
    case None => Absent
    case Some(x) => if x.Map? then Inner else End(x)
  }

  // What the merge must have at a path, told from the two trees alone: what the
  // high tree has, and otherwise what the low tree has, except below a non-map
  // of the high tree.
  function MergedShape(low: Value, high: Value, path: Path): Shape {
    if ShapeAt(high, path) != Absent then ShapeAt(high, path)
    else if Cut(high, path) then Absent
    else ShapeAt(low, path)
  }

  ghost predicate ObeysPathLaw(low: Value, high: Value, merged: Value) {
    forall path :: ShapeAt(merged, path) == MergedShape(low, high, path)
  }

  lemma {:induction false} PathLaw(low: Value, high: Value, path: Path)
    ensures ShapeAt(MergeValue(low, high), path) == MergedShape(low, high, path)
  {
    FindMerged(low, high, path);
  }

  // Trees with the same shape at every path are equal.
  lemma {:induction false} ShapesDetermine(a: Value, b: Value)
    requires forall path :: ShapeAt(a, path) == ShapeAt(b, path)
    ensures a == b
    decreases a
  {
    assert ShapeAt(a, []) == ShapeAt(b, []);
    if a.Map? {
      forall k
        ensures k in a.entries <==> k in b.entries
        ensures k in a.entries ==> a.entries[k] == b.entries[k]
      {
        assert ShapeAt(a, [k]) == ShapeAt(b, [k]);
        FindSingle(a, k);
        FindSingle(b, k);
        if k in a.entries {
          forall path
            ensures ShapeAt(a.entries[k], path) == ShapeAt(b.entries[k], path)
          {
            FindKey(a, k, path);
            FindKey(b, k, path);
            assert ShapeAt(a, [k] + path) == ShapeAt(b, [k] + path);
          }
          ShapesDetermine(a.entries[k], b.entries[k]);
        }
      }
    }
  }

  // The merge is the one tree that obeys the path law.
  lemma {:induction false} MergeIffPathLaw(low: Value, high: Value, merged: Value)
    ensures merged == MergeValue(low, high) <==> ObeysPathLaw(low, high, merged)
  {
    forall path
      ensures ShapeAt(MergeValue(low, high), path) == MergedShape(low, high, path)
    {
      PathLaw(low, high, path);
    }
    if ObeysPathLaw(low, high, merged) {
      ShapesDetermine(merged, MergeValue(low, high));
    }
  }

  // The whole value at a path of the merge, in terms of the merge below it.
  lemma {:induction false} FindMerged(low: Value, high: Value, path: Path)
    ensures Find(MergeValue(low, high), path) ==
      match Find(high, path)
      case Some(h) => (match Find(low, path) case Some(l) => Some(MergeValue(l, h)) case None => Some(h))
      case None => if Cut(high, path) then None else Find(low, path)
    decreases path
  {
    if path != [] && low.Map? && high.Map? {
      var k := path[0];
      if k in low.entries && k in high.entries {
        FindMerged(low.entries[k], high.entries[k], path[1..]);
      }
    }
  }

  // A non-map of the top layer appears unchanged in the three-layer result.
  lemma PlatformLeafWins(defaults: Tree, overlay: Tree, platform: Tree, path: Path)
    requires Lookup(platform, path).Some? && !Lookup(platform, path).value.Map?
    ensures Lookup(Merge3(defaults, overlay, platform), path) == Lookup(platform, path)
  {
    FindMerged(Map(Merge(defaults, overlay)), Map(platform), path);
  }

  // --- Algebra ---

  lemma {:induction false} MergeIdentity(t: Tree)
    ensures Merge(map[], t) == t
    ensures Merge(t, map[]) == t
  {
  }

  lemma {:induction false} MergeIdempotent(v: Value)
    ensures MergeValue(v, v) == v
    decreases v
  {
    if v.Map? {
      forall k | k in v.entries
        ensures MergeValue(v.entries[k], v.entries[k]) == v.entries[k]
      {
        MergeIdempotent(v.entries[k]);
      }
    }
  }

  // Composing an already composed chart again with the same layer changes nothing.
  lemma {:induction false} MergeAbsorbs(low: Value, high: Value)
    ensures MergeValue(MergeValue(low, high), high) == MergeValue(low, high)
    decreases high
  {
    if low.Map? && high.Map? {
      forall k | k in high.entries
        ensures k in low.entries ==> MergeValue(MergeValue(low.entries[k], high.entries[k]), high.entries[k])
                                     == MergeValue(low.entries[k], high.entries[k])
        ensures MergeValue(high.entries[k], high.entries[k]) == high.entries[k]
      {
        if k in low.entries {
          MergeAbsorbs(low.entries[k], high.entries[k]);
        }
        MergeIdempotent(high.entries[k]);
      }
    } else {
      MergeIdempotent(high);
    }
  }

  // Every key of a is a key of c, at each level where both hold maps.
  ghost predicate Covers(a: Value, c: Value)
    decreases c
  {
    a.Map? && c.Map? ==>
      forall k :: k in a.entries ==> k in c.entries && Covers(a.entries[k], c.entries[k])
  }

  lemma {:induction false} CoversIffAbsorbed(a: Value, c: Value)
    ensures MergeValue(a, c) == c <==> Covers(a, c)
    decreases c
  {
    if a.Map? && c.Map? {
      var m := MergeValue(a, c).entries;
      forall k | k in a.entries && k in c.entries
        ensures MergeValue(a.entries[k], c.entries[k]) == c.entries[k] <==> Covers(a.entries[k], c.entries[k])
      {
        CoversIffAbsorbed(a.entries[k], c.entries[k]);
      }
      if m == c.entries {
        forall k | k in a.entries
          ensures k in c.entries && Covers(a.entries[k], c.entries[k])
        {
          assert k in m;
          assert m[k] == MergeValue(a.entries[k], c.entries[k]);
        }
      }
      if Covers(a, c) {
        assert m.Keys == c.entries.Keys;
        assert m == c.entries;
      }
    }
  }

  // Wherever a non-map of b stands between a map of a and a map of c, the map of
  // c covers the one of a.
  ghost predicate NothingResurfaces(a: Value, b: Value, c: Value)
    decreases c
  {
    a.Map? && c.Map? ==>
      if b.Map? then
        forall k :: k in a.entries && k in b.entries && k in c.entries ==>
          NothingResurfaces(a.entries[k], b.entries[k], c.entries[k])
      else Covers(a, c)
  }

  // The merge is not associative. It is on exactly the triples where a non-map
  // of the middle tree does not let something of the first resurface.
  lemma {:induction false} AssociativeIff(a: Value, b: Value, c: Value)
    ensures MergeValue(MergeValue(a, b), c) == MergeValue(a, MergeValue(b, c)) <==> NothingResurfaces(a, b, c)
    decreases c
  {
    if a.Map? && c.Map? {
      if b.Map? {
        var l := MergeValue(MergeValue(a, b), c).entries;
        var r := MergeValue(a, MergeValue(b, c)).entries;
        assert l.Keys == r.Keys;
        forall k | k in l
          ensures l[k] == r[k] <==>
                  (k in a.entries && k in b.entries && k in c.entries ==>
                     NothingResurfaces(a.entries[k], b.entries[k], c.entries[k]))
        {
          if k in a.entries && k in b.entries && k in c.entries {
            AssociativeIff(a.entries[k], b.entries[k], c.entries[k]);
          }
        }
        if l == r {
          assert forall k :: k in l ==> l[k] == r[k];
        }
        if NothingResurfaces(a, b, c) {
          assert forall k :: k in l ==> l[k] == r[k];
        }
      } else {
        CoversIffAbsorbed(a, c);
      }
    }
  }

  // A triple the merge does not associate on.
  lemma NotAssociative()
    ensures
      var a: Tree := map["x" := Map(map["default" := Leaf(Null)])];
      var b: Tree := map["x" := Leaf(Null)];
      var c: Tree := map["x" := Map(map[])];
      Merge(Merge(a, b), c) != Merge(a, Merge(b, c))
  {
    var a: Tree := map["x" := Map(map["default" := Leaf(Null)])];
    var b: Tree := map["x" := Leaf(Null)];
    var c: Tree := map["x" := Map(map[])];
    assert Merge(b, c)["x"] == c["x"];
    assert "default" in Merge(a, Merge(b, c))["x"].entries;
    assert Merge(Merge(a, b), c)["x"] == c["x"];
  }
}
