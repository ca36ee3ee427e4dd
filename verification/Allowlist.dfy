/** The tunable allowlist: which value paths an overlay may set, judged on
    dotted strings, and what that judgement says about the merged chart
    (internal/adapter/outbound/policy/allowlist.go). */
module Allowlist {
  import opened Wrappers
  import opened Text
  import opened Values

  datatype Allowlist = Allowlist(enforce: bool, defaultKeys: seq<string>, envKeys: map<string, seq<string>>)
  datatype Decision = Decision(reject: bool, violations: seq<string>)

  function KeysFor(a: Allowlist, environment: string): seq<string> {
    if environment in a.envKeys then a.envKeys[environment] else a.defaultKeys
  }

  predicate NonEmpty(keys: seq<string>) {
    forall i :: 0 <= i < |keys| ==> keys[i] != ""
  }

  // What cleanKeys leaves of a configured key list: non-empty entries without
  // space around them.
  predicate Clean(keys: seq<string>) {
    forall i :: 0 <= i < |keys| ==> keys[i] != "" && !IsSpace(keys[i][0]) && !IsSpace(keys[i][|keys[i]| - 1])
  }

  method CleanKeys(keys: seq<string>) returns (out: seq<string>)
    ensures Clean(out)
    ensures forall e :: e in out <==> e != "" && exists i :: 0 <= i < |keys| && e == TrimSpace(keys[i])
  {
    out := [];
    for i := 0 to |keys|
      invariant Clean(out)
      invariant forall e :: e in out <==> e != "" && exists j :: 0 <= j < i && e == TrimSpace(keys[j])
    {
      var k := TrimSpace(keys[i]);
      if k != "" {
        out := out + [k];
      }
    }
  }

  predicate Covered(allowed: seq<string>, leaf: string) {
    exists i :: 0 <= i < |allowed| && DotExtends(leaf, allowed[i])
  }

  // A path as flattenKeys writes it: the dot is left out while the prefix is
  // still empty, so leading empty segments vanish.
  function Written(path: Path): string {
    if path == [] then ""
    else
      var prefix, k := Written(path[..|path| - 1]), path[|path| - 1];
      if prefix == "" then k else prefix + "." + k
  }

  // Whether walking v below base reports its descendant at path: a non-map, or
  // an empty map whose written prefix is not empty.
  predicate Reports(base: Path, v: Value, path: Path) {
    match Find(v, path)
    case None => false
    case Some(x) => !x.Map? || (x.entries == map[] && Written(base + path) != "")
  }

  predicate Reported(overlay: Tree, path: Path) {
    Reports([], Map(overlay), path)
  }

  ghost predicate Distinct(paths: seq<Path>) {
    forall i, j :: 0 <= i < j < |paths| ==> paths[i] != paths[j]
  }

  // out lists the written forms of paths, each below base, in the same order.
  ghost predicate Writes(out: seq<string>, base: Path, paths: seq<Path>) {
    |out| == |paths| && forall i :: 0 <= i < |out| ==> out[i] == Written(base + paths[i])
  }

  function Under(k: string, paths: seq<Path>): (r: seq<Path>)
    ensures |r| == |paths| && forall i :: 0 <= i < |r| ==> r[i] == [k] + paths[i]
  {
    seq(|paths|, i requires 0 <= i < |paths| => [k] + paths[i])
  }

  // paths are the reported descendants of the map m through the keys of done.
  ghost predicate Collected(base: Path, m: Tree, done: set<string>, paths: seq<Path>) {
    && Distinct(paths)
    && forall p :: p in paths <==> p != [] && p[0] in done && Reports(base, Map(m), p)
  }

  lemma {:induction false} UnderReports(base: Path, m: Tree, k: string, below: seq<Path>)
    requires k in m
    requires forall q :: q in below <==> Reports(base + [k], m[k], q)
    ensures forall p :: p in Under(k, below) <==> p != [] && p[0] == k && Reports(base, Map(m), p)
  {
    var mine := Under(k, below);
    forall p
      ensures p in mine <==> p != [] && p[0] == k && Reports(base, Map(m), p)
    {
      if p != [] && p[0] == k {
        assert p == [k] + p[1..] && base + p == base + [k] + p[1..];
        if p[1..] in below {
          var i :| 0 <= i < |below| && below[i] == p[1..];
          assert mine[i] == p;
        }
      }
    }
  }

  // One turn of the walk: the reports below one more key join those found.
  lemma {:induction false} WalkTurn(base: Path, m: Tree, done: set<string>, k: string, paths: seq<Path>,
                                    below: seq<Path>)
    requires k in m && k !in done && Collected(base, m, done, paths) && Distinct(below)
    requires forall q :: q in below <==> Reports(base + [k], m[k], q)
    ensures Collected(base, m, done + {k}, paths + Under(k, below))
  {
    var mine := Under(k, below);
    UnderReports(base, m, k, below);
    forall i, j | 0 <= i < |paths| && 0 <= j < |mine|
      ensures paths[i] != mine[j]
    {
      assert paths[i] in paths && mine[j] in mine;
    }
    forall i, j | 0 <= i < j < |mine|
      ensures mine[i] != mine[j]
    {
      assert mine[i][1..] == below[i] && mine[j][1..] == below[j];
    }
  }

  lemma {:induction false} WritesUnder(out: seq<string>, found: seq<string>, base: Path, k: string,
                                       paths: seq<Path>, below: seq<Path>)
    requires Writes(out, base, paths) && Writes(found, base + [k], below)
    ensures Writes(out + found, base, paths + Under(k, below))
  {
    forall i | 0 <= i < |found|
      ensures found[i] == Written(base + Under(k, below)[i])
    {
      assert base + Under(k, below)[i] == base + [k] + below[i];
    }
  }

  lemma LeafReportsItself(base: Path, v: Value)
    requires !v.Map?
    ensures Distinct([[]]) && Writes([Written(base)], base, [[]]) && forall q :: q in [[]] <==> Reports(base, v, q)
  {
    assert base + [] == base;
  }

  // The recursive closure of flattenKeys, for the map m reached along base.
  method Walk(prefix: string, m: Tree, ghost base: Path) returns (out: seq<string>, ghost paths: seq<Path>)
    requires prefix == Written(base)
    ensures Distinct(paths) && Writes(out, base, paths)
    ensures forall p :: p in paths <==> Reports(base, Map(m), p)
    decreases Map(m)
  {
    assert base + [] == base;
    if m == map[] && prefix != "" {
      out, paths := [prefix], [[]];
      return;
    }
    out, paths := [], [];
    var rest := m.Keys;
    while rest != {}
      invariant rest <= m.Keys
      invariant Writes(out, base, paths) && Collected(base, m, m.Keys - rest, paths)
      decreases rest
    {
      hide Collected, Find, Writes, Distinct, Reports;
      var k :| k in rest;
      assert (base + [k])[..|base|] == base;
      var path := if prefix != "" then prefix + "." + k else k;
      var found: seq<string>;
      ghost var below: seq<Path>;
      if m[k].Map? {
        found, below := Walk(path, m[k].entries, base + [k]);
      } else {
        found, below := [path], [[]];
        LeafReportsItself(base + [k], m[k]);
      }
      WalkTurn(base, m, m.Keys - rest, k, paths, below);
      WritesUnder(out, found, base, k, paths, below);
      assert m.Keys - rest + {k} == m.Keys - (rest - {k});
      out, paths, rest := out + found, paths + Under(k, below), rest - {k};
    }
  }

  // out lists the written form of every reported leaf, each leaf once.
  ghost predicate Flattens(out: seq<string>, overlay: Tree, paths: seq<Path>) {
    && Distinct(paths) && Writes(out, [], paths)
    && forall p :: p in paths <==> Reported(overlay, p)
  }

  method FlattenKeys(overlay: Tree) returns (out: seq<string>)
    ensures exists paths :: Flattens(out, overlay, paths)
  {
    ghost var paths;
    out, paths := Walk("", overlay, []);
    assert Flattens(out, overlay, paths);
  }

  // The violations are the written forms of the uncovered leaves, each leaf
  // once, sorted; the overlay is refused exactly when the allowlist enforces
  // and there is one.
  ghost predicate Verdict(a: Allowlist, overlay: Tree, environment: string, d: Decision, bad: seq<Path>) {
    && Distinct(bad)
    && var allowed := if environment in a.envKeys then a.envKeys[environment] else a.defaultKeys;
    && (forall p :: p in bad <==> Reported(overlay, p) && !Covered(allowed, Written(p)))
    && multiset(d.violations) == multiset(seq(|bad|, i requires 0 <= i < |bad| => Written(bad[i])))
    && Sorted(d.violations)
    && (d.reject <==> a.enforce && bad != [])
  }

  method Validate(a: Allowlist, overlay: Tree, environment: string) returns (d: Decision)
    ensures exists bad :: Verdict(a, overlay, environment, d, bad)
  {
    var allowed := KeysFor(a, environment);
    var leaves := FlattenKeys(overlay);
    ghost var paths :| Flattens(leaves, overlay, paths);
    var violations: seq<string> := [];
    ghost var bad: seq<Path> := [];
    for i := 0 to |leaves|
      invariant Distinct(bad) && Writes(violations, [], bad)
      invariant forall p :: p in bad <==> p in paths[..i] && !Covered(allowed, Written(p))
    {
      assert [] + paths[i] == paths[i];
      assert paths[..i + 1] == paths[..i] + [paths[i]];
      if !Covered(allowed, leaves[i]) {
        assert paths[i] !in paths[..i];
        violations, bad := violations + [leaves[i]], bad + [paths[i]];
      }
    }
    assert paths[..|leaves|] == paths;
    forall i | 0 <= i < |bad|
      ensures violations[i] == Written(bad[i])
    {
      assert [] + bad[i] == bad[i];
    }
    assert violations == seq(|bad|, i requires 0 <= i < |bad| => Written(bad[i]));
    assert |violations| == |multiset(violations)|;
    violations := SortStrings(violations);
    assert |violations| == |multiset(violations)|;
    d := Decision(a.enforce && |violations| > 0, violations);
    assert Verdict(a, overlay, environment, d, bad);
  }

  // --- What the judgement bounds ---

  ghost predicate NoViolations(overlay: Tree, allowed: seq<string>) {
    forall p :: Reported(overlay, p) ==> Covered(allowed, Written(p))
  }

  // s is neither a dot-prefix nor a dot-extension of any allowed entry.
  ghost predicate Unrelated(s: string, allowed: seq<string>) {
    forall i :: 0 <= i < |allowed| ==> !DotExtends(s, allowed[i]) && !DotExtends(allowed[i], s)
  }

  lemma {:induction false} WrittenIsDotted(path: Path)
    requires path != [] && path[0] != ""
    ensures Written(path) == Dotted(path) != ""
  {
    if |path| > 1 {
      WrittenIsDotted(path[..|path| - 1]);
    }
  }

  // Every value has a leaf: a non-map or an empty map at or below it.
  lemma {:induction false} LeafBeneath(v: Value) returns (path: Path)
    ensures Find(v, path).Some? && (!Find(v, path).value.Map? || Find(v, path).value.entries == map[])
    decreases v
  {
    path := [];
    if v.Map? && v.entries != map[] {
      var k :| k in v.entries;
      var q := LeafBeneath(v.entries[k]);
      path := [k] + q;
    }
  }

  lemma {:induction false} FindAppend(v: Value, p: Path, q: Path)
    requires Find(v, p).Some?
    ensures Find(v, p + q) == Find(Find(v, p).value, q)
  {
    if p == [] {
      assert p + q == q;
    } else {
      assert (p + q)[1..] == p[1..] + q;
      FindAppend(v.entries[p[0]], p[1..], q);
    }
  }

  // What cuts a path off is a non-map at one of its proper prefixes.
  lemma {:induction false} CutAt(v: Value, path: Path) returns (n: nat)
    requires Cut(v, path)
    ensures n < |path| && Find(v, path[..n]).Some? && !Find(v, path[..n]).value.Map?
    decreases path
  {
    if !v.Map? {
      n := 0;
    } else {
      var m := CutAt(v.entries[path[0]], path[1..]);
      n := m + 1;
      assert path[..n][1..] == path[1..][..m];
    }
  }

  // The overlay has something at the path, or a non-map above it.
  predicate Touches(overlay: Tree, path: Path) {
    Find(Map(overlay), path).Some? || Cut(Map(overlay), path)
  }

  lemma UntouchedStays(defaults: Tree, overlay: Tree, path: Path)
    requires !Touches(overlay, path)
    ensures Lookup(Merge(defaults, overlay), path) == Lookup(defaults, path)
  {
    FindMerged(Map(defaults), Map(overlay), path);
  }

  // What flattenKeys writes of a path is a prefix of what it writes below it.
  lemma {:induction false} WrittenPrefix(path: Path, n: nat)
    requires n <= |path|
    ensures Written(path[..n]) <= Written(path)
  {
    if n < |path| {
      var front := path[..|path| - 1];
      assert front[..n] == path[..n];
      WrittenPrefix(front, n);
    } else {
      assert path[..n] == path;
    }
  }

  // An overlay that touches a path is reported there: below it, or above it.
  lemma {:induction false} TouchIsReported(overlay: Tree, path: Path) returns (leaf: Path)
    requires Touches(overlay, path) && Written(path) != ""
    ensures Reported(overlay, leaf) && (path <= leaf || ([] < leaf < path))
  {
    var o := Map(overlay);
    if Find(o, path).Some? {
      var q := LeafBeneath(Find(o, path).value);
      leaf := path + q;
      FindAppend(o, path, q);
      assert leaf[..|path|] == path && [] + leaf == leaf;
      WrittenPrefix(leaf, |path|);
    } else {
      var n := CutAt(o, path);
      leaf := path[..n];
      assert [] + leaf == leaf;
    }
  }

  // An entry that covers such a leaf is related to the path.
  lemma {:induction false} LeafIsRelated(path: Path, leaf: Path, entry: string)
    requires path != [] && path[0] != "" && (path <= leaf || ([] < leaf < path))
    requires DotExtends(Written(leaf), entry)
    ensures DotExtends(Dotted(path), entry) || DotExtends(entry, Dotted(path))
  {
    WrittenIsDotted(leaf);
    if leaf < path {
      assert path[..|leaf|] == leaf;
      DottedPrefix(path, |leaf|);
      DotExtendsTransitive(Dotted(path), Dotted(leaf), entry);
    } else {
      if |path| < |leaf| {
        assert leaf[..|path|] == path;
        DottedPrefix(leaf, |path|);
      } else {
        assert leaf == path;
      }
      DotPrefixesNest(Dotted(leaf), Dotted(path), entry);
    }
  }

  // The check on flattened strings bounds what the merge can change: an overlay
  // with no violation leaves every path unrelated to the allowed entries as the
  // chart had it, unless the path starts with an empty key.
  lemma {:induction false} OverlayIsBounded(defaults: Tree, overlay: Tree, allowed: seq<string>, path: Path)
    requires NoViolations(overlay, allowed)
    requires path != [] && path[0] != ""
    requires Unrelated(Dotted(path), allowed)
    ensures Lookup(Merge(defaults, overlay), path) == Lookup(defaults, path)
  {
    if Touches(overlay, path) {
      hide Touches, Reported, DotExtends, Written, Dotted;
      WrittenIsDotted(path);
      var leaf := TouchIsReported(overlay, path);
      var i :| 0 <= i < |allowed| && DotExtends(Written(leaf), allowed[i]);
      LeafIsRelated(path, leaf, allowed[i]);
      assert false;
    }
    UntouchedStays(defaults, overlay, path);
  }

  // So an overlay without an empty top-level key is bounded at every path.
  lemma {:induction false} OverlayIsBoundedEverywhere(defaults: Tree, overlay: Tree, allowed: seq<string>, path: Path)
    requires NoViolations(overlay, allowed) && "" !in overlay
    requires path != [] && Unrelated(Dotted(path), allowed)
    ensures Lookup(Merge(defaults, overlay), path) == Lookup(defaults, path)
  {
    if path[0] != "" {
      OverlayIsBounded(defaults, overlay, allowed, path);
    } else {
      FindMerged(Map(defaults), Map(overlay), path);
    }
  }

  // The other way round, an entry admits whatever is set at its path or beneath
  // it: an overlay all of whose leaves lie there has no violation.
  lemma {:induction false} EntriesAdmit(overlay: Tree, allowed: seq<string>)
    requires forall p :: Reported(overlay, p) ==> LiesBeneath(p, allowed)
    ensures NoViolations(overlay, allowed)
  {
    forall p | Reported(overlay, p)
      ensures Covered(allowed, Written(p))
    {
      var n, i :| 0 < n <= |p| && p[0] != "" && 0 <= i < |allowed| && allowed[i] == Dotted(p[..n]);
      WrittenIsDotted(p);
      if n < |p| {
        DottedPrefix(p, n);
      } else {
        assert p[..n] == p;
      }
      assert DotExtends(Written(p), allowed[i]);
    }
  }

  // An entry is the dotted form of the path or of one above it.
  ghost predicate LiesBeneath(p: Path, allowed: seq<string>) {
    p != [] && p[0] != "" && exists n, i :: 0 < n <= |p| && 0 <= i < |allowed| && allowed[i] == Dotted(p[..n])
  }

  // --- Where the bound stops ---

  // For every chart, overlay and admitted allowlist.
  ghost predicate Bounded(path: Path, admits: seq<string> -> bool) {
    forall defaults: Tree, overlay: Tree, allowed: seq<string> ::
      admits(allowed) && NoViolations(overlay, allowed) && Unrelated(Dotted(path), allowed) ==>
        Lookup(Merge(defaults, overlay), path) == Lookup(defaults, path)
  }

  // The value holding an empty map at path and nothing else.
  function Nest(path: Path): (v: Value)
    ensures v.Map?
  {
    if path == [] then Map(map[]) else Map(map[path[0] := Nest(path[1..])])
  }

  lemma {:induction false} NestHolds(path: Path, q: Path)
    ensures Find(Nest(path), path) == Some(Map(map[]))
    ensures Find(Nest(path), q).Some? && Find(Nest(path), q).value == Map(map[]) ==> q == path
    ensures Find(Nest(path), q).Some? ==> Find(Nest(path), q).value.Map?
    decreases path
  {
    if path != [] {
      if q != [] && q[0] == path[0] {
        NestHolds(path[1..], q[1..]);
        assert q == [q[0]] + q[1..] && path == [path[0]] + path[1..];
      } else {
        NestHolds(path[1..], []);
      }
    }
  }

  // A leading empty key costs the written form a dot.
  lemma {:induction false} WrittenIsShorter(path: Path)
    requires path != [] && path[0] == "" && Written(path) != ""
    ensures |Written(path)| < |Dotted(path)|
  {
    var front := path[..|path| - 1];
    if front != [] && Written(front) != "" {
      WrittenIsShorter(front);
    }
  }

  function Filler(n: nat): (s: string)
    ensures |s| == n && forall i :: 0 <= i < n ==> s[i] == 'x'
  {
    seq(n, _ => 'x')
  }

  // A leaf below path whose written form no dotted prefix relates to path.
  function StrayLeaf(path: Path): Path {
    path + [Filler(|Dotted(path)| + 1)]
  }

  lemma {:induction false} StrayIsUnrelated(path: Path)
    requires path != [] ==> path[0] == ""
    ensures
      var w := Written(StrayLeaf(path));
      && w != "" && w[|w| - 1] == 'x' && (w[0] == 'x' || (Written(path) != "" && w[0] == Written(path)[0]))
      && Unrelated(Dotted(path), [w])
  {
    var d, fill := Dotted(path), Filler(|Dotted(path)| + 1);
    var w := Written(StrayLeaf(path));
    assert StrayLeaf(path)[..|path|] == path;
    assert w == if Written(path) == "" then fill else Written(path) + "." + fill;
    if Written(path) != "" {
      WrittenIsShorter(path);
    }
    assert (d + ".")[|d|] == '.' != w[|d|];
  }

  // The overlay that holds nothing but the stray leaf is admitted by the
  // allowlist that lists it, and changes the path.
  lemma {:induction false} StrayBreaks(path: Path, admits: seq<string> -> bool)
    requires path != [] ==> path[0] == ""
    requires admits([Written(StrayLeaf(path))])
    ensures !Bounded(path, admits)
  {
    var leaf := StrayLeaf(path);
    var overlay, allowed := Nest(leaf).entries, [Written(leaf)];
    var defaults: Tree := map[];
    StrayIsUnrelated(path);
    forall p | Reported(overlay, p)
      ensures Covered(allowed, Written(p))
    {
      NestHolds(leaf, p);
      assert DotExtends(Written(p), allowed[0]);
    }
    NestHolds(leaf, leaf);
    MergeIdentity(overlay);
    FindBeyond(Map(overlay), path, leaf[|path|..]);
    assert path + leaf[|path|..] == leaf;
    if path == [] {
      FindSingle(Map(overlay), leaf[0]);
      assert leaf == [leaf[0]];
      assert Lookup(Merge(defaults, overlay), []) == Some(Map(overlay)) && overlay != defaults;
    }
    assert Lookup(Merge(defaults, overlay), path) != Lookup(defaults, path);
  }

  lemma {:induction false} FindBeyond(v: Value, p: Path, q: Path)
    requires Find(v, p + q).Some?
    ensures Find(v, p).Some?
  {
    if p != [] {
      assert (p + q)[1..] == p[1..] + q;
      FindBeyond(v.entries[p[0]], p[1..], q);
    }
  }

  // The written form starts with space, so that no clean entry covers it.
  predicate Padded(path: Path) {
    Written(path) != "" && IsSpace(Written(path)[0])
  }

  lemma {:induction false} PaddedIsUncovered(path: Path, allowed: seq<string>)
    requires Clean(allowed)
    requires Padded(path) || Written(path) == ""
    ensures !Covered(allowed, Written(path))
  {
  }

  lemma {:induction false} PaddedIsBounded(path: Path, defaults: Tree, overlay: Tree, allowed: seq<string>)
    requires Padded(path) && Clean(allowed) && NoViolations(overlay, allowed)
    ensures Lookup(Merge(defaults, overlay), path) == Lookup(defaults, path)
  {
    if Touches(overlay, path) {
      hide Touches, Reported, Covered;
      var leaf := TouchIsReported(overlay, path);
      if path <= leaf {
        assert leaf[..|path|] == path;
        WrittenPrefix(leaf, |path|);
      } else {
        assert path[..|leaf|] == leaf;
        WrittenPrefix(path, |leaf|);
      }
      PaddedIsUncovered(leaf, allowed);
      assert false;
    }
    UntouchedStays(defaults, overlay, path);
  }

  // The bound holds for every chart, overlay and allowlist exactly at the paths
  // whose first key is not empty. Allowlists as cleanKeys leaves them add the
  // paths whose written form starts with space, which no entry covers.
  lemma {:induction false} BoundedIff(path: Path)
    ensures Bounded(path, NonEmpty) <==> path != [] && path[0] != ""
    ensures Bounded(path, Clean) <==> path != [] && (path[0] != "" || Padded(path))
  {
    if path != [] && path[0] != "" {
      forall defaults: Tree, overlay: Tree, allowed: seq<string>
        | NoViolations(overlay, allowed) && Unrelated(Dotted(path), allowed)
        ensures Lookup(Merge(defaults, overlay), path) == Lookup(defaults, path)
      {
        OverlayIsBounded(defaults, overlay, allowed, path);
      }
    } else {
      StrayIsUnrelated(path);
      StrayBreaks(path, NonEmpty);
      if Padded(path) {
        forall defaults: Tree, overlay: Tree, allowed: seq<string> | Clean(allowed) && NoViolations(overlay, allowed)
          ensures Lookup(Merge(defaults, overlay), path) == Lookup(defaults, path)
        {
          PaddedIsBounded(path, defaults, overlay, allowed);
        }
      } else {
        var w := Written(StrayLeaf(path));
        assert !IsSpace(w[0]) && !IsSpace(w[|w| - 1]);
        assert Clean([w]);
        StrayBreaks(path, Clean);
      }
    }
  }
}
