/** The composer's merge as it runs: on Go's mutable maps and slices, filled in
    place in whatever order the maps are iterated
    (internal/adapter/outbound/oci/composer.go). */
module Composer {
  import V = Values

  // A Go `any`: a scalar, or a reference to a mutable slice or map.
  datatype Node = Plain(scalar: V.Scalar) | Slice(items: array<Node>) | Object(fields: Fields)

  // A Go map[string]any.
  class Fields {
    var entries: map<string, Node>

    constructor ()
      ensures entries == map[]
    {
      entries := map[];
    }
  }

  // The node reads as the value v, and every map and slice below it is in S.
  ghost predicate Shows(n: Node, v: V.Value, S: set<object>)
    reads S
    decreases v
  {
    match n
    case Plain(s) => v == V.Leaf(s)
    case Slice(a) =>
      && v.List? && a in S && a.Length == |v.items|
      && forall i :: 0 <= i < |v.items| ==> Shows(a[i], v.items[i], S)
    case Object(m) =>
      && v.Map? && m in S && m.entries.Keys == v.entries.Keys
      && forall k :: k in v.entries ==> Shows(m.entries[k], v.entries[k], S)
  }

  // The nil map shows the empty tree.
  ghost predicate ShowsTree(m: Fields?, t: V.Tree, S: set<object>)
    reads S
  {
    if m == null then t == map[] else Shows(Object(m), V.Map(t), S)
  }

  lemma {:induction false} ShowsWider(n: Node, v: V.Value, S: set<object>, S': set<object>)
    requires Shows(n, v, S) && S <= S'
    ensures Shows(n, v, S')
    decreases v
  {
    match n
    case Plain(_) =>
    case Slice(a) =>
      forall i | 0 <= i < |v.items|
        ensures Shows(a[i], v.items[i], S')
      {
        ShowsWider(a[i], v.items[i], S, S');
      }
    case Object(m) =>
      forall k | k in v.entries
        ensures Shows(m.entries[k], v.entries[k], S')
      {
        ShowsWider(m.entries[k], v.entries[k], S, S');
      }
  }

  // The map holds exactly the entries of t, made of the nodes of F.
  ghost predicate Filled(m: Fields, t: V.Tree, F: set<object>)
    reads m, F
  {
    && m !in F
    && m.entries.Keys == t.Keys
    && forall k :: k in t ==> Shows(m.entries[k], t[k], F)
  }

  lemma {:induction false} FilledShows(m: Fields, t: V.Tree, F: set<object>)
    requires Filled(m, t, F)
    ensures Shows(Object(m), V.Map(t), F + {m})
  {
    forall k | k in t
      ensures Shows(m.entries[k], t[k], F + {m})
    {
      ShowsWider(m.entries[k], t[k], F, F + {m});
    }
  }

  lemma {:induction false} FilledWider(m: Fields, t: V.Tree, F: set<object>, G: set<object>)
    requires Filled(m, t, F) && m !in G
    ensures Filled(m, t, F + G)
  {
    forall k | k in t
      ensures Shows(m.entries[k], t[k], F + G)
    {
      ShowsWider(m.entries[k], t[k], F, F + G);
    }
  }

  // No method below has a modifies clause, so none changes a map or slice that
  // existed before the call; and what each returns is made of nodes the call
  // allocated, so it shares none with either input.

  // out[k] = item
  method Put(out: Fields, ghost t: V.Tree, ghost F: set<object>, k: string, item: Node, ghost v: V.Value,
             ghost G: set<object>)
    requires Filled(out, t, F) && Shows(item, v, G) && out !in G
    modifies out
    ensures Filled(out, t[k := v], F + G)
    ensures out.entries == old(out.entries)[k := item]
  {
    FilledWider(out, t, F, G);
    ShowsWider(item, v, G, F + G);
    out.entries := out.entries[k := item];
  }

  method DeepCopyValue(n: Node, ghost v: V.Value, ghost S: set<object>) returns (r: Node, ghost F: set<object>)
    requires Shows(n, v, S)
    ensures fresh(F) && Shows(r, v, F)
    decreases v, 1
  {
    match n
    case Object(m) =>
      var out;
      out, F := DeepCopyMap(m, v.entries, S);
      FilledShows(out, v.entries, F);
      F := F + {out};
      r := Object(out);
    case Slice(a) =>
      var out := new Node[a.Length](_ => Plain(V.Null));
      F := {};
      for i := 0 to a.Length
        invariant fresh(out) && fresh(F) && out !in F && out.Length == a.Length
        invariant forall j :: 0 <= j < i ==> Shows(out[j], v.items[j], F)
        invariant Shows(n, v, S)
      {
        var item, G := DeepCopyValue(a[i], v.items[i], S);
        forall j | 0 <= j < i
          ensures Shows(out[j], v.items[j], F + G)
        {
          ShowsWider(out[j], v.items[j], F, F + G);
        }
        ShowsWider(item, v.items[i], G, F + G);
        F := F + G;
        out[i] := item;
      }
      forall j | 0 <= j < a.Length
        ensures Shows(out[j], v.items[j], F + {out})
      {
        ShowsWider(out[j], v.items[j], F, F + {out});
      }
      F := F + {out};
      r := Slice(out);
    case Plain(_) =>
      r := n;
      F := {};
  }

  method DeepCopyMap(m: Fields?, ghost t: V.Tree, ghost S: set<object>) returns (out: Fields, ghost F: set<object>)
    requires ShowsTree(m, t, S)
    ensures fresh(F + {out}) && Filled(out, t, F)
    decreases V.Map(t), 0
  {
    out := new Fields();
    F := {};
    ghost var done: V.Tree := map[];
    var rest := if m == null then {} else m.entries.Keys;
    while rest != {}
      invariant fresh(F + {out}) && Filled(out, done, F)
      invariant rest <= t.Keys && done == t - rest
      invariant ShowsTree(m, t, S)
      decreases rest
    {
      var k :| k in rest;
      var item, G := DeepCopyValue(m.entries[k], t[k], S);
      Put(out, done, F, k, item, t[k], G);
      F, done, rest := F + G, done[k := t[k]], rest - {k};
    }
    assert done == t;
  }

  // One turn of the merge loop: what the high map holds under k goes into out,
  // merged with the copy of the low map's entry when both are maps.
  method MergeKey(out: Fields, hv: Node, k: string, ghost t: V.Tree, ghost F: set<object>, ghost h: V.Value,
                  ghost S: set<object>)
    returns (ghost G: set<object>)
    requires Filled(out, t, F) && Shows(hv, h, S) && out !in S
    modifies out
    ensures fresh(G) && Filled(out, t[k := if k in t then V.MergeValue(t[k], h) else h], F + G)
    decreases h, 1
  {
    var item: Node;
    if k in out.entries && out.entries[k].Object? && hv.Object? {
      ShowsWider(hv, h, S, S + F);
      ShowsWider(out.entries[k], t[k], F, S + F);
      var child;
      child, G := DeepMerge(out.entries[k].fields, hv.fields, t[k].entries, h.entries, S + F);
      FilledShows(child, V.Merge(t[k].entries, h.entries), G);
      G := G + {child};
      item := Object(child);
    } else {
      item, G := DeepCopyValue(hv, h, S);
    }
    Put(out, t, F, k, item, if k in t then V.MergeValue(t[k], h) else h, G);
  }

  // The merge of the low tree with the part of the high tree already visited.
  lemma {:induction false} MergeTurn(l: V.Tree, h: V.Tree, rest: set<string>, k: string)
    requires rest <= h.Keys && k in rest
    ensures
      var done := V.Merge(l, h - rest);
      done[k := if k in done then V.MergeValue(done[k], h[k]) else h[k]] == V.Merge(l, h - (rest - {k}))
  {
    var done, next := V.Merge(l, h - rest), V.Merge(l, h - (rest - {k}));
    assert k in done <==> k in l;
    assert next.Keys == done.Keys + {k};
    forall j | j in next && j != k
      ensures next[j] == done[j]
    {
      assert j in h - rest <==> j in h - (rest - {k});
    }
  }

  // The merge in place refines the merge on values, whatever the iteration order.
  method DeepMerge(low: Fields?, high: Fields?, ghost l: V.Tree, ghost h: V.Tree, ghost S: set<object>)
    returns (out: Fields, ghost F: set<object>)
    requires ShowsTree(low, l, S) && ShowsTree(high, h, S)
    ensures fresh(F + {out}) && Filled(out, V.Merge(l, h), F)
    decreases V.Map(h), 0
  {
    out, F := DeepCopyMap(low, l, S);
    ghost var done := l;
    var rest := if high == null then {} else high.entries.Keys;
    V.MergeIdentity(l);
    assert h - rest == map[];
    while rest != {}
      invariant fresh(F + {out}) && Filled(out, done, F)
      invariant rest <= h.Keys && done == V.Merge(l, h - rest)
      invariant ShowsTree(high, h, S)
      decreases rest
    {
      var k :| k in rest;
      ghost var G := MergeKey(out, high.entries[k], k, done, F, h[k], S);
      MergeTurn(l, h, rest, k);
      F, done := F + G, done[k := if k in done then V.MergeValue(done[k], h[k]) else h[k]];
      rest := rest - {k};
    }
    assert h - rest == h;
  }

  // The three layers of Compose: platform over overlay over the chart's defaults.
  method ComposeValues(defaults: Fields?, overlay: Fields?, platform: Fields?,
                       ghost d: V.Tree, ghost o: V.Tree, ghost p: V.Tree, ghost S: set<object>)
    returns (merged: Fields, ghost F: set<object>)
    requires ShowsTree(defaults, d, S) && ShowsTree(overlay, o, S) && ShowsTree(platform, p, S)
    ensures fresh(F + {merged}) && Filled(merged, V.Merge3(d, o, p), F)
  {
    var lower, G := DeepMerge(defaults, overlay, d, o, S);
    FilledShows(lower, V.Merge(d, o), G);
    ghost var T := S + G + {lower};
    ShowsWider(Object(lower), V.Map(V.Merge(d, o)), G + {lower}, T);
    if platform != null {
      ShowsWider(Object(platform), V.Map(p), S, T);
    }
    merged, F := DeepMerge(lower, platform, V.Merge(d, o), p, T);
  }
}
