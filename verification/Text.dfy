/** The string operations the orchestrator takes from Go's standard library. */
module Text {
  predicate IsSpace(c: char) {
    c == ' ' || c == '\t' || c == '\n' || c == '\r' || c == '\U{000B}' || c == '\U{000C}'
  }

  function TrimLeft(s: string): (t: string)
    ensures t == "" || !IsSpace(t[0])
  {
    if s != "" && IsSpace(s[0]) then TrimLeft(s[1..]) else s
  }

  function TrimRight(s: string): (t: string)
    ensures t <= s
    ensures t == "" || !IsSpace(t[|t| - 1])
  {
    if s != "" && IsSpace(s[|s| - 1]) then TrimRight(s[..|s| - 1]) else s
  }

  // strings.TrimSpace
  function TrimSpace(s: string): (t: string)
    ensures t == "" || (!IsSpace(t[0]) && !IsSpace(t[|t| - 1]))
  {
    TrimRight(TrimLeft(s))
  }

  ghost predicate AllSpace(s: string) {
    forall i :: 0 <= i < |s| ==> IsSpace(s[i])
  }

  // Nothing but space is trimmed.
  lemma {:induction false} TrimsSpaceOnly(s: string) returns (before: string, after: string)
    ensures s == before + TrimSpace(s) + after && AllSpace(before) && AllSpace(after)
  {
    before := TrimsLeft(s);
    after := TrimsRight(TrimLeft(s));
  }

  lemma {:induction false} TrimsLeft(s: string) returns (before: string)
    ensures s == before + TrimLeft(s) && AllSpace(before)
  {
    before := "";
    if s != "" && IsSpace(s[0]) {
      before := TrimsLeft(s[1..]);
      before := [s[0]] + before;
    }
  }

  lemma {:induction false} TrimsRight(s: string) returns (after: string)
    ensures s == TrimRight(s) + after && AllSpace(after)
  {
    after := "";
    if s != "" && IsSpace(s[|s| - 1]) {
      after := TrimsRight(s[..|s| - 1]);
      after := after + [s[|s| - 1]];
    }
  }

  // strings.TrimPrefix
  function TrimPrefix(s: string, prefix: string): string {
    if prefix <= s then s[|prefix|..] else s
  }

  // strings.TrimSuffix
  function TrimSuffix(s: string, suffix: string): string {
    if |suffix| <= |s| && s[|s| - |suffix|..] == suffix then s[..|s| - |suffix|] else s
  }

  lemma TrimsItsPrefix(prefix: string, s: string)
    ensures TrimPrefix(prefix + s, prefix) == s
  {
    assert (prefix + s)[|prefix|..] == s;
  }

  lemma TrimsItsSuffix(s: string, suffix: string)
    ensures TrimSuffix(s + suffix, suffix) == s
  {
    assert (s + suffix)[|s|..] == suffix && (s + suffix)[..|s|] == s;
  }

  // A path of value keys written with dots between the segments.
  function Dotted(path: seq<string>): string {
    if |path| == 0 then ""
    else if |path| == 1 then path[0]
    else Dotted(path[..|path| - 1]) + "." + path[|path| - 1]
  }

  // Whether s equals entry or lies beneath it.
  predicate DotExtends(s: string, entry: string) {
    s == entry || entry + "." <= s
  }

  // A proper prefix of a path writes a dot-prefix of its dotted form.
  lemma {:induction false} DottedPrefix(path: seq<string>, n: nat)
    requires 0 < n < |path|
    ensures Dotted(path[..n]) + "." <= Dotted(path)
  {
    var front := path[..|path| - 1];
    if n < |front| {
      DottedPrefix(front, n);
      assert front[..n] == path[..n];
    } else {
      assert front == path[..n];
    }
  }

  lemma {:induction false} DotExtendsTransitive(a: string, b: string, c: string)
    requires DotExtends(a, b) && DotExtends(b, c)
    ensures DotExtends(a, c)
  {
    if a != b && b != c {
      assert (c + ".") <= b <= (b + ".") <= a;
    }
  }

  // Two dot-prefixes of one string are themselves nested one in the other.
  lemma {:induction false} DotPrefixesNest(s: string, a: string, b: string)
    requires DotExtends(s, a) && DotExtends(s, b)
    ensures DotExtends(a, b) || DotExtends(b, a)
  {
    if s != a && s != b && a != b {
      assert a == s[..|a|] && a + "." == s[..|a| + 1];
      assert b == s[..|b|] && b + "." == s[..|b| + 1];
      if |a| < |b| {
        assert a + "." == b[..|a| + 1];
      } else if |b| < |a| {
        assert b + "." == a[..|b| + 1];
      }
    }
  }

  // Lexicographic order on strings, which sort.Strings sorts by.
  predicate StringLe(a: string, b: string) {
    a == "" || (b != "" && (a[0] < b[0] || (a[0] == b[0] && StringLe(a[1..], b[1..]))))
  }

  lemma {:induction false} StringLeTotal(a: string, b: string)
    ensures StringLe(a, b) || StringLe(b, a)
  {
    if a != "" && b != "" && a[0] == b[0] {
      StringLeTotal(a[1..], b[1..]);
    }
  }

  lemma {:induction false} StringLeAntisymmetric(a: string, b: string)
    requires StringLe(a, b) && StringLe(b, a)
    ensures a == b
  {
    if a != "" {
      StringLeAntisymmetric(a[1..], b[1..]);
      assert a == [a[0]] + a[1..] && b == [b[0]] + b[1..];
    }
  }

  lemma {:induction false} StringLeTransitive(a: string, b: string, c: string)
    requires StringLe(a, b) && StringLe(b, c)
    ensures StringLe(a, c)
  {
    if a != "" && a[0] == b[0] == c[0] {
      StringLeTransitive(a[1..], b[1..], c[1..]);
    }
  }

  predicate Sorted(xs: seq<string>) {
    forall i, j :: 0 <= i < j < |xs| ==> StringLe(xs[i], xs[j])
  }

  // Inserting into a sorted list, the step of SortStrings.
  function Insert(x: string, xs: seq<string>): (ys: seq<string>)
    requires Sorted(xs)
    ensures Sorted(ys) && multiset(ys) == multiset(xs) + multiset{x}
  {
    if xs == [] then [x]
    else if StringLe(x, xs[0]) then
      SortedCons(x, xs);
      assert multiset([x] + xs) == multiset{x} + multiset(xs);
      [x] + xs
    else
      StringLeTotal(x, xs[0]);
      var rest := Insert(x, xs[1..]);
      assert xs == [xs[0]] + xs[1..];
      InsertedHead(xs[0], x, xs, rest);
      [xs[0]] + rest
  }

  lemma {:induction false} SortedCons(x: string, xs: seq<string>)
    requires Sorted(xs) && xs != [] && StringLe(x, xs[0])
    ensures Sorted([x] + xs)
  {
    forall i, j | 0 <= i < j < |[x] + xs|
      ensures StringLe(([x] + xs)[i], ([x] + xs)[j])
    {
      if i == 0 && j > 1 {
        StringLeTransitive(x, xs[0], xs[j - 1]);
      }
    }
  }

  lemma {:induction false} InsertedHead(h: string, x: string, xs: seq<string>, rest: seq<string>)
    requires xs != [] && xs[0] == h && Sorted(xs) && StringLe(h, x)
    requires Sorted(rest) && multiset(rest) == multiset(xs[1..]) + multiset{x}
    ensures Sorted([h] + rest)
    ensures multiset([h] + rest) == multiset(xs) + multiset{x}
  {
    assert xs == [h] + xs[1..];
    forall j | 0 <= j < |rest|
      ensures StringLe(h, rest[j])
    {
      assert rest[j] in multiset(rest);
      if rest[j] != x {
        assert rest[j] in xs[1..];
      }
    }
  }

  // sort.Strings
  method SortStrings(xs: seq<string>) returns (ys: seq<string>)
    ensures Sorted(ys) && multiset(ys) == multiset(xs)
  {
    ys := [];
    for i := 0 to |xs|
      invariant Sorted(ys) && multiset(ys) == multiset(xs[..i])
    {
      assert xs[..i + 1] == xs[..i] + [xs[i]];
      ys := Insert(xs[i], ys);
    }
    assert xs[..|xs|] == xs;
  }

  // A list has one sorted arrangement, so a sorted report does not depend on
  // the order its entries were found in.
  lemma {:induction false} OneArrangement(found: seq<string>, again: seq<string>)
    requires Sorted(found) && Sorted(again) && multiset(found) == multiset(again)
    ensures found == again
  {
    hide StringLe;
    if found == [] {
      SameLength(found, again);
    } else {
      SameLeast(found, again);
      DropsLeast(found);
      DropsLeast(again);
      OneArrangement(found[1..], again[1..]);
      assert found == found[..1] + found[1..] && again == again[..1] + again[1..];
    }
  }

  lemma SameLength(found: seq<string>, again: seq<string>)
    requires multiset(found) == multiset(again)
    ensures |found| == |again|
  {
    assert |multiset(found)| == |found|;
    assert |multiset(again)| == |again|;
  }

  lemma {:induction false} SameLeast(found: seq<string>, again: seq<string>)
    requires found != [] && Sorted(found) && Sorted(again) && multiset(found) == multiset(again)
    ensures again != [] && again[0] == found[0]
  {
    SameLength(found, again);
    assert found[0] in multiset(again) && again[0] in multiset(found);
    LeastFirst(found, again[0]);
    LeastFirst(again, found[0]);
    StringLeAntisymmetric(found[0], again[0]);
  }

  lemma DropsLeast(found: seq<string>)
    requires found != []
    ensures multiset(found[1..]) == multiset(found) - multiset{found[0]}
  {
    assert [found[0]] + found[1..] == found;
  }

  lemma {:induction false} LeastFirst(xs: seq<string>, x: string)
    requires Sorted(xs) && x in xs
    ensures StringLe(xs[0], x)
  {
    var i :| 0 <= i < |xs| && xs[i] == x;
    if i == 0 {
      StringLeTotal(x, x);
    }
  }
}
