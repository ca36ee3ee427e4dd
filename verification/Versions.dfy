/** The choice of a chart version among a registry's tags
    (internal/adapter/outbound/oci/resolver.go), by the precedence of section 11
    of Semantic Versioning 2.0.0. */
module Versions {
  import opened Wrappers
  import opened Text

  // A dot-separated identifier of a prerelease.
  datatype Identifier = Numeric(n: nat) | Word(s: string)

  // A parsed tag. Build metadata has no part in precedence and is left out.
  datatype Version = Version(major: nat, minor: nat, patch: nat, prerelease: seq<Identifier>)

  datatype Candidate = Candidate(raw: string, ver: Version)

  type Parser = string -> Option<Version>
  type Constraint = Version -> bool

  // --- Precedence, as section 11 has it ---

  // In ASCII order: at the first letter that differs, and a proper prefix first.
  ghost predicate AsciiBefore(s: string, t: string) {
    exists n :: 0 <= n <= |s| && n < |t| && s[..n] == t[..n] && (n == |s| || s[n] < t[n])
  }

  // Numbers by value, below words, and words in ASCII order.
  ghost predicate Before(a: Identifier, b: Identifier) {
    match (a, b)
    case (Numeric(n), Numeric(m)) => n < m
    case (Numeric(_), Word(_)) => true
    case (Word(_), Numeric(_)) => false
    case (Word(s), Word(t)) => AsciiBefore(s, t)
  }

  // At the first identifier that differs; a larger set of identifiers is higher
  // when all the preceding ones are equal.
  ghost predicate EarlierPrerelease(a: seq<Identifier>, b: seq<Identifier>) {
    exists n :: 0 <= n <= |a| && n < |b| && a[..n] == b[..n] && (n == |a| || Before(a[n], b[n]))
  }

  // Major, minor and patch in this order, as numbers; a prerelease is lower than
  // the version it precedes.
  ghost predicate Precedes(a: Version, b: Version) {
    if a.major != b.major then a.major < b.major
    else if a.minor != b.minor then a.minor < b.minor
    else if a.patch != b.patch then a.patch < b.patch
    else a.prerelease != [] && (b.prerelease == [] || EarlierPrerelease(a.prerelease, b.prerelease))
  }

  // --- Precedence, as versions are compared ---

  predicate IdentifierLower(a: Identifier, b: Identifier) {
    match (a, b)
    case (Numeric(n), Numeric(m)) => n < m
    case (Numeric(_), Word(_)) => true
    case (Word(_), Numeric(_)) => false
    case (Word(s), Word(t)) => s != t && StringLe(s, t)
  }

  predicate IdentifiersLower(a: seq<Identifier>, b: seq<Identifier>) {
    b != [] && (a == [] || IdentifierLower(a[0], b[0]) || (a[0] == b[0] && IdentifiersLower(a[1..], b[1..])))
  }

  predicate Lower(a: Version, b: Version) {
    || a.major < b.major
    || (a.major == b.major && a.minor < b.minor)
    || (a.major == b.major && a.minor == b.minor && a.patch < b.patch)
    || (a.major == b.major && a.minor == b.minor && a.patch == b.patch
        && a.prerelease != [] && (b.prerelease == [] || IdentifiersLower(a.prerelease, b.prerelease)))
  }

  lemma SameHead<T>(a: seq<T>, b: seq<T>, n: nat)
    requires n <= |a| && n <= |b| && a[..n] == b[..n]
    ensures n > 0 ==> a[0] == b[0]
  {
    if n > 0 {
      assert a[0] == a[..n][0] && b[0] == b[..n][0];
    }
  }

  lemma {:induction false} AsciiTail(s: string, t: string)
    requires s != "" && t != "" && s[0] == t[0]
    ensures AsciiBefore(s, t) <==> AsciiBefore(s[1..], t[1..])
  {
    var u, v := s[1..], t[1..];
    assert s == [s[0]] + u && t == [t[0]] + v;
    if AsciiBefore(u, v) {
      var n :| 0 <= n <= |u| && n < |v| && u[..n] == v[..n] && (n == |u| || u[n] < v[n]);
      assert s[..n + 1] == [s[0]] + u[..n] && t[..n + 1] == [t[0]] + v[..n];
    }
    if AsciiBefore(s, t) {
      var n :| 0 <= n <= |s| && n < |t| && s[..n] == t[..n] && (n == |s| || s[n] < t[n]);
      assert u[..n - 1] == s[..n][1..] && v[..n - 1] == t[..n][1..];
    }
  }

  lemma {:induction false} AsciiIffStringLe(s: string, t: string)
    ensures AsciiBefore(s, t) <==> s != t && StringLe(s, t)
  {
    if s != "" && t != "" && s[0] == t[0] {
      hide AsciiBefore;
      AsciiTail(s, t);
      AsciiIffStringLe(s[1..], t[1..]);
      assert s == [s[0]] + s[1..] && t == [t[0]] + t[1..];
    } else if AsciiBefore(s, t) {
      var n :| 0 <= n <= |s| && n < |t| && s[..n] == t[..n] && (n == |s| || s[n] < t[n]);
      SameHead(s, t, n);
    } else if t != "" {
      assert s[..0] == t[..0];
    }
  }

  lemma {:induction false} BeforeIff(a: Identifier, b: Identifier)
    ensures Before(a, b) <==> IdentifierLower(a, b)
  {
    if a.Word? && b.Word? {
      AsciiIffStringLe(a.s, b.s);
    }
  }

  lemma {:induction false} EarlierIff(a: seq<Identifier>, b: seq<Identifier>)
    ensures EarlierPrerelease(a, b) <==> IdentifiersLower(a, b)
  {
    hide Before, IdentifierLower;
    if a != [] && b != [] {
      BeforeIff(a[0], b[0]);
      if a[0] == b[0] {
        EarlierIff(a[1..], b[1..]);
        NeverBeforeItself(a[0]);
        if EarlierPrerelease(a[1..], b[1..]) {
          var n :| 0 <= n <= |a[1..]| && n < |b[1..]| && a[1..][..n] == b[1..][..n]
                && (n == |a[1..]| || Before(a[1..][n], b[1..][n]));
          assert a[..n + 1] == [a[0]] + a[1..][..n] && b[..n + 1] == [b[0]] + b[1..][..n];
        }
        if EarlierPrerelease(a, b) {
          var n :| 0 <= n <= |a| && n < |b| && a[..n] == b[..n] && (n == |a| || Before(a[n], b[n]));
          assert a[1..][..n - 1] == a[..n][1..] && b[1..][..n - 1] == b[..n][1..];
        }
      } else {
        if EarlierPrerelease(a, b) {
          var n :| 0 <= n <= |a| && n < |b| && a[..n] == b[..n] && (n == |a| || Before(a[n], b[n]));
          SameHead(a, b, n);
        }
        assert a[..0] == b[..0];
      }
    } else if b != [] {
      assert a[..0] == b[..0];
    }
  }

  lemma NeverBeforeItself(a: Identifier)
    ensures !Before(a, a) && !IdentifierLower(a, a)
  {
  }

  // The comparison is the precedence of section 11.
  lemma {:induction false} LowerIffPrecedes(a: Version, b: Version)
    ensures Lower(a, b) <==> Precedes(a, b)
  {
    EarlierIff(a.prerelease, b.prerelease);
  }

  lemma {:induction false} IdentifierOrder(a: Identifier, b: Identifier, c: Identifier)
    ensures IdentifierLower(a, b) || a == b || IdentifierLower(b, a)
    ensures !(IdentifierLower(a, b) && IdentifierLower(b, a))
    ensures IdentifierLower(a, b) && IdentifierLower(b, c) ==> IdentifierLower(a, c)
  {
    if a.Word? && b.Word? {
      StringLeTotal(a.s, b.s);
      if StringLe(a.s, b.s) && StringLe(b.s, a.s) {
        StringLeAntisymmetric(a.s, b.s);
      }
      if c.Word? && StringLe(a.s, b.s) && StringLe(b.s, c.s) {
        StringLeTransitive(a.s, b.s, c.s);
        if a.s == c.s {
          StringLeAntisymmetric(a.s, b.s);
        }
      }
    }
  }

  lemma {:induction false} IdentifiersOrder(a: seq<Identifier>, b: seq<Identifier>, c: seq<Identifier>)
    ensures IdentifiersLower(a, b) || a == b || IdentifiersLower(b, a)
    ensures !(IdentifiersLower(a, b) && IdentifiersLower(b, a))
    ensures IdentifiersLower(a, b) && IdentifiersLower(b, c) ==> IdentifiersLower(a, c)
  {
    hide IdentifierLower;
    if a != [] && b != [] {
      var x := if c == [] then b[0] else c[0];
      IdentifierOrder(a[0], b[0], x);
      IdentifierOrder(b[0], x, a[0]);
      IdentifierOrder(x, a[0], b[0]);
      IdentifiersOrder(a[1..], b[1..], if c == [] then [] else c[1..]);
      assert a == [a[0]] + a[1..] && b == [b[0]] + b[1..];
    }
  }

  // Precedence orders versions totally; so tags, of which several can parse to
  // one version, are ordered by a total preorder.
  lemma {:induction false} PrecedenceOrder(a: Version, b: Version, c: Version)
    ensures Precedes(a, b) || a == b || Precedes(b, a)
    ensures !(Precedes(a, b) && Precedes(b, a))
    ensures Precedes(a, b) && Precedes(b, c) ==> Precedes(a, c)
  {
    LowerOrder(a, b, c);
    LowerIffPrecedes(a, b);
    LowerIffPrecedes(b, a);
    LowerIffPrecedes(b, c);
    LowerIffPrecedes(a, c);
  }

  lemma {:induction false} LowerOrder(a: Version, b: Version, c: Version)
    ensures Lower(a, b) || a == b || Lower(b, a)
    ensures !(Lower(a, b) && Lower(b, a))
    ensures Lower(a, b) && Lower(b, c) ==> Lower(a, c)
  {
    IdentifiersOrder(a.prerelease, b.prerelease, c.prerelease);
  }

  // --- Selection ---

  // The tag parses, is no prerelease unless those are allowed, and satisfies
  // the constraint when there is one.
  predicate Eligible(parse: Parser, check: Option<Constraint>, allowPre: bool, tag: string) {
    match parse(tag)
    case None => false
    case Some(v) => (v.prerelease == [] || allowPre) && (check.Some? ==> check.value(v))
  }

  // tag is one of tags, eligible, and no eligible one is higher.
  ghost predicate Highest(parse: Parser, check: Option<Constraint>, allowPre: bool, tags: seq<string>, tag: string) {
    && tag in tags && Eligible(parse, check, allowPre, tag)
    && forall t :: t in tags && Eligible(parse, check, allowPre, t) ==> !Precedes(parse(tag).value, parse(t).value)
  }

  // An empty constraint, or "*", is none; another is None when it is malformed.
  function ReadConstraint(newConstraint: string -> Option<Constraint>,
                          constraint: string): Option<Option<Constraint>> {
    var c := TrimSpace(constraint);
    if c == "" || c == "*" then Some(None)
    else match newConstraint(c) case None => None case Some(check) => Some(Some(check))
  }

  ghost predicate Descending(cs: seq<Candidate>) {
    forall i, j :: 0 <= i < j < |cs| ==> !Lower(cs[i].ver, cs[j].ver)
  }

  // A sort by descending precedence. Which of two equal candidates comes first
  // is not promised.
  method SortCandidates(cs: seq<Candidate>) returns (sorted: seq<Candidate>)
    ensures multiset(sorted) == multiset(cs) && Descending(sorted)
  {
    sorted := [];
    for n := 0 to |cs|
      invariant multiset(sorted) == multiset(cs[..n]) && Descending(sorted)
    {
      var i := 0;
      while i < |sorted| && !Lower(sorted[i].ver, cs[n].ver)
        invariant 0 <= i <= |sorted|
        invariant forall j :: 0 <= j < i ==> !Lower(sorted[j].ver, cs[n].ver)
      {
        i := i + 1;
      }
      InsertKeeps(sorted, i, cs[n]);
      assert cs[..n + 1] == cs[..n] + [cs[n]];
      assert sorted == sorted[..i] + sorted[i..];
      sorted := sorted[..i] + [cs[n]] + sorted[i..];
    }
    assert cs[..|cs|] == cs;
  }

  lemma {:induction false} InsertKeeps(cs: seq<Candidate>, i: nat, c: Candidate)
    requires Descending(cs) && i <= |cs|
    requires forall j :: 0 <= j < i ==> !Lower(cs[j].ver, c.ver)
    requires i < |cs| ==> Lower(cs[i].ver, c.ver)
    ensures Descending(cs[..i] + [c] + cs[i..])
  {
    hide Lower;
    var r := cs[..i] + [c] + cs[i..];
    forall j | i <= j < |cs|
      ensures !Lower(c.ver, cs[j].ver)
    {
      LowerOrder(cs[i].ver, c.ver, cs[j].ver);
      LowerOrder(c.ver, cs[i].ver, c.ver);
    }
    assert forall k :: 0 <= k < |r| ==> r[k] == if k < i then cs[k] else if k == i then c else cs[k - 1];
  }

  // The highest eligible tag; an error exactly when the constraint is malformed
  // or no tag is eligible.
  method SelectVersion(parse: Parser, newConstraint: string -> Option<Constraint>,
                       tags: seq<string>, constraint: string, allowPre: bool) returns (r: Result<string>)
    ensures match ReadConstraint(newConstraint, constraint)
            case None => r.Err?
            case Some(check) =>
              && (r.Err? <==> forall t :: t in tags ==> !Eligible(parse, check, allowPre, t))
              && (r.Ok? ==> Highest(parse, check, allowPre, tags, r.value))
  {
    var check: Option<Constraint> := None;
    var c := TrimSpace(constraint);
    if c != "" && c != "*" {
      check := newConstraint(c);
      if check.None? {
        return Err("invalid version constraint");
      }
    }
    var candidates: seq<Candidate> := [];
    for i := 0 to |tags|
      invariant Gathered(parse, check, allowPre, tags[..i], candidates)
    {
      assert tags[..i + 1] == tags[..i] + [tags[i]];
      var v := parse(tags[i]);
      if v.None? {
        continue;
      }
      if v.value.prerelease != [] && !allowPre {
        continue;
      }
      if check.Some? && !check.value(v.value) {
        continue;
      }
      candidates := candidates + [Candidate(tags[i], v.value)];
    }
    assert tags[..|tags|] == tags;
    if |candidates| == 0 {
      assert forall t :: t in tags ==> !Eligible(parse, check, allowPre, t);
      return Err("no tag satisfies constraint");
    }
    var sorted := SortCandidates(candidates);
    FirstIsHighest(parse, check, allowPre, tags, candidates, sorted);
    return Ok(sorted[0].raw);
  }

  // The candidates are the eligible tags with what they parse to.
  ghost predicate Gathered(parse: Parser, check: Option<Constraint>, allowPre: bool, tags: seq<string>,
                           cs: seq<Candidate>) {
    && (forall c :: c in cs ==> c.raw in tags && Eligible(parse, check, allowPre, c.raw) && parse(c.raw) == Some(c.ver))
    && (forall t :: t in tags && Eligible(parse, check, allowPre, t) ==> Candidate(t, parse(t).value) in cs)
  }

  lemma {:induction false} FirstIsHighest(parse: Parser, check: Option<Constraint>, allowPre: bool, tags: seq<string>,
                                          cs: seq<Candidate>, sorted: seq<Candidate>)
    requires Gathered(parse, check, allowPre, tags, cs) && cs != []
    requires multiset(sorted) == multiset(cs) && Descending(sorted)
    ensures sorted != [] && Highest(parse, check, allowPre, tags, sorted[0].raw)
  {
    assert |sorted| == |multiset(sorted)| == |multiset(cs)| == |cs|;
    var first := sorted[0];
    assert first in multiset(sorted);
    forall t | t in tags && Eligible(parse, check, allowPre, t)
      ensures !Precedes(first.ver, parse(t).value)
    {
      LowerIffPrecedes(first.ver, parse(t).value);
      var c := Candidate(t, parse(t).value);
      assert c in multiset(cs);
      var i :| 0 <= i < |sorted| && sorted[i] == c;
      if i == 0 {
        LowerOrder(c.ver, c.ver, c.ver);
      }
    }
  }

  // The order and repetition of the tags decide at most the spelling of the
  // answer, never its version.
  lemma {:induction false} SelectionIsStable(parse: Parser, check: Option<Constraint>, allowPre: bool,
                                             tags1: seq<string>, tags2: seq<string>, r1: string, r2: string)
    requires forall t :: t in tags1 <==> t in tags2
    requires Highest(parse, check, allowPre, tags1, r1) && Highest(parse, check, allowPre, tags2, r2)
    ensures parse(r1) == parse(r2)
  {
    PrecedenceOrder(parse(r1).value, parse(r2).value, parse(r1).value);
  }

  // What the selected tag is worth, told by its numbers: no eligible tag has a
  // larger major, none of its major a larger minor, and none of both a larger
  // patch; a release is chosen over its prereleases.
  lemma {:induction false} HighestByNumbers(parse: Parser, check: Option<Constraint>, allowPre: bool,
                                            tags: seq<string>, tag: string, t: string)
    requires Highest(parse, check, allowPre, tags, tag)
    requires t in tags && Eligible(parse, check, allowPre, t)
    ensures
      var v, w := parse(tag).value, parse(t).value;
      && w.major <= v.major
      && (w.major == v.major ==>
            && w.minor <= v.minor
            && (w.minor == v.minor ==>
                  && w.patch <= v.patch
                  && (w.patch == v.patch ==>
                        && (w.prerelease == [] ==> v.prerelease == [])
                        && (v.prerelease != [] ==> !EarlierPrerelease(v.prerelease, w.prerelease)))))
  {
    hide EarlierPrerelease;
  }
}
