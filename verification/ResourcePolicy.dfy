/** The resource policy: what each environment may provision
    (internal/adapter/outbound/policy/resource.go). */
module ResourcePolicy {
  import opened Wrappers
  import opened Text
  import opened Resources

  datatype PostgresRules = PostgresRules(allowedSizes: seq<string>, allowedVersions: seq<string>,
                                         maxStorageMb: int, maxInstancesPerDeployment: int)
  datatype Rules = Rules(allowedTypes: seq<string>, postgres: Option<PostgresRules>)
  datatype Policy = Policy(enforce: bool, configured: bool, defaultRules: Rules, envRules: map<string, Rules>)

  datatype Violation =
    | NoPolicyConfigured
    | TypeNotAllowed(resourceType: string)
    | NoPostgresLimits
    | SizeNotAllowed(size: string)
    | VersionNotAllowed(version: string)
    | StorageExceeds(storageMb: int)
    | TooManyInstances(count: int)
  datatype Decision = Decision(reject: bool, violations: seq<Violation>)

  // --- What the rules allow ---

  // The entries of a configured list, without the space around them.
  function Named(list: seq<string>): set<string> {
    set entry | entry in list :: TrimSpace(entry)
  }

  // Where in the request an instance of postgres is asked for.
  function PostgresAt(rs: seq<Spec>): set<nat> {
    set i: nat | i < |rs| && TrimSpace(rs[i].resourceType) == "postgres"
  }

  predicate WithinLimits(r: Spec, limits: PostgresRules) {
    && (limits.allowedSizes != [] ==> r.size in Named(limits.allowedSizes))
    && (limits.allowedVersions != [] ==> r.version in Named(limits.allowedVersions))
    && (limits.maxStorageMb > 0 ==> r.storageMb <= limits.maxStorageMb)
  }

  predicate AllowedOne(r: Spec, rules: Rules) {
    var t := TrimSpace(r.resourceType);
    && t in Named(rules.allowedTypes)
    && (t == "postgres" ==> rules.postgres.Some? && WithinLimits(r, rules.postgres.value))
  }

  predicate WithinCeiling(rs: seq<Spec>, rules: Rules) {
    rules.postgres.Some? && rules.postgres.value.maxInstancesPerDeployment > 0 ==>
      |PostgresAt(rs)| <= rules.postgres.value.maxInstancesPerDeployment
  }

  // The policy authorizes the request list for the environment. An environment
  // that is listed is judged by its own rules, whatever they hold, and any other
  // by the default rules.
  predicate Allows(p: Policy, rs: seq<Spec>, environment: string) {
    rs == [] || (
      && p.configured
      && var rules := if environment in p.envRules then p.envRules[environment] else p.defaultRules;
      && (forall i :: 0 <= i < |rs| ==> AllowedOne(rs[i], rules))
      && WithinCeiling(rs, rules))
  }

  // --- What the policy reports ---

  // One resource violates the rules in this respect. The limits of postgres are
  // looked at only when postgres is an allowed type.
  predicate Violates(r: Spec, rules: Rules, v: Violation) {
    var t := TrimSpace(r.resourceType);
    var judged := t == "postgres" && t in Named(rules.allowedTypes);
    match v
    case NoPolicyConfigured => false
    case TypeNotAllowed(named) => named == t && t !in Named(rules.allowedTypes)
    case NoPostgresLimits => judged && rules.postgres.None?
    case TooManyInstances(_) => false
    case _ => judged && rules.postgres.Some? && ExceedsLimit(r, rules.postgres.value, v)
  }

  // One postgres request is outside a limit that is set.
  predicate ExceedsLimit(r: Spec, limits: PostgresRules, v: Violation) {
    match v
    case SizeNotAllowed(size) => size == r.size && limits.allowedSizes != [] && size !in Named(limits.allowedSizes)
    case VersionNotAllowed(version) =>
      version == r.version && limits.allowedVersions != [] && version !in Named(limits.allowedVersions)
    case StorageExceeds(storageMb) => storageMb == r.storageMb && 0 < limits.maxStorageMb < storageMb
    case _ => false
  }

  // The request as a whole asks for this many instances, and that is too many.
  predicate ExceedsCeiling(rs: seq<Spec>, rules: Rules, v: Violation) {
    && "postgres" in Named(rules.allowedTypes) && !WithinCeiling(rs, rules)
    && v == TooManyInstances(|PostgresAt(rs)|)
  }

  lemma {:induction false} AllowedIffNoViolation(r: Spec, rules: Rules)
    ensures AllowedOne(r, rules) <==> forall v :: !Violates(r, rules, v)
  {
    hide Named, TrimSpace;
    var t := TrimSpace(r.resourceType);
    if !AllowedOne(r, rules) {
      assert Violates(r, rules, TypeNotAllowed(t)) || Violates(r, rules, NoPostgresLimits)
          || Violates(r, rules, SizeNotAllowed(r.size)) || Violates(r, rules, VersionNotAllowed(r.version))
          || Violates(r, rules, StorageExceeds(r.storageMb));
    }
  }

  // --- How the policy decides ---

  // Membership of the environment key decides, not the content of its rules.
  function RulesFor(p: Policy, environment: string): Rules {
    if environment in p.envRules then p.envRules[environment] else p.defaultRules
  }

  // Exact membership after trimming the configured side.
  method Contains(haystack: seq<string>, needle: string) returns (has: bool)
    ensures has <==> needle in Named(haystack)
  {
    hide TrimSpace;
    for i := 0 to |haystack|
      invariant needle !in Named(haystack[..i])
    {
      if TrimSpace(haystack[i]) == needle {
        assert haystack[i] in haystack;
        return true;
      }
      assert haystack[..i + 1] == haystack[..i] + [haystack[i]];
    }
    assert haystack[..|haystack|] == haystack;
    return false;
  }

  method CheckPostgres(r: Spec, limits: Option<PostgresRules>) returns (violations: seq<Violation>)
    ensures limits.None? ==> violations == [NoPostgresLimits]
    ensures limits.Some? ==> forall v :: v in violations <==> ExceedsLimit(r, limits.value, v)
  {
    hide Named;
    if limits.None? {
      return [NoPostgresLimits];
    }
    var rules := limits.value;
    violations := [];
    if |rules.allowedSizes| > 0 {
      var listed := Contains(rules.allowedSizes, r.size);
      if !listed {
        violations := violations + [SizeNotAllowed(r.size)];
      }
    }
    if |rules.allowedVersions| > 0 {
      var listed := Contains(rules.allowedVersions, r.version);
      if !listed {
        violations := violations + [VersionNotAllowed(r.version)];
      }
    }
    if rules.maxStorageMb > 0 && r.storageMb > rules.maxStorageMb {
      violations := violations + [StorageExceeds(r.storageMb)];
    }
  }

  // A resource of a type that is not allowed is not judged any further.
  method JudgeOne(r: Spec, rules: Rules) returns (violations: seq<Violation>)
    ensures forall v :: v in violations <==> Violates(r, rules, v)
  {
    hide Named, TrimSpace, ExceedsLimit;
    var t := TrimSpace(r.resourceType);
    var listed := Contains(rules.allowedTypes, t);
    violations := [];
    if !listed {
      violations := violations + [TypeNotAllowed(t)];
    } else if t == POSTGRES {
      violations := CheckPostgres(r, rules.postgres);
      LimitsOnly(r, rules);
    }
  }

  lemma LimitsOnly(r: Spec, rules: Rules)
    ensures rules.postgres.Some? ==> forall v :: ExceedsLimit(r, rules.postgres.value, v) ==>
      v.SizeNotAllowed? || v.VersionNotAllowed? || v.StorageExceeds?
  {
  }

  // Every violation of a configured policy is reported, and nothing else: those
  // of each resource, not just the first, and the ceiling of the whole request.
  // The request is refused exactly when the policy enforces and does not allow it.
  method Evaluate(p: Policy, rs: seq<Spec>, environment: string) returns (d: Decision)
    ensures d.violations == [] <==> Allows(p, rs, environment)
    ensures d.reject <==> p.enforce && !Allows(p, rs, environment)
    ensures rs != [] && !p.configured ==> d.violations == [NoPolicyConfigured]
    ensures p.configured ==>
      var rules := if environment in p.envRules then p.envRules[environment] else p.defaultRules;
      forall v ::
        v in d.violations <==> (exists i :: 0 <= i < |rs| && Violates(rs[i], rules, v)) || ExceedsCeiling(rs, rules, v)
  {
    hide AllowedOne, TrimSpace, Named, Violates, PostgresAt;
    CountIsCardinal([], 0);
    if |rs| == 0 {
      return Decision(false, []);
    }
    if !p.configured {
      return Decision(p.enforce, [NoPolicyConfigured]);
    }
    var rules := RulesFor(p, environment);
    var violations: seq<Violation> := [];
    var count := 0;
    for i := 0 to |rs|
      invariant count == |PostgresAt(rs[..i])|
      invariant forall v :: v in violations <==> exists j :: 0 <= j < i && Violates(rs[j], rules, v)
    {
      CountIsCardinal(rs, i);
      if TrimSpace(rs[i].resourceType) == POSTGRES {
        count := count + 1;
      }
      var found := JudgeOne(rs[i], rules);
      violations := violations + found;
    }
    assert rs[..|rs|] == rs;
    NoneIffAllAllowed(rs, rules, violations);
    var listed := Contains(rules.allowedTypes, POSTGRES);
    if count > 0 && !listed {
      UnlistedIsRefused(rs, rules);
    }
    if rules.postgres.Some? && count > 0 && listed
       && rules.postgres.value.maxInstancesPerDeployment > 0
       && count > rules.postgres.value.maxInstancesPerDeployment
    {
      violations := violations + [TooManyInstances(count)];
    }
    d := Decision(p.enforce && |violations| > 0, violations);
  }

  // Counting on in the loop counts the places of postgres in the request.
  lemma {:induction false} CountIsCardinal(rs: seq<Spec>, n: nat)
    requires n <= |rs|
    ensures PostgresAt([]) == {}
    ensures n < |rs| ==>
      |PostgresAt(rs[..n + 1])| == |PostgresAt(rs[..n])| + if TrimSpace(rs[n].resourceType) == "postgres" then 1 else 0
  {
    if n < |rs| {
      hide TrimSpace;
      assert n !in PostgresAt(rs[..n]);
      assert PostgresAt(rs[..n + 1]) ==
             PostgresAt(rs[..n]) + if TrimSpace(rs[n].resourceType) == "postgres" then {n} else {};
    }
  }

  lemma {:induction false} NoneIffAllAllowed(rs: seq<Spec>, rules: Rules, violations: seq<Violation>)
    requires forall v :: v in violations <==> exists j :: 0 <= j < |rs| && Violates(rs[j], rules, v)
    ensures violations == [] <==> forall i :: 0 <= i < |rs| ==> AllowedOne(rs[i], rules)
  {
    hide AllowedOne, Violates;
    if violations != [] {
      assert violations[0] in violations;
      var i :| 0 <= i < |rs| && Violates(rs[i], rules, violations[0]);
      AllowedIffNoViolation(rs[i], rules);
    }
    forall i | violations == [] && 0 <= i < |rs|
      ensures AllowedOne(rs[i], rules)
    {
      AllowedIffNoViolation(rs[i], rules);
      forall v
        ensures !Violates(rs[i], rules, v)
      {
        assert v !in violations;
      }
    }
  }

  // Postgres instances of a type that is not allowed are refused one by one, so
  // the ceiling need not be looked at.
  lemma {:induction false} UnlistedIsRefused(rs: seq<Spec>, rules: Rules)
    requires PostgresAt(rs) != {} && "postgres" !in Named(rules.allowedTypes)
    ensures exists i :: 0 <= i < |rs| && !AllowedOne(rs[i], rules)
  {
    var i :| i in PostgresAt(rs);
    assert !AllowedOne(rs[i], rules);
  }

  // An environment listed with no allowed types denies every declared resource,
  // whatever the default rules allow.
  lemma EmptyRulesDeny(p: Policy, rs: seq<Spec>, environment: string)
    requires environment in p.envRules && p.envRules[environment].allowedTypes == []
    ensures Allows(p, rs, environment) <==> rs == []
  {
    if rs != [] {
      assert !AllowedOne(rs[0], p.envRules[environment]);
    }
  }
}
