/**
  What passing the RBAC check means for the requests the rules allow, resourceNames and wildcards included.
*/
module RbacCoverage {
  import opened Wrappers
  import opened GoStrings
  import opened RbacCheck

  // ----- what rules allow -----

  /** A request as the API server authorises it; a subresource follows a `/` in the resource. */
  datatype Access = Access(group: string, resource: string, verb: string, name: string)

  predicate Covers(listed: string, asked: string) {
    listed == "*" || listed == asked
  }

  /** Besides `*` there is `*` + `/status`, which stands for that subresource of everything. */
  predicate CoversResource(listed: string, asked: string) {
    Covers(listed, asked) || (After(asked, '/') != "" && listed == "*/" + After(asked, '/'))
  }

  ghost predicate Grants(p: Permission, a: Access) {
    Covers(p.group, a.group) && CoversResource(p.resource, a.resource) && Covers(p.verb, a.verb)
  }

  ghost predicate Allows(rules: seq<Rule>, a: Access) {
    exists rule, p ::
      rule in rules && Lists(rule, p) && Grants(p, a) && (rule.resourceNames == [] || a.name in rule.resourceNames)
  }

  /** A request names one group, one verb and one resource, never a wildcard. */
  predicate IsRequest(a: Access) {
    a.group != "*" && a.verb != "*" && !Wild(a.resource)
  }

  predicate Wild(resource: string) {
    resource == "*" || (HasPrefix(resource, "*/") && resource != "*/")
  }

  /** Every request the lower rules allow, the upper rules allow. */
  ghost predicate CoversAll(upper: seq<Rule>, lower: seq<Rule>) {
    forall a :: IsRequest(a) && Allows(lower, a) ==> Allows(upper, a)
  }

  // ----- when rules cover rules, as read off the rules -----

  /** One listed permission stands for all that another one stands for. */
  predicate Subsumes(q: Permission, p: Permission) {
    Covers(q.group, p.group) && CoversResource(q.resource, p.resource) && Covers(q.verb, p.verb)
  }

  /** The rule applies to this name, or to every name when none is given. */
  predicate AppliesTo(rule: Rule, name: Option<string>) {
    rule.resourceNames == [] || (name.Some? && name.value in rule.resourceNames)
  }

  /** A rule of these lists a permission that subsumes `p` and applies to the name. */
  ghost predicate Permits(rules: seq<Rule>, p: Permission, name: Option<string>) {
    exists rule, q :: rule in rules && Lists(rule, q) && Subsumes(q, p) && AppliesTo(rule, name)
  }

  /**
    Every permission of an unnamed lower rule is subsumed by one of an unnamed upper rule; every
    permission of a named lower rule is, for each of the names, subsumed by one of an upper rule
    that is unnamed or holds the name.
   */
  ghost predicate NamesCovered(upper: seq<Rule>, lower: seq<Rule>) {
    forall rule, p :: rule in lower && Lists(rule, p) ==>
      if rule.resourceNames == [] then Permits(upper, p, None)
      else forall name :: name in rule.resourceNames ==> Permits(upper, p, Some(name))
  }

  lemma SubsumingGrants(q: Permission, p: Permission, a: Access)
    requires Subsumes(q, p) && Grants(p, a)
    ensures Grants(q, a)
  {
    var sub := After(a.resource, '/');
    CutAt("*", '/', sub);
    assert "*" + ['/'] + sub == "*/" + sub;
  }

  lemma NamesCoveredCovers(upper: seq<Rule>, lower: seq<Rule>)
    requires NamesCovered(upper, lower)
    ensures forall a :: Allows(lower, a) ==> Allows(upper, a)
  {
    forall a | Allows(lower, a)
      ensures Allows(upper, a)
    {
      var rule, p :|
        rule in lower && Lists(rule, p) && Grants(p, a) && (rule.resourceNames == [] || a.name in rule.resourceNames);
      var name := if rule.resourceNames == [] then None else Some(a.name);
      assert Permits(upper, p, name);
      var other, q :| other in upper && Lists(other, q) && Subsumes(q, p) && AppliesTo(other, name);
      SubsumingGrants(q, p, a);
    }
  }

  // ----- requests that tell the rules apart -----

  /** A string longer than all the others. */
  function Fresh(n: nat): (s: string)
    ensures |s| == n + 2 && s != "*" && '/' !in s && !HasPrefix(s, "*")
  {
    var s := seq(n + 2, i requires 0 <= i < n + 2 => 'x');
    assert s[0] == 'x';
    s
  }

  predicate Shorter(ss: seq<string>, n: nat) {
    forall s :: s in ss ==> |s| <= n
  }

  predicate AllShorter(rules: seq<Rule>, n: nat) {
    forall rule :: rule in rules ==>
      Shorter(rule.apiGroups, n) && Shorter(rule.resources, n)
      && Shorter(rule.verbs, n) && Shorter(rule.resourceNames, n)
  }

  function Longest(ss: seq<string>): (n: nat)
    ensures Shorter(ss, n)
  {
    if ss == [] then 0
    else
      var rest := Longest(ss[1..]);
      if |ss[0]| > rest then |ss[0]| else rest
  }

  function LongestOfAll(rules: seq<Rule>): (n: nat)
    ensures AllShorter(rules, n)
  {
    if rules == [] then 0
    else
      var r := rules[0];
      LongestOfAll(rules[1..]) + Longest(r.apiGroups) + Longest(r.resources)
      + Longest(r.verbs) + Longest(r.resourceNames)
  }

  function Asked(listed: string, novel: string): string {
    if listed == "*" then novel else listed
  }

  function AskedResource(listed: string, novel: string): string {
    if listed == "*" then novel
    else if Wild(listed) then novel + listed[1..]
    else listed
  }

  /** A request that `p` grants and no permission of shorter strings grants unless it subsumes `p`. */
  function Witness(p: Permission, name: string, n: nat): Access {
    Access(Asked(p.group, Fresh(n)), AskedResource(p.resource, Fresh(n)), Asked(p.verb, Fresh(n)), name)
  }

  lemma WildResource(listed: string, n: nat)
    requires Wild(listed) && listed != "*"
    ensures
      var sub := After(listed, '/');
      && sub != "" && listed == "*/" + sub
      && After(AskedResource(listed, Fresh(n)), '/') == sub
      && |AskedResource(listed, Fresh(n))| > n && AskedResource(listed, Fresh(n))[0] == 'x'
  {
    var sub := listed[2..];
    assert listed == "*" + ['/'] + sub;
    CutAt("*", '/', sub);
    assert Fresh(n) + listed[1..] == Fresh(n) + ['/'] + sub;
    CutAt(Fresh(n), '/', sub);
  }

  lemma FreshIsWhole(n: nat)
    ensures After(Fresh(n), '/') == ""
  {
    NothingAfter(Fresh(n), '/');
  }

  lemma {:induction false} NothingAfter(s: string, c: char)
    requires c !in s
    ensures After(s, c) == ""
  {
    if s != [] {
      assert s[0] in s && forall x :: x in s[1..] ==> x in s;
      NothingAfter(s[1..], c);
    }
  }

  lemma WitnessIsGranted(p: Permission, name: string, n: nat)
    ensures IsRequest(Witness(p, name, n)) && Grants(p, Witness(p, name, n))
  {
    if Wild(p.resource) && p.resource != "*" { WildResource(p.resource, n); }
  }

  lemma ResourceTells(q: string, p: string, n: nat)
    requires |q| <= n && CoversResource(q, AskedResource(p, Fresh(n)))
    ensures CoversResource(q, p)
  {
    if p == "*" {
      FreshIsWhole(n);
    } else if Wild(p) {
      WildResource(p, n);
    }
  }

  lemma WitnessTells(q: Permission, p: Permission, name: string, n: nat)
    requires |q.group| <= n && |q.resource| <= n && |q.verb| <= n
    requires Grants(q, Witness(p, name, n))
    ensures Subsumes(q, p)
  {
    ResourceTells(q.resource, p.resource, n);
  }

  lemma CoveringCoversNames(upper: seq<Rule>, lower: seq<Rule>, rule: Rule, p: Permission, name: Option<string>)
    requires CoversAll(upper, lower) && rule in lower && Lists(rule, p)
    requires if rule.resourceNames == [] then name == None else name.Some? && name.value in rule.resourceNames
    ensures Permits(upper, p, name)
  {
    var n := LongestOfAll(upper);
    var a := Witness(p, if name.Some? then name.value else Fresh(n), n);
    WitnessIsGranted(p, a.name, n);
    assert Allows(lower, a);
    var other, q :|
      other in upper && Lists(other, q) && Grants(q, a) && (other.resourceNames == [] || a.name in other.resourceNames);
    WitnessTells(q, p, a.name, n);
    assert AppliesTo(other, name);
  }

  /** Rules cover rules exactly when their permissions and names do, whatever wildcards and names they hold. */
  lemma CoverageIsDecided(upper: seq<Rule>, lower: seq<Rule>)
    ensures CoversAll(upper, lower) <==> NamesCovered(upper, lower)
  {
    if NamesCovered(upper, lower) { NamesCoveredCovers(upper, lower); }
    if CoversAll(upper, lower) {
      forall rule, p | rule in lower && Lists(rule, p)
        ensures
          if rule.resourceNames == [] then Permits(upper, p, None)
          else forall name :: name in rule.resourceNames ==> Permits(upper, p, Some(name))
      {
        if rule.resourceNames == [] {
          CoveringCoversNames(upper, lower, rule, p, None);
        } else {
          forall name | name in rule.resourceNames
            ensures Permits(upper, p, Some(name))
          {
            CoveringCoversNames(upper, lower, rule, p, Some(name));
          }
        }
      }
    }
  }

  // ----- what the program's success says -----

  /** No rule names resources. */
  predicate Unnamed(rules: seq<Rule>) {
    forall rule :: rule in rules ==> rule.resourceNames == []
  }

  /** No permission the rules list holds a wildcard. */
  predicate Literal(rules: seq<Rule>) {
    forall p :: p in Permissions(rules) ==> IsLiteral(p)
  }

  predicate IsLiteral(p: Permission) {
    p.group != "*" && p.verb != "*" && !Wild(p.resource)
  }

  /** The check on listings alone allows every request, up to its name. */
  lemma ListingCoversUpToNames(upper: seq<Rule>, lower: seq<Rule>, a: Access)
    requires Permissions(lower) <= Permissions(upper) && Allows(lower, a)
    ensures exists name :: Allows(upper, a.(name := name))
  {
    var rule, p :|
      rule in lower && Lists(rule, p) && Grants(p, a) && (rule.resourceNames == [] || a.name in rule.resourceNames);
    ListedSomewhere(lower, p);
    ListedSomewhere(upper, p);
    var other :| other in upper && Lists(other, p);
    var name := if other.resourceNames == [] then a.name else other.resourceNames[0];
    assert Grants(p, a.(name := name)) && Allows(upper, a.(name := name));
  }

  lemma UnnamedListingsCoverNames(upper: seq<Rule>, lower: seq<Rule>)
    requires Permissions(lower) <= Permissions(upper) && Unnamed(upper)
    ensures NamesCovered(upper, lower)
  {
    forall rule, p, name | rule in lower && Lists(rule, p)
      ensures Permits(upper, p, name)
    {
      ListedSomewhere(lower, p);
      ListedSomewhere(upper, p);
      var other :| other in upper && Lists(other, p);
      assert Subsumes(p, p) && AppliesTo(other, name);
    }
  }

  /**
    What success means, for roles that name resources as the module's and the chart's own do: every
    request of the operand is allowed up to its name, and with its name exactly when the names are
    covered, which they are when the upper role names none; and likewise for the chart's role.
   */
  lemma SuccessIsSound(args: nat, upper: seq<Rule>, lower: seq<Rule>, chart: Option<seq<Rule>>)
    requires Verdict(args, Some(upper), Some(lower), chart) in {Covered, InSync}
    ensures forall a :: Allows(lower, a) ==> exists name :: Allows(upper, a.(name := name))
    ensures CoversAll(upper, lower) <==> NamesCovered(upper, lower)
    ensures Unnamed(upper) ==> CoversAll(upper, lower)
    ensures args == 5 ==> chart.Some?
    ensures args == 5 ==> (CoversAll(chart.value, upper) <==> NamesCovered(chart.value, upper))
    ensures args == 5 ==> (CoversAll(chart.value, lower) <==> NamesCovered(chart.value, lower))
    ensures args == 5 && Unnamed(chart.value) ==> CoversAll(chart.value, upper) && CoversAll(chart.value, lower)
  {
    forall a | Allows(lower, a)
      ensures exists name :: Allows(upper, a.(name := name))
    {
      ListingCoversUpToNames(upper, lower, a);
    }
    CoverageIsDecided(upper, lower);
    if Unnamed(upper) { UnnamedListingsCoverNames(upper, lower); }
    if args == 5 {
      CoverageIsDecided(chart.value, upper);
      CoverageIsDecided(chart.value, lower);
      if Unnamed(chart.value) {
        UnnamedListingsCoverNames(chart.value, upper);
        UnnamedListingsCoverNames(chart.value, lower);
      }
    }
  }

  /**
    On success the module may create and patch namespaces of some name, and of every name exactly with
    an unnamed rule.
   */
  lemma SuccessCoversNamespaces(args: nat, upper: seq<Rule>, lower: seq<Rule>, chart: Option<seq<Rule>>, verb: string)
    requires Verdict(args, Some(upper), Some(lower), chart) in {Covered, InSync} && verb in NAMESPACE_VERBS
    ensures exists name :: Allows(upper, Access("", "namespaces", verb, name))
    ensures (forall name :: Allows(upper, Access("", "namespaces", verb, name)))
      <==> Permits(upper, Permission("", "namespaces", verb), None)
  {
    var p := Permission("", "namespaces", verb);
    assert p in NamespacePermissions() && p in Permissions(upper);
    ListedSomewhere(upper, p);
    var rule :| rule in upper && Lists(rule, p);
    var some := if rule.resourceNames == [] then "" else rule.resourceNames[0];
    assert Grants(p, Access("", "namespaces", verb, some));
    var all := [Rule([""], ["namespaces"], [verb], [])];
    assert Lists(all[0], p) && all[0] in all;
    CoverageIsDecided(upper, all);
    NamespaceRequests(upper, verb);
  }

  lemma NamespacesAreNotWild()
    ensures !Wild("namespaces")
  {
    assert "namespaces"[0] == 'n';
  }

  lemma NamespaceRequests(upper: seq<Rule>, verb: string)
    requires verb in NAMESPACE_VERBS
    ensures
      var all := [Rule([""], ["namespaces"], [verb], [])];
      && (CoversAll(upper, all) <==> forall name :: Allows(upper, Access("", "namespaces", verb, name)))
      && (NamesCovered(upper, all) <==> Permits(upper, Permission("", "namespaces", verb), None))
  {
    var rule, p := Rule([""], ["namespaces"], [verb], []), Permission("", "namespaces", verb);
    NamespacesAreNotWild();
    assert verb != "*";
    assert rule in [rule] && Lists(rule, p);
    forall a | IsRequest(a)
      ensures Allows([rule], a) <==> a == Access("", "namespaces", verb, a.name)
    {
      if a == Access("", "namespaces", verb, a.name) { assert Grants(p, a); }
    }
    forall name
      ensures IsRequest(Access("", "namespaces", verb, name)) && Allows([rule], Access("", "namespaces", verb, name))
    {
      assert Grants(p, Access("", "namespaces", verb, name));
    }
  }

  lemma LiteralSubsumes(q: Permission, p: Permission, rule: Rule, rules: seq<Rule>)
    requires Literal(rules) && rule in rules && Lists(rule, q) && Subsumes(q, p)
    ensures q == p
  {
    ListedSomewhere(rules, q);
    LiteralTells(q, p);
  }

  lemma LiteralTells(q: Permission, p: Permission)
    requires IsLiteral(q) && Subsumes(q, p)
    ensures q == p
  {
    var sub := After(p.resource, '/');
    if sub != "" && q.resource == "*/" + sub { assert q.resource != "*/" && Wild(q.resource); }
  }

  /**
    With literal rules above, the requests are covered exactly when the check on listings passes and
    the names are covered; without names above, exactly when the check passes.
   */
  lemma CheckIsExact(upper: seq<Rule>, lower: seq<Rule>)
    requires Literal(upper)
    ensures CoversAll(upper, lower) <==> Permissions(lower) <= Permissions(upper) && NamesCovered(upper, lower)
    ensures Unnamed(upper) ==> (CoversAll(upper, lower) <==> Permissions(lower) <= Permissions(upper))
  {
    CoverageIsDecided(upper, lower);
    if NamesCovered(upper, lower) { CoveredNamesAreListed(upper, lower); }
    if Unnamed(upper) && Permissions(lower) <= Permissions(upper) { UnnamedListingsCoverNames(upper, lower); }
  }

  /** With literal rules above, covering implies that the check passes, names or not. */
  lemma CoveredNamesAreListed(upper: seq<Rule>, lower: seq<Rule>)
    requires Literal(upper) && NamesCovered(upper, lower)
    ensures Permissions(lower) <= Permissions(upper)
  {
    forall p | p in Permissions(lower)
      ensures p in Permissions(upper)
    {
      ListedSomewhere(lower, p);
      var rule :| rule in lower && Lists(rule, p);
      var name := if rule.resourceNames == [] then None else Some(rule.resourceNames[0]);
      assert Permits(upper, p, name);
      var other, q :| other in upper && Lists(other, q) && Subsumes(q, p) && AppliesTo(other, name);
      LiteralSubsumes(q, p, other, upper);
      ListedSomewhere(upper, p);
    }
  }

  /** A role that holds every rule of another, names included, covers it: so does a chart in sync with its source. */
  lemma MoreRulesCover(upper: seq<Rule>, lower: seq<Rule>)
    requires forall rule :: rule in lower ==> rule in upper
    ensures NamesCovered(upper, lower) && CoversAll(upper, lower)
  {
    forall rule, p, name | rule in lower && Lists(rule, p) && AppliesTo(rule, name)
      ensures Permits(upper, p, name)
    {
      assert Subsumes(p, p);
    }
    CoverageIsDecided(upper, lower);
  }

  // ----- where listing and covering part -----

  const NAMESPACES_RULE := Rule([""], ["namespaces"], NAMESPACE_VERBS, [])

  lemma OneRule(rule: Rule, p: Permission)
    ensures p in Permissions([rule]) <==> Lists(rule, p)
  {
    ListedSomewhere([rule], p);
    assert rule in [rule];
  }

  lemma NamespacesRule()
    ensures Permissions([NAMESPACES_RULE]) == NamespacePermissions()
  {
    forall p
      ensures p in Permissions([NAMESPACES_RULE]) <==> p in NamespacePermissions()
    {
      OneRule(NAMESPACES_RULE, p);
    }
  }

  /** Rules of the module that name resources pass the check without covering the operand. */
  lemma NamedRulesPassUncovered()
    ensures
      var upper := [NAMESPACES_RULE.(resourceNames := ["registry"])];
      Verdict(3, Some(upper), Some([NAMESPACES_RULE]), None) == Covered && !CoversAll(upper, [NAMESPACES_RULE])
  {
    var named := NAMESPACES_RULE.(resourceNames := ["registry"]);
    forall p
      ensures p in Permissions([named]) <==> p in Permissions([NAMESPACES_RULE])
    {
      OneRule(named, p);
      OneRule(NAMESPACES_RULE, p);
    }
    NamespacesRule();
    NamespacesAreNotWild();
    var a, p := Access("", "namespaces", "create", "other"), Permission("", "namespaces", NAMESPACE_VERBS[0]);
    assert NAMESPACES_RULE in [NAMESPACES_RULE] && Lists(NAMESPACES_RULE, p) && Grants(p, a) && IsRequest(a);
    assert Allows([NAMESPACES_RULE], a) && !Allows([named], a);
  }

  /** The permission a request asks for. */
  function AskedFor(a: Access): Permission {
    Permission(a.group, a.resource, a.verb)
  }

  /** A rule that lists one permission only. */
  function OnlyRule(q: Permission, names: seq<string>): Rule {
    Rule([q.group], [q.resource], [q.verb], names)
  }

  lemma SubsumedRuleIsCovered(upper: seq<Rule>, rule: Rule, p: Permission, q: Permission)
    requires rule in upper && Lists(rule, p) && Subsumes(p, q)
    ensures CoversAll(upper, [OnlyRule(q, rule.resourceNames)])
  {
    var only := OnlyRule(q, rule.resourceNames);
    forall x, name | Lists(only, x) && AppliesTo(only, name)
      ensures Permits(upper, x, name)
    {
      assert x == q && AppliesTo(rule, name);
    }
    CoverageIsDecided(upper, [only]);
  }

  lemma ListedIsShort(rules: seq<Rule>, q: Permission)
    requires q in Permissions(rules)
    ensures var n := LongestOfAll(rules); |q.group| <= n && |q.resource| <= n && |q.verb| <= n
  {
    ListedSomewhere(rules, q);
  }

  /** The witness for a wildcard is longer than all that is listed. */
  lemma WitnessIsNotListed(rules: seq<Rule>, p: Permission)
    requires !IsLiteral(p)
    ensures AskedFor(Witness(p, "", LongestOfAll(rules))) !in Permissions(rules)
  {
    var n := LongestOfAll(rules);
    var q := AskedFor(Witness(p, "", n));
    if Wild(p.resource) && p.resource != "*" { WildResource(p.resource, n); }
    assert |q.group| > n || |q.resource| > n || |q.verb| > n;
    if q in Permissions(rules) { ListedIsShort(rules, q); }
  }

  /** A wildcard lists less than it allows: some permission of its rule is covered and not listed. */
  lemma WildcardsListTooLittle(upper: seq<Rule>, p: Permission) returns (lower: seq<Rule>)
    requires p in Permissions(upper) && !IsLiteral(p)
    ensures CoversAll(upper, lower) && !(Permissions(lower) <= Permissions(upper))
  {
    ListedSomewhere(upper, p);
    var rule :| rule in upper && Lists(rule, p);
    var q := AskedFor(Witness(p, "", LongestOfAll(upper)));
    lower := [OnlyRule(q, rule.resourceNames)];
    WitnessIsGranted(p, "", LongestOfAll(upper));
    SubsumedRuleIsCovered(upper, rule, p, q);
    OneRule(lower[0], q);
    WitnessIsNotListed(upper, p);
  }

  /**
    The check rejects no role that is covered, whatever the operand's, exactly when no permission of the
    module's role holds a wildcard.
   */
  lemma RejectsOnlyUncoveredIffLiteral(upper: seq<Rule>)
    ensures
      (forall lower :: CoversAll(upper, lower) ==> Permissions(lower) <= Permissions(upper)) <==> Literal(upper)
  {
    if Literal(upper) {
      forall lower | CoversAll(upper, lower)
        ensures Permissions(lower) <= Permissions(upper)
      {
        CoverageIsDecided(upper, lower);
        CoveredNamesAreListed(upper, lower);
      }
    } else {
      var p :| p in Permissions(upper) && !IsLiteral(p);
      var lower := WildcardsListTooLittle(upper, p);
      assert CoversAll(upper, lower) && !(Permissions(lower) <= Permissions(upper));
    }
  }

  /** A wildcard of the module covers what the check reports as missing. */
  lemma {:induction false} WildcardsAreReported()
    ensures
      var upper := [Rule(["*"], ["*"], ["*"], [])];
      Verdict(3, Some(upper), Some([NAMESPACES_RULE]), None).ModuleLacks? && CoversAll(upper, [NAMESPACES_RULE])
  {
    var all, p := Rule(["*"], ["*"], ["*"], []), Permission("*", "*", "*");
    NamespacesRule();
    var create := Permission("", "namespaces", NAMESPACE_VERBS[0]);
    OneRule(all, create);
    assert create in NamespacePermissions();
    forall a
      ensures Allows([all], a)
    {
      assert all in [all] && Lists(all, p) && Grants(p, a);
    }
  }
}
