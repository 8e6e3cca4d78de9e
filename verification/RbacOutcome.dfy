/** When the RBAC check ends how, and what its reports say, in terms of the rules of the roles. */
module RbacOutcome {
  import opened Wrappers
  import opened RbacCheck

  /** Some rule lists the permission. */
  predicate IsListed(rules: seq<Rule>, p: Permission) {
    exists rule :: rule in rules
      && p.group in rule.apiGroups && p.resource in rule.resources && p.verb in rule.verbs
  }

  /** Every listed permission of the lower rules is listed by the upper rules. */
  ghost predicate ListsAll(upper: seq<Rule>, lower: seq<Rule>) {
    forall p :: IsListed(lower, p) ==> IsListed(upper, p)
  }

  /** The permissions to create and patch namespaces. */
  predicate IsNamespaceWrite(p: Permission) {
    p.group == "" && p.resource == "namespaces" && (p.verb == "create" || p.verb == "patch")
  }

  ghost predicate ListsNamespaceWrites(rules: seq<Rule>) {
    forall p :: IsNamespaceWrite(p) ==> IsListed(rules, p)
  }

  /** The text that joins group and resource tells both, for what the rules list. */
  ghost predicate KeysTell(rules: seq<Rule>) {
    forall p, q ::
      IsListed(rules, p) && IsListed(rules, q) && p.group + "/" + p.resource == q.group + "/" + q.resource ==>
        p.group == q.group && p.resource == q.resource
  }

  /** Some line of the report has the group, the resource and the verb. */
  predicate Tells(lines: seq<Line>, p: Permission) {
    exists l :: l in lines && l.group == p.group && l.resource == p.resource && p.verb in l.verbs
  }

  lemma Listed(rules: seq<Rule>, p: Permission)
    ensures IsListed(rules, p) <==> p in Permissions(rules)
  {
    ListedSomewhere(rules, p);
    if rule :| rule in rules && Lists(rule, p) { assert p.group in rule.apiGroups; }
    if rule :| rule in rules && p.group in rule.apiGroups && p.resource in rule.resources && p.verb in rule.verbs {
      assert Lists(rule, p);
    }
  }

  lemma AllListed(upper: seq<Rule>, lower: seq<Rule>)
    ensures ListsAll(upper, lower) <==> Permissions(lower) <= Permissions(upper)
  {
    forall p
      ensures (IsListed(lower, p) <==> p in Permissions(lower)) && (IsListed(upper, p) <==> p in Permissions(upper))
    {
      Listed(lower, p);
      Listed(upper, p);
    }
  }

  lemma NamespaceWrites(p: Permission)
    ensures p in NamespacePermissions() <==> IsNamespaceWrite(p)
  {
    assert NAMESPACE_VERBS[0] == "create" && NAMESPACE_VERBS[1] == "patch";
  }

  lemma AllNamespaceWritesListed(rules: seq<Rule>)
    ensures ListsNamespaceWrites(rules) <==> NamespacePermissions() <= Permissions(rules)
  {
    forall p
      ensures p in NamespacePermissions() <==> IsNamespaceWrite(p)
      ensures IsListed(rules, p) <==> p in Permissions(rules)
    {
      NamespaceWrites(p);
      Listed(rules, p);
    }
  }

  lemma ReportTells(missing: set<Permission>, p: Permission)
    requires Unambiguous(missing)
    ensures Tells(Report(missing), p) <==> p in missing
  {
    ReportIsExact(missing, p);
    var lines := Report(missing);
    if i :| 0 <= i < |lines| && Says(lines[i], p) { assert lines[i] in lines; }
    if l :| l in lines && l.group == p.group && l.resource == p.resource && p.verb in l.verbs {
      var i :| 0 <= i < |lines| && lines[i] == l;
      assert Says(lines[i], p);
    }
  }

  lemma LackingIsUnambiguous(rules: seq<Rule>, missing: set<Permission>)
    requires KeysTell(rules) && missing <= Permissions(rules)
    ensures Unambiguous(missing)
  {
    forall p, q | p in missing && q in missing && Key(p) == Key(q)
      ensures p.group == q.group && p.resource == q.resource
    {
      Listed(rules, p);
      Listed(rules, q);
    }
  }

  /** Which outcome occurs when. */
  lemma OutcomeIsDecided(args: nat, moduleRole: Option<seq<Rule>>, operandRole: Option<seq<Rule>>,
                         chartRole: Option<seq<Rule>>)
    ensures
      var r := Verdict(args, moduleRole, operandRole, chartRole);
      if args < 3 || args > 5 then r == Usage
      else if moduleRole.None? || operandRole.None? then r == Unreadable
      else if !ListsNamespaceWrites(operandRole.value) then r.NamespacesMissing?
      else if !ListsAll(moduleRole.value, operandRole.value) then r.ModuleLacks?
      else if args != 5 then r == Covered
      else if chartRole.None? then r == Unreadable
      else if !ListsAll(chartRole.value, moduleRole.value) then r.ChartLacks?
      else r == InSync
  {
    if moduleRole.Some? && operandRole.Some? {
      AllNamespaceWritesListed(operandRole.value);
      AllListed(moduleRole.value, operandRole.value);
      if chartRole.Some? { AllListed(chartRole.value, moduleRole.value); }
    }
  }

  /** The report of what the module lacks: exactly what some operand rule lists and no module rule does. */
  lemma ModuleReportSays(args: nat, moduleRules: seq<Rule>, operandRules: seq<Rule>, chartRole: Option<seq<Rule>>,
                         p: Permission)
    requires Verdict(args, Some(moduleRules), Some(operandRules), chartRole).ModuleLacks? && KeysTell(operandRules)
    ensures
      var lines := Verdict(args, Some(moduleRules), Some(operandRules), chartRole).lines;
      Tells(lines, p) <==> IsListed(operandRules, p) && !IsListed(moduleRules, p)
  {
    var missing := Permissions(operandRules) - Permissions(moduleRules);
    LackingIsUnambiguous(operandRules, missing);
    ReportTells(missing, p);
    Listed(operandRules, p);
    Listed(moduleRules, p);
  }

  /** The report of what the chart lacks: exactly what some module rule lists and no rule of the chart does. */
  lemma ChartReportSays(args: nat, moduleRules: seq<Rule>, operandRules: seq<Rule>, chartRules: seq<Rule>,
                        p: Permission)
    requires Verdict(args, Some(moduleRules), Some(operandRules), Some(chartRules)).ChartLacks? && KeysTell(moduleRules)
    ensures
      var lines := Verdict(args, Some(moduleRules), Some(operandRules), Some(chartRules)).lines;
      Tells(lines, p) <==> IsListed(moduleRules, p) && !IsListed(chartRules, p)
  {
    var missing := Permissions(moduleRules) - Permissions(chartRules);
    LackingIsUnambiguous(moduleRules, missing);
    ReportTells(missing, p);
    Listed(moduleRules, p);
    Listed(chartRules, p);
  }

  /** The report on namespaces: creating or patching them, whichever no operand rule lists. */
  lemma NamespaceReportSays(args: nat, moduleRules: seq<Rule>, operandRules: seq<Rule>, chartRole: Option<seq<Rule>>,
                            p: Permission)
    requires Verdict(args, Some(moduleRules), Some(operandRules), chartRole).NamespacesMissing?
    ensures
      var lines := Verdict(args, Some(moduleRules), Some(operandRules), chartRole).lines;
      Tells(lines, p) <==> IsNamespaceWrite(p) && !IsListed(operandRules, p)
  {
    var missing := NamespacePermissions() - Permissions(operandRules);
    forall q | q in missing
      ensures IsNamespaceWrite(q)
    {
      NamespaceWrites(q);
    }
    ReportTells(missing, p);
    NamespaceWrites(p);
    Listed(operandRules, p);
  }
}
