/**
  The check that the module's ClusterRole, and the one in the chart, grant everything the operand's
  ClusterRole grants, and its report of what is missing.
*/
module RbacCheck {
  import opened Wrappers
  import opened GoStrings
  import opened Ordering

  datatype Rule = Rule(apiGroups: seq<string>, resources: seq<string>, verbs: seq<string>, resourceNames: seq<string>)

  datatype Permission = Permission(group: string, resource: string, verb: string)

  predicate Lists(rule: Rule, p: Permission) {
    p.group in rule.apiGroups && p.resource in rule.resources && p.verb in rule.verbs
  }

  function Permissions(rules: seq<Rule>): set<Permission> {
    set rule, g, r, v | rule in rules && g in rule.apiGroups && r in rule.resources && v in rule.verbs
      :: Permission(g, r, v)
  }

  lemma ListedSomewhere(rules: seq<Rule>, p: Permission)
    ensures p in Permissions(rules) <==> exists rule :: rule in rules && Lists(rule, p)
  {
    if rule :| rule in rules && Lists(rule, p) {
      assert Permission(p.group, p.resource, p.verb) == p;
    }
  }

  // ----- extractPermissions -----

  method AddVerbs(perms: set<Permission>, group: string, resource: string, verbs: seq<string>)
    returns (r: set<Permission>)
    ensures r == perms + set v | v in verbs :: Permission(group, resource, v)
  {
    r := perms;
    for n := 0 to |verbs|
      invariant r == perms + set v | v in verbs[..n] :: Permission(group, resource, v)
    {
      assert verbs[..n + 1] == verbs[..n] + [verbs[n]];
      r := r + {Permission(group, resource, verbs[n])};
    }
    assert verbs[..|verbs|] == verbs;
  }

  method AddResources(perms: set<Permission>, group: string, resources: seq<string>, verbs: seq<string>)
    returns (r: set<Permission>)
    ensures r == perms + set x, v | x in resources && v in verbs :: Permission(group, x, v)
  {
    r := perms;
    for n := 0 to |resources|
      invariant r == perms + set x, v | x in resources[..n] && v in verbs :: Permission(group, x, v)
    {
      assert resources[..n + 1] == resources[..n] + [resources[n]];
      r := AddVerbs(r, group, resources[n], verbs);
    }
    assert resources[..|resources|] == resources;
  }

  method AddRule(perms: set<Permission>, rule: Rule) returns (r: set<Permission>)
    ensures r == perms + Permissions([rule])
  {
    r := perms;
    for n := 0 to |rule.apiGroups|
      invariant forall p :: p in r <==> p in perms || (Lists(rule, p) && p.group in rule.apiGroups[..n])
    {
      assert rule.apiGroups[..n + 1] == rule.apiGroups[..n] + [rule.apiGroups[n]];
      r := AddResources(r, rule.apiGroups[n], rule.resources, rule.verbs);
    }
    assert rule.apiGroups[..|rule.apiGroups|] == rule.apiGroups;
    forall p
      ensures p in Permissions([rule]) <==> Lists(rule, p)
    {
      ListedSomewhere([rule], p);
    }
  }

  /** The nested loops that flatten a role; resourceNames are not looked at. */
  method ExtractPermissions(rules: seq<Rule>) returns (perms: set<Permission>)
    ensures perms == Permissions(rules)
  {
    perms := {};
    for n := 0 to |rules|
      invariant perms == Permissions(rules[..n])
    {
      assert rules[..n + 1] == rules[..n] + [rules[n]];
      forall p
        ensures p in Permissions(rules[..n + 1]) <==> p in Permissions(rules[..n]) || p in Permissions([rules[n]])
      {
        ListedSomewhere(rules[..n + 1], p);
        ListedSomewhere(rules[..n], p);
        ListedSomewhere([rules[n]], p);
      }
      perms := AddRule(perms, rules[n]);
    }
    assert rules[..|rules|] == rules;
  }

  // ----- the report -----

  /** Sorting is by group, then resource, then verb. */
  predicate PermissionLeq(p: Permission, q: Permission) {
    if p.group != q.group then StrLeq(p.group, q.group)
    else if p.resource != q.resource then StrLeq(p.resource, q.resource)
    else StrLeq(p.verb, q.verb)
  }

  lemma PermissionLeqIsTotalOrder()
    ensures TotalOrder(PermissionLeq)
  {
    StrLeqIsTotalOrder();
    forall p: Permission, q: Permission
      ensures PermissionLeq(p, p) && (PermissionLeq(p, q) || PermissionLeq(q, p))
      ensures PermissionLeq(p, q) && PermissionLeq(q, p) ==> p == q
    {
    }
    forall p: Permission, q: Permission, r: Permission | PermissionLeq(p, q) && PermissionLeq(q, r)
      ensures PermissionLeq(p, r)
    {
    }
  }

  function Arranged(missing: set<Permission>): (ps: seq<Permission>)
    ensures Ascending(ps, PermissionLeq) && |ps| == |missing| && forall p :: p in ps <==> p in missing
  {
    PermissionLeqIsTotalOrder();
    Enumerate(missing, PermissionLeq)
  }

  function Key(p: Permission): string {
    p.group + "/" + p.resource
  }

  datatype Line = Line(group: string, resource: string, verbs: seq<string>)

  /** The verbs collected under a key, in order. */
  function VerbsOf(ps: seq<Permission>, key: string): seq<string> {
    if ps == [] then []
    else (if Key(ps[0]) == key then [ps[0].verb] else []) + VerbsOf(ps[1..], key)
  }

  /** A line for each permission whose key has not been printed. */
  function LinesFor(all: seq<Permission>, rest: seq<Permission>, printed: set<string>): seq<Line> {
    if rest == [] then []
    else
      var key := Key(rest[0]);
      if key in printed then LinesFor(all, rest[1..], printed)
      else [Line(rest[0].group, rest[0].resource, VerbsOf(all, key))] + LinesFor(all, rest[1..], printed + {key})
  }

  function Report(missing: set<Permission>): seq<Line> {
    LinesFor(Arranged(missing), Arranged(missing), {})
  }

  lemma {:induction false} VerbsOfSnoc(ps: seq<Permission>, p: Permission, key: string)
    ensures VerbsOf(ps + [p], key) == if Key(p) == key then VerbsOf(ps, key) + [p.verb] else VerbsOf(ps, key)
  {
    if ps == [] {
      assert ps + [p] == [p];
      assert VerbsOf([p][1..], key) == [];
    } else {
      assert (ps + [p])[1..] == ps[1..] + [p];
      VerbsOfSnoc(ps[1..], p, key);
    }
  }

  lemma {:induction false} VerbsOfNone(ps: seq<Permission>, key: string)
    requires forall p :: p in ps ==> Key(p) != key
    ensures VerbsOf(ps, key) == []
  {
    if ps != [] {
      assert ps[0] in ps;
      VerbsOfNone(ps[1..], key);
    }
  }

  const SLOT := "verbs"

  function Slot(verbs: seq<string>): map<string, seq<string>> {
    map[SLOT := verbs]
  }

  function Keys(ps: seq<Permission>): set<string> {
    set p | p in ps :: Key(p)
  }

  /** The verbs by key, in the one slot the original gives them. */
  function Groups(ps: seq<Permission>): map<string, map<string, seq<string>>> {
    map key | key in Keys(ps) :: Slot(VerbsOf(ps, key))
  }

  lemma GroupsSnoc(ps: seq<Permission>, p: Permission)
    ensures Key(p) !in Groups(ps) ==> VerbsOf(ps, Key(p)) == []
    ensures Groups(ps + [p]) == Groups(ps)[Key(p) := Slot(VerbsOf(ps, Key(p)) + [p.verb])]
  {
    var more, updated := Groups(ps + [p]), Groups(ps)[Key(p) := Slot(VerbsOf(ps, Key(p)) + [p.verb])];
    assert Keys(ps + [p]) == Keys(ps) + {Key(p)};
    assert more.Keys == updated.Keys;
    forall k | k in more
      ensures more[k] == updated[k]
    {
      VerbsOfSnoc(ps, p, k);
    }
    if Key(p) !in Groups(ps) { VerbsOfNone(ps, Key(p)); }
  }

  /** Appends to the slot, which may have to be made first. */
  method AddVerb(group: Option<map<string, seq<string>>>, verb: string) returns (r: map<string, seq<string>>)
    requires group.Some? ==> exists verbs :: group.value == Slot(verbs)
    ensures forall verbs ::
      (if group.Some? then group.value == Slot(verbs) else verbs == []) ==> r == Slot(verbs + [verb])
  {
    r := if group.Some? then group.value else map[];
    var verbs := if SLOT in r then r[SLOT] else [];
    r := r[SLOT := verbs + [verb]];
  }

  /** The first loop: fills the map of maps. */
  method Grouped(ps: seq<Permission>) returns (grouped: map<string, map<string, seq<string>>>)
    ensures grouped == Groups(ps)
  {
    grouped := map[];
    for n := 0 to |ps|
      invariant grouped == Groups(ps[..n])
    {
      var p := ps[n];
      var key := Key(p);
      assert ps[..n + 1] == ps[..n] + [p];
      GroupsSnoc(ps[..n], p);
      var group := AddVerb(if key in grouped then Some(grouped[key]) else None, p.verb);
      grouped := grouped[key := group];
    }
    assert ps[..|ps|] == ps;
  }

  lemma AtPrintedKey(ps: seq<Permission>, n: nat, printed: set<string>)
    requires n < |ps| && Key(ps[n]) in printed
    ensures LinesFor(ps, ps[n..], printed) == LinesFor(ps, ps[n + 1..], printed)
  {
    assert ps[n..][1..] == ps[n + 1..];
  }

  lemma AtNewKey(ps: seq<Permission>, n: nat, printed: set<string>, done: seq<Line>)
    requires n < |ps| && Key(ps[n]) !in printed
    ensures
      var p := ps[n];
      done + LinesFor(ps, ps[n..], printed)
        == done + [Line(p.group, p.resource, VerbsOf(ps, Key(p)))] + LinesFor(ps, ps[n + 1..], printed + {Key(p)})
  {
    assert ps[n..][1..] == ps[n + 1..];
  }

  /** The second loop: prints a line for each key still in the map and deletes the key. */
  method PrintGroups(ps: seq<Permission>, byKey: map<string, map<string, seq<string>>>) returns (lines: seq<Line>)
    requires byKey == Groups(ps)
    ensures lines == LinesFor(ps, ps, {})
  {
    lines := [];
    var grouped := byKey;
    ghost var printed: set<string> := {};
    assert ps[0..] == ps;
    for n := 0 to |ps|
      invariant grouped == byKey - printed
      invariant lines + LinesFor(ps, ps[n..], printed) == LinesFor(ps, ps, {})
    {
      var p := ps[n];
      var key := Key(p);
      assert p in ps && key in byKey;
      if key !in grouped {
        AtPrintedKey(ps, n, printed);
      } else {
        AtNewKey(ps, n, printed, lines);
        lines := lines + [Line(p.group, p.resource, grouped[key][SLOT])];
        grouped := grouped - {key};
        printed := printed + {key};
      }
    }
    assert ps[|ps|..] == [];
  }

  /** Sorts, groups and prints. */
  method PrintMissing(missing: seq<Permission>) returns (lines: seq<Line>)
    requires forall i, j :: 0 <= i < j < |missing| ==> missing[i] != missing[j]
    ensures lines == Report(Elements(missing))
  {
    PermissionLeqIsTotalOrder();
    var ps := Sort(missing, PermissionLeq);
    var grouped := Grouped(ps);
    lines := PrintGroups(ps, grouped);
  }

  // ----- what the report says -----

  /** The key of a permission tells its group and its resource. */
  predicate Unambiguous(missing: set<Permission>) {
    forall p, q :: p in missing && q in missing && Key(p) == Key(q) ==> p.group == q.group && p.resource == q.resource
  }

  lemma KeyIsUnique(g: string, r: string, h: string, s: string)
    requires '/' !in g && '/' !in h && g + "/" + r == h + "/" + s
    ensures g == h && r == s
  {
    CutAt(g, '/', r);
    CutAt(h, '/', s);
  }

  /** API groups hold no `/`. */
  lemma SlashFreeIsUnambiguous(missing: set<Permission>)
    requires forall p :: p in missing ==> '/' !in p.group
    ensures Unambiguous(missing)
  {
    forall p, q | p in missing && q in missing && Key(p) == Key(q)
      ensures p.group == q.group && p.resource == q.resource
    {
      KeyIsUnique(p.group, p.resource, q.group, q.resource);
    }
  }

  ghost predicate Says(l: Line, p: Permission) {
    l.group == p.group && l.resource == p.resource && p.verb in l.verbs
  }

  function LineKey(l: Line): string {
    l.group + "/" + l.resource
  }

  predicate LineLeq(l: Line, m: Line) {
    if l.group != m.group then StrLeq(l.group, m.group) else StrLeq(l.resource, m.resource)
  }

  lemma {:induction false} LineOrigins(all: seq<Permission>, rest: seq<Permission>, printed: set<string>, i: nat)
    returns (p: Permission)
    requires i < |LinesFor(all, rest, printed)|
    ensures p in rest && Key(p) !in printed
    ensures LinesFor(all, rest, printed)[i] == Line(p.group, p.resource, VerbsOf(all, Key(p)))
  {
    var key := Key(rest[0]);
    if key in printed {
      p := LineOrigins(all, rest[1..], printed, i);
    } else if i == 0 {
      p := rest[0];
    } else {
      p := LineOrigins(all, rest[1..], printed + {key}, i - 1);
    }
  }

  lemma {:induction false} LineExists(all: seq<Permission>, rest: seq<Permission>, printed: set<string>,
                                      p: Permission) returns (i: nat)
    requires p in rest && Key(p) !in printed
    ensures i < |LinesFor(all, rest, printed)| && LineKey(LinesFor(all, rest, printed)[i]) == Key(p)
  {
    var key := Key(rest[0]);
    if key in printed {
      i := LineExists(all, rest[1..], printed, p);
    } else if key == Key(p) {
      i := 0;
    } else {
      i := LineExists(all, rest[1..], printed + {key}, p);
      i := i + 1;
    }
  }

  lemma {:induction false} LinesAscend(all: seq<Permission>, rest: seq<Permission>, printed: set<string>, i: nat,
                                       j: nat)
    requires Ascending(rest, PermissionLeq) && i < j < |LinesFor(all, rest, printed)|
    ensures
      var l, m := LinesFor(all, rest, printed)[i], LinesFor(all, rest, printed)[j];
      LineLeq(l, m) && LineKey(l) != LineKey(m)
  {
    StrLeqIsTotalOrder();
    var key := Key(rest[0]);
    if key in printed {
      LinesAscend(all, rest[1..], printed, i, j);
    } else if i > 0 {
      LinesAscend(all, rest[1..], printed + {key}, i - 1, j - 1);
    } else {
      var p := LineOrigins(all, rest[1..], printed + {key}, j - 1);
      var k :| 0 <= k < |rest[1..]| && rest[1..][k] == p;
      assert PermissionLeq(rest[0], rest[k + 1]);
    }
  }

  lemma {:induction false} VerbsAre(ps: seq<Permission>, key: string, v: string)
    ensures v in VerbsOf(ps, key) <==> exists p :: p in ps && Key(p) == key && p.verb == v
  {
    if ps != [] {
      VerbsAre(ps[1..], key, v);
      assert forall p :: p in ps <==> p == ps[0] || p in ps[1..];
    }
  }

  lemma LaterVerbIsGreater(ps: seq<Permission>, v: string)
    requires ps != [] && Ascending(ps, PermissionLeq) && Unambiguous(Elements(ps)) && v in VerbsOf(ps[1..], Key(ps[0]))
    ensures StrLeq(ps[0].verb, v) && ps[0].verb != v
  {
    VerbsAre(ps[1..], Key(ps[0]), v);
    var p :| p in ps[1..] && Key(p) == Key(ps[0]) && p.verb == v;
    var k :| 0 <= k < |ps[1..]| && ps[1..][k] == p;
    assert ps[0] in Elements(ps) && p in Elements(ps);
    assert PermissionLeq(ps[0], ps[k + 1]) && ps[0] != ps[k + 1];
  }

  lemma AscendingFirst(v: string, later: seq<string>)
    requires Ascending(later, StrLeq) && forall x :: x in later ==> StrLeq(v, x) && v != x
    ensures Ascending([v] + later, StrLeq)
  {
    var all := [v] + later;
    forall i, j | 0 <= i < j < |all|
      ensures StrLeq(all[i], all[j]) && all[i] != all[j]
    {
      assert all[j] == later[j - 1] && later[j - 1] in later;
      if i > 0 { assert all[i] == later[i - 1]; }
    }
  }

  lemma {:induction false} VerbsAscend(ps: seq<Permission>, key: string)
    requires Ascending(ps, PermissionLeq) && Unambiguous(Elements(ps))
    ensures Ascending(VerbsOf(ps, key), StrLeq)
  {
    if ps != [] {
      assert forall p :: p in ps[1..] ==> p in Elements(ps);
      var later := VerbsOf(ps[1..], key);
      VerbsAscend(ps[1..], key);
      if Key(ps[0]) == key {
        forall v | v in later
          ensures StrLeq(ps[0].verb, v) && ps[0].verb != v
        {
          LaterVerbIsGreater(ps, v);
        }
        AscendingFirst(ps[0].verb, later);
        assert VerbsOf(ps, key) == [ps[0].verb] + later;
      } else {
        assert VerbsOf(ps, key) == later;
      }
    }
  }

  /** A line says exactly the missing permissions of its group and resource. */
  lemma LineSays(missing: set<Permission>, i: nat, p: Permission)
    requires Unambiguous(missing) && i < |Report(missing)|
    ensures
      var l := Report(missing)[i];
      && Ascending(l.verbs, StrLeq) && l.verbs != []
      && (Says(l, p) <==> p in missing && p.group == l.group && p.resource == l.resource)
  {
    var ps := Arranged(missing);
    var l := Report(missing)[i];
    var q := LineOrigins(ps, ps, {}, i);
    assert Elements(ps) == missing;
    VerbsAscend(ps, Key(q));
    VerbsAre(ps, Key(q), q.verb);
    VerbsAre(ps, Key(q), p.verb);
    if Says(l, p) {
      var x :| x in ps && Key(x) == Key(q) && x.verb == p.verb;
      assert x == p;
    }
  }

  ghost predicate Reported(missing: set<Permission>, p: Permission) {
    exists i :: 0 <= i < |Report(missing)| && Says(Report(missing)[i], p)
  }

  /** Each missing permission is on exactly one line, and the lines say nothing else. */
  lemma ReportIsExact(missing: set<Permission>, p: Permission)
    requires Unambiguous(missing)
    ensures p in missing <==> Reported(missing, p)
    ensures forall i, j :: 0 <= i < j < |Report(missing)| ==>
      !(Says(Report(missing)[i], p) && Says(Report(missing)[j], p))
  {
    var ps, lines := Arranged(missing), Report(missing);
    if p in missing {
      var i := LineExists(ps, ps, {}, p);
      var q := LineOrigins(ps, ps, {}, i);
      LineSays(missing, i, p);
      assert Says(lines[i], p);
    }
    if i :| 0 <= i < |lines| && Says(lines[i], p) {
      LineSays(missing, i, p);
    }
    forall i, j | 0 <= i < j < |lines|
      ensures !(Says(lines[i], p) && Says(lines[j], p))
    {
      LinesAscend(ps, ps, {}, i, j);
    }
  }

  /** One line for each group and resource, in ascending order, each with its verbs ascending. */
  lemma {:induction false} ReportIsOrdered(missing: set<Permission>)
    requires Unambiguous(missing)
    ensures forall i :: 0 <= i < |Report(missing)| ==>
      Ascending(Report(missing)[i].verbs, StrLeq) && Report(missing)[i].verbs != []
    ensures forall i, j :: 0 <= i < j < |Report(missing)| ==>
      var l, m := Report(missing)[i], Report(missing)[j];
      LineLeq(l, m) && (l.group != m.group || l.resource != m.resource)
  {
    var ps, lines := Arranged(missing), Report(missing);
    forall i | 0 <= i < |lines|
      ensures Ascending(lines[i].verbs, StrLeq) && lines[i].verbs != []
    {
      LineSays(missing, i, Permission("", "", ""));
    }
    forall i, j | 0 <= i < j < |lines|
      ensures LineLeq(lines[i], lines[j]) && LineKey(lines[i]) != LineKey(lines[j])
    {
      LinesAscend(ps, ps, {}, i, j);
    }
  }

  lemma KeyNamesOneLine(missing: set<Permission>, p: Permission, q: Permission)
    requires Reported(missing, p) && Reported(missing, q) && Key(p) == Key(q)
    ensures p.group == q.group && p.resource == q.resource
  {
    var lines := Report(missing);
    var i :| 0 <= i < |lines| && Says(lines[i], p);
    var j :| 0 <= j < |lines| && Says(lines[j], q);
    assert LineKey(lines[i]) == Key(p) == LineKey(lines[j]);
    KeysDiffer(missing, i, j);
  }

  lemma KeysDiffer(missing: set<Permission>, i: nat, j: nat)
    requires i < |Report(missing)| && j < |Report(missing)|
    ensures LineKey(Report(missing)[i]) == LineKey(Report(missing)[j]) ==> i == j
  {
    var ps := Arranged(missing);
    if i < j { LinesAscend(ps, ps, {}, i, j); }
    if j < i { LinesAscend(ps, ps, {}, j, i); }
  }

  /** Every missing permission is reported exactly when no two resources share a key. */
  lemma AllReportedIffUnambiguous(missing: set<Permission>)
    ensures (forall p :: p in missing ==> Reported(missing, p)) <==> Unambiguous(missing)
  {
    if Unambiguous(missing) {
      forall p | p in missing
        ensures Reported(missing, p)
      {
        ReportIsExact(missing, p);
      }
    }
    if forall p :: p in missing ==> Reported(missing, p) {
      forall p, q | p in missing && q in missing && Key(p) == Key(q)
        ensures p.group == q.group && p.resource == q.resource
      {
        KeyNamesOneLine(missing, p, q);
      }
    }
  }

  /** A slash in a group can cost a resource its line. */
  lemma SlashesHideAPermission()
    ensures
      var p, q := Permission("a", "b/c", "get"), Permission("a/b", "c", "get");
      !Unambiguous({p, q}) && (!Reported({p, q}, p) || !Reported({p, q}, q))
  {
    var p, q := Permission("a", "b/c", "get"), Permission("a/b", "c", "get");
    assert Key(p) == "a/b/c" == Key(q);
    assert p in {p, q} && q in {p, q} && "a" != "a/b";
    AllReportedIffUnambiguous({p, q});
  }

  // ----- the program -----

  datatype Outcome =
    | Usage
    | Unreadable
    | NamespacesMissing(lines: seq<Line>)
    | ModuleLacks(lines: seq<Line>)
    | ChartLacks(lines: seq<Line>)
    | Covered
    | InSync

  const NAMESPACE_VERBS := ["create", "patch"]

  function NamespacePermissions(): set<Permission> {
    set verb | verb in NAMESPACE_VERBS :: Permission("", "namespaces", verb)
  }

  /** The members of one set that are not in another, in the order the runtime visits them. */
  method Lacking(wanted: set<Permission>, have: set<Permission>) returns (missing: seq<Permission>)
    ensures Elements(missing) == wanted - have
    ensures forall i, j :: 0 <= i < j < |missing| ==> missing[i] != missing[j]
  {
    missing := [];
    var todo := wanted;
    while todo != {}
      invariant todo <= wanted
      invariant forall x :: x in missing <==> x in wanted - todo - have
      invariant forall i, j :: 0 <= i < j < |missing| ==> missing[i] != missing[j]
    {
      var p :| p in todo;
      if p !in have {
        assert p !in missing;
        missing := missing + [p];
      }
      todo := todo - {p};
    }
  }

  method NamespacesLacking(have: set<Permission>) returns (missing: seq<Permission>)
    ensures Elements(missing) == NamespacePermissions() - have
    ensures forall i, j :: 0 <= i < j < |missing| ==> missing[i] != missing[j]
  {
    missing := [];
    for n := 0 to |NAMESPACE_VERBS|
      invariant forall p :: p in missing <==>
        p !in have && exists k :: 0 <= k < n && p == Permission("", "namespaces", NAMESPACE_VERBS[k])
      invariant forall i, j :: 0 <= i < j < |missing| ==> missing[i] != missing[j]
    {
      var p := Permission("", "namespaces", NAMESPACE_VERBS[n]);
      assert NAMESPACE_VERBS[0] != NAMESPACE_VERBS[1];
      if p !in have {
        assert p !in missing;
        missing := missing + [p];
      }
    }
  }

  lemma NoneLacking(missing: seq<Permission>, wanted: set<Permission>, have: set<Permission>)
    requires Elements(missing) == wanted - have
    ensures missing == [] <==> wanted <= have
  {
    EmptyOrInhabited(missing);
    forall p
      ensures p in missing <==> p in wanted && p !in have
    {
      assert p in Elements(missing) <==> p in wanted - have;
    }
  }

  function Verdict(args: nat, moduleRole: Option<seq<Rule>>, operandRole: Option<seq<Rule>>,
                   chartRole: Option<seq<Rule>>): Outcome {
    if args < 3 || args > 5 then Usage
    else if moduleRole.None? || operandRole.None? then Unreadable
    else
      var modulePerms, operandPerms := Permissions(moduleRole.value), Permissions(operandRole.value);
      if !(NamespacePermissions() <= operandPerms) then NamespacesMissing(Report(NamespacePermissions() - operandPerms))
      else if !(operandPerms <= modulePerms) then ModuleLacks(Report(operandPerms - modulePerms))
      else if args < 5 then Covered
      else if chartRole.None? then Unreadable
      else if !(modulePerms <= Permissions(chartRole.value)) then
        ChartLacks(Report(modulePerms - Permissions(chartRole.value)))
      else InSync
  }

  /** `main`, given what loading each role gives. */
  method VerifyRbac(args: nat, moduleRole: Option<seq<Rule>>, operandRole: Option<seq<Rule>>,
                    chartRole: Option<seq<Rule>>)
    returns (r: Outcome)
    ensures r == Verdict(args, moduleRole, operandRole, chartRole)
  {
    if args < 3 || args > 5 { return Usage; }
    if moduleRole.None? { return Unreadable; }
    if operandRole.None? { return Unreadable; }
    var modulePerms := ExtractPermissions(moduleRole.value);
    var operandPerms := ExtractPermissions(operandRole.value);
    var missingNamespaces := NamespacesLacking(operandPerms);
    NoneLacking(missingNamespaces, NamespacePermissions(), operandPerms);
    if |missingNamespaces| > 0 {
      var lines := PrintMissing(missingNamespaces);
      return NamespacesMissing(lines);
    }
    var missing := Lacking(operandPerms, modulePerms);
    NoneLacking(missing, operandPerms, modulePerms);
    if |missing| > 0 {
      var lines := PrintMissing(missing);
      return ModuleLacks(lines);
    }
    if args == 5 {
      if chartRole.None? { return Unreadable; }
      var chartPerms := ExtractPermissions(chartRole.value);
      var chartMissing := Lacking(modulePerms, chartPerms);
      NoneLacking(chartMissing, modulePerms, chartPerms);
      if |chartMissing| > 0 {
        var lines := PrintMissing(chartMissing);
        return ChartLacks(lines);
      }
      return InSync;
    }
    return Covered;
  }
}
