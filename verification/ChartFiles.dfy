/** How the chart generator groups resources and which file each of them is written to. */
module ChartFiles {
  import opened Wrappers
  import opened GoStrings

  datatype Gvk = Gvk(group: string, version: string, kind: string)

  datatype Resource = Resource(gvk: Gvk, body: string)

  const NAMESPACE := Gvk("", "v1", "Namespace")

  // ----- grouping -----

  /** The resources of a kind, in input order; Namespaces are left out. */
  function GroupOf(rs: seq<Resource>, g: Gvk): seq<Resource> {
    if rs == [] then []
    else (if rs[0].gvk == g && g != NAMESPACE then [rs[0]] else []) + GroupOf(rs[1..], g)
  }

  function Kinds(rs: seq<Resource>): set<Gvk> {
    set r | r in rs && r.gvk != NAMESPACE :: r.gvk
  }

  lemma {:induction false} GroupOfSnoc(rs: seq<Resource>, r: Resource, g: Gvk)
    ensures GroupOf(rs + [r], g) == if r.gvk == g && g != NAMESPACE then GroupOf(rs, g) + [r] else GroupOf(rs, g)
  {
    if rs == [] {
      assert rs + [r] == [r];
      assert GroupOf([r][1..], g) == [];
    } else {
      assert (rs + [r])[1..] == rs[1..] + [r];
      GroupOfSnoc(rs[1..], r, g);
    }
  }

  lemma {:induction false} NoGroup(rs: seq<Resource>, g: Gvk)
    requires g !in Kinds(rs)
    ensures GroupOf(rs, g) == []
  {
    if rs != [] {
      assert rs[0] in rs;
      assert forall r :: r in rs[1..] ==> r in rs;
      NoGroup(rs[1..], g);
    }
  }

  function Groups(rs: seq<Resource>): map<Gvk, seq<Resource>> {
    map g | g in Kinds(rs) :: GroupOf(rs, g)
  }

  lemma GroupsSnoc(rs: seq<Resource>, r: Resource)
    ensures Groups(rs + [r]) ==
      if r.gvk == NAMESPACE then Groups(rs)
      else Groups(rs)[r.gvk := (if r.gvk in Groups(rs) then Groups(rs)[r.gvk] else []) + [r]]
  {
    var more := Groups(rs + [r]);
    KindsSnoc(rs, r);
    if r.gvk == NAMESPACE {
      forall g | g in more
        ensures more[g] == Groups(rs)[g]
      {
        GroupOfSnoc(rs, r, g);
      }
      assert more == Groups(rs);
    } else {
      var updated := Groups(rs)[r.gvk := (if r.gvk in Groups(rs) then Groups(rs)[r.gvk] else []) + [r]];
      if r.gvk !in Groups(rs) { NoGroup(rs, r.gvk); }
      forall g | g in more
        ensures more[g] == updated[g]
      {
        GroupOfSnoc(rs, r, g);
      }
      assert more == updated;
    }
  }

  lemma KindsSnoc(rs: seq<Resource>, r: Resource)
    ensures Kinds(rs + [r]) == if r.gvk == NAMESPACE then Kinds(rs) else Kinds(rs) + {r.gvk}
  {
    assert forall x :: x in rs + [r] <==> x in rs || x == r;
  }

  method GroupByGvk(resources: seq<Resource>) returns (groups: map<Gvk, seq<Resource>>)
    ensures groups == Groups(resources)
  {
    groups := map[];
    for n := 0 to |resources|
      invariant groups == Groups(resources[..n])
    {
      var r := resources[n];
      assert resources[..n + 1] == resources[..n] + [r];
      GroupsSnoc(resources[..n], r);
      if r.gvk == NAMESPACE { continue; }
      groups := groups[r.gvk := (if r.gvk in groups then groups[r.gvk] else []) + [r]];
    }
    assert resources[..|resources|] == resources;
  }

  // ----- file names -----

  function LowerChar(c: char): char {
    if 'A' <= c <= 'Z' then c - 'A' + 'a' else c
  }

  /** `strings.ToLower` on ASCII text. */
  function Lower(s: string): (r: string)
    ensures |r| == |s|
    ensures '_' in r <==> '_' in s
  {
    if s == [] then []
    else
      assert s == [s[0]] + s[1..];
      [LowerChar(s[0])] + Lower(s[1..])
  }

  predicate IsCrd(g: Gvk) {
    g.group == "apiextensions.k8s.io" && g.kind == "CustomResourceDefinition"
  }

  function ShownGroup(group: string): string {
    if Lower(group) == "" then "core" else Lower(group)
  }

  function Filename(g: Gvk): string {
    ShownGroup(g.group) + "_" + Lower(g.version) + "_" + Lower(g.kind) + ".yaml"
  }

  const TEMPLATES := "templates/"
  const CRDS := "crds/"
  const HELPERS := TEMPLATES + "_helpers.tpl"

  function Path(g: Gvk): string {
    (if IsCrd(g) then CRDS else TEMPLATES) + Filename(g)
  }

  /** Neither the group nor the version holds a `_`. */
  predicate Nameable(g: Gvk) {
    '_' !in g.group && '_' !in g.version
  }

  lemma ShownGroupHasNoBar(group: string)
    requires '_' !in group
    ensures '_' !in ShownGroup(group)
  {
    assert '_' !in "core";
  }

  lemma FilenameTells(g: Gvk, h: Gvk)
    requires Nameable(g) && Nameable(h)
    ensures Filename(g) == Filename(h) <==>
      ShownGroup(g.group) == ShownGroup(h.group) && Lower(g.version) == Lower(h.version)
      && Lower(g.kind) == Lower(h.kind)
  {
    ShownGroupHasNoBar(g.group);
    ShownGroupHasNoBar(h.group);
    NameCuts(ShownGroup(g.group), Lower(g.version), Lower(g.kind));
    NameCuts(ShownGroup(h.group), Lower(h.version), Lower(h.kind));
  }

  lemma NameCuts(group: string, version: string, kind: string)
    requires '_' !in group && '_' !in version
    ensures
      var name := group + "_" + version + "_" + kind + ".yaml";
      var rest := After(name, '_');
      var last := After(rest, '_');
      && Before(name, '_') == group && Before(rest, '_') == version && |last| == |kind| + 5 && last[..|kind|] == kind
  {
    var last := kind + ".yaml";
    var rest := version + ['_'] + last;
    assert group + "_" + version + "_" + kind + ".yaml" == group + ['_'] + rest;
    CutAt(group, '_', rest);
    CutAt(version, '_', last);
  }

  /**
    Without a `_` in group or version, two kinds share a file exactly when they are equal up to case,
    or up to spelling out the core group, and both or neither are the definition of custom resources.
   */
  lemma PathTells(g: Gvk, h: Gvk)
    requires Nameable(g) && Nameable(h)
    ensures Path(g) == Path(h) <==>
      && IsCrd(g) == IsCrd(h) && ShownGroup(g.group) == ShownGroup(h.group)
      && Lower(g.version) == Lower(h.version) && Lower(g.kind) == Lower(h.kind)
  {
    FilenameTells(g, h);
    var p, q := Path(g), Path(h);
    assert p[0] == (if IsCrd(g) then 'c' else 't') && q[0] == (if IsCrd(h) then 'c' else 't');
    assert p[(if IsCrd(g) then 5 else 10)..] == Filename(g) && q[(if IsCrd(h) then 5 else 10)..] == Filename(h);
  }

  lemma {:induction false} LowerConcat(a: string, b: string)
    ensures Lower(a + b) == Lower(a) + Lower(b)
  {
    if a == [] {
      assert a + b == b;
    } else {
      assert (a + b)[1..] == a[1..] + b;
      LowerConcat(a[1..], b);
    }
  }

  lemma LowerBar(a: string, b: string)
    ensures Lower(a + "_" + b) == Lower(a) + "_" + Lower(b)
  {
    LowerConcat(a + "_", b);
    LowerConcat(a, "_");
    assert Lower("_") == "_";
  }

  lemma Regroup(a: string, b: string, c: string, d: string)
    ensures (a + "_" + b) + "_" + c + "_" + d == a + "_" + (b + "_" + c) + "_" + d
  {
  }

  /** Where a `_` may stand on either side, files collide. */
  lemma BarsCollide(a: string, b: string, c: string, kind: string)
    requires a != "" && kind != "CustomResourceDefinition"
    ensures Path(Gvk(a + "_" + b, c, kind)) == Path(Gvk(a, b + "_" + c, kind))
  {
    LowerBar(a, b);
    LowerBar(b, c);
    Regroup(Lower(a), Lower(b), Lower(c), Lower(kind));
  }

  /** A group named core shares its files with the core group. */
  lemma CoreCollides(version: string, kind: string)
    ensures Path(Gvk("core", version, kind)) == Path(Gvk("", version, kind))
  {
    assert Lower("core") == "core";
  }

  /** The definitions of custom resources, and nothing else, go to the directory of their own. */
  lemma DefinitionsGoApart(g: Gvk)
    ensures "crds/" <= Path(g) <==> g.group == "apiextensions.k8s.io" && g.kind == "CustomResourceDefinition"
    ensures "templates/" <= Path(g) <==> !(g.group == "apiextensions.k8s.io" && g.kind == "CustomResourceDefinition")
  {
    assert "crds/"[0] == 'c' && "templates/"[0] == 't';
    assert Path(g)[0] == (if IsCrd(g) then 'c' else 't');
  }

  predicate NoCapitals(s: string) {
    forall c :: c in s ==> !('A' <= c <= 'Z')
  }

  lemma {:induction false} LowerAt(s: string, i: nat)
    requires i < |s|
    ensures Lower(s)[i] == if 'A' <= s[i] <= 'Z' then ((s[i] as int) + 32) as char else s[i]
  {
    if i > 0 { LowerAt(s[1..], i - 1); }
  }

  /** Lower-casing turns every capital into the small letter, and changes nothing else. */
  lemma LowerIs(s: string)
    ensures forall i :: 0 <= i < |s| ==>
      Lower(s)[i] == if 'A' <= s[i] <= 'Z' then ((s[i] as int) + 32) as char else s[i]
    ensures NoCapitals(s) ==> Lower(s) == s
  {
    forall i | 0 <= i < |s|
      ensures Lower(s)[i] == if 'A' <= s[i] <= 'Z' then ((s[i] as int) + 32) as char else s[i]
    {
      LowerAt(s, i);
    }
    if NoCapitals(s) { SameLetters(s, Lower(s)); }
  }

  lemma SameLetters(s: string, t: string)
    requires NoCapitals(s) && |t| == |s|
    requires forall i :: 0 <= i < |s| ==> t[i] == if 'A' <= s[i] <= 'Z' then ((s[i] as int) + 32) as char else s[i]
    ensures t == s
  {
    forall i | 0 <= i < |s|
      ensures t[i] == s[i]
    {
      assert s[i] in s;
    }
  }

  lemma DefinitionsHaveCapitals()
    ensures !NoCapitals("CustomResourceDefinition")
  {
    assert "CustomResourceDefinition"[0] == 'C' && 'C' in "CustomResourceDefinition";
  }

  /** The file of a kind written in lower case: group, version and kind, with the core group spelled out. */
  lemma PathOfLowerCase(g: Gvk)
    requires NoCapitals(g.group) && NoCapitals(g.version) && NoCapitals(g.kind)
    ensures
      var group := if g.group == "" then "core" else g.group;
      Path(g) == "templates/" + (group + "_" + g.version + "_" + g.kind + ".yaml")
  {
    LowerIs(g.group);
    LowerIs(g.version);
    LowerIs(g.kind);
    DefinitionsHaveCapitals();
  }

  // ----- which resources end up in which file -----

  /** The resources that belong to a path, in input order. */
  function Placed(rs: seq<Resource>, path: string): seq<Resource> {
    if rs == [] then []
    else (if rs[0].gvk != NAMESPACE && Path(rs[0].gvk) == path then [rs[0]] else []) + Placed(rs[1..], path)
  }

  /** No two kinds among the resources share a path. */
  predicate Separate(rs: seq<Resource>) {
    forall g, h :: g in Kinds(rs) && h in Kinds(rs) && Path(g) == Path(h) ==> g == h
  }

  lemma {:induction false} GroupIsPlaced(rs: seq<Resource>, g: Gvk)
    requires g != NAMESPACE && forall h :: h in Kinds(rs) && Path(h) == Path(g) ==> h == g
    ensures GroupOf(rs, g) == Placed(rs, Path(g))
  {
    if rs != [] {
      assert rs[0] in rs && forall r :: r in rs[1..] ==> r in rs;
      GroupIsPlaced(rs[1..], g);
    }
  }

  lemma {:induction false} GroupHolds(rs: seq<Resource>, g: Gvk, r: Resource)
    ensures multiset(GroupOf(rs, g))[r] == if r.gvk == g && g != NAMESPACE then multiset(rs)[r] else 0
  {
    if rs != [] {
      GroupHolds(rs[1..], g, r);
      assert rs == [rs[0]] + rs[1..];
    }
  }

  /** The file at a path holds the resources that belong there as often as the input, and no others. */
  lemma {:induction false} PlacedHolds(rs: seq<Resource>, path: string, r: Resource)
    ensures multiset(Placed(rs, path))[r] == if r.gvk != NAMESPACE && Path(r.gvk) == path then multiset(rs)[r] else 0
  {
    if rs != [] {
      PlacedHolds(rs[1..], path, r);
      assert rs == [rs[0]] + rs[1..];
    }
  }

  /** Every group is the whole of its file exactly when no two kinds share a path. */
  lemma ConservedIffSeparate(rs: seq<Resource>)
    ensures (forall g :: g in Kinds(rs) ==> GroupOf(rs, g) == Placed(rs, Path(g))) <==> Separate(rs)
  {
    if Separate(rs) {
      forall g | g in Kinds(rs)
        ensures GroupOf(rs, g) == Placed(rs, Path(g))
      {
        GroupIsPlaced(rs, g);
      }
    } else {
      var g, h :| g in Kinds(rs) && h in Kinds(rs) && Path(g) == Path(h) && g != h;
      var r :| r in rs && r.gvk == h;
      GroupHolds(rs, g, r);
      PlacedHolds(rs, Path(g), r);
    }
  }

  function Folded(g: Gvk): (string, string, string) {
    (ShownGroup(g.group), Lower(g.version), Lower(g.kind))
  }

  /** What a caller can check: no `_`, no spelled-out core group, no two kinds equal up to case. */
  lemma SeparateWhenDistinct(rs: seq<Resource>)
    requires forall g :: g in Kinds(rs) ==> Nameable(g)
    ensures Separate(rs) <==>
      forall g, h :: g in Kinds(rs) && h in Kinds(rs) && Folded(g) == Folded(h) && IsCrd(g) == IsCrd(h) ==> g == h
  {
    forall g, h | g in Kinds(rs) && h in Kinds(rs)
      ensures Path(g) == Path(h) <==> Folded(g) == Folded(h) && IsCrd(g) == IsCrd(h)
    {
      PathTells(g, h);
    }
  }

  /** A resource that comes last in the input comes last in its file, and Namespaces are in none. */
  lemma {:induction false} PlacedSnoc(rs: seq<Resource>, r: Resource, path: string)
    ensures Placed(rs + [r], path) ==
      if Path(r.gvk) == path && !(r.gvk.group == "" && r.gvk.version == "v1" && r.gvk.kind == "Namespace")
      then Placed(rs, path) + [r] else Placed(rs, path)
  {
    if rs == [] {
      assert rs + [r] == [r];
      assert Placed([r][1..], path) == [];
    } else {
      assert (rs + [r])[1..] == rs[1..] + [r];
      PlacedSnoc(rs[1..], r, path);
    }
  }

  // ----- writing -----

  const SEPARATOR := "\n---\n"

  type Renderer = Resource -> Option<string>

  predicate Renders(render: Renderer, rs: seq<Resource>) {
    forall r :: r in rs ==> render(r).Some?
  }

  /** The parts of a file, joined. */
  function Content(render: Renderer, rs: seq<Resource>): string
    requires Renders(render, rs)
  {
    JoinWith(seq(|rs|, i requires 0 <= i < |rs| => render(rs[i]).value), SEPARATOR)
  }

  /** The text of a file: the texts of its resources in order, with a document separator between two. */
  lemma ContentGrows(render: Renderer, rs: seq<Resource>, r: Resource)
    requires Renders(render, rs) && render(r).Some?
    ensures Renders(render, rs + [r])
    ensures Content(render, rs + [r]) ==
      if rs == [] then render(r).value else Content(render, rs) + "\n---\n" + render(r).value
  {
    var parts := seq(|rs|, i requires 0 <= i < |rs| => render(rs[i]).value);
    var all := rs + [r];
    var more := seq(|all|, i requires 0 <= i < |all| => render(all[i]).value);
    assert more == parts + [render(r).value];
    JoinSnoc(parts, render(r).value);
  }

  lemma {:induction false} JoinSnoc(parts: seq<string>, last: string)
    ensures JoinWith(parts + [last], SEPARATOR) ==
      if parts == [] then last else JoinWith(parts, SEPARATOR) + SEPARATOR + last
  {
    if parts == [] {
      assert parts + [last] == [last];
    } else {
      assert (parts + [last])[1..] == parts[1..] + [last];
      JoinSnoc(parts[1..], last);
      var rest := JoinWith(parts[1..], SEPARATOR);
      assert parts[0] + SEPARATOR + (rest + SEPARATOR + last) == parts[0] + SEPARATOR + rest + SEPARATOR + last;
    }
  }

  method RenderGroup(render: Renderer, rs: seq<Resource>) returns (content: Option<string>)
    ensures content == if Renders(render, rs) then Some(Content(render, rs)) else None
  {
    var parts: seq<string> := [];
    for n := 0 to |rs|
      invariant Renders(render, rs[..n]) && |parts| == n
      invariant forall i :: 0 <= i < n ==> render(rs[i]) == Some(parts[i])
    {
      var part := render(rs[n]);
      if part.None? {
        return None;
      }
      assert rs[..n + 1] == rs[..n] + [rs[n]];
      parts := parts + [part.value];
    }
    assert rs[..|rs|] == rs;
    assert parts == seq(|rs|, i requires 0 <= i < |rs| => render(rs[i]).value);
    return Some(JoinWith(parts, SEPARATOR));
  }

  predicate IsPathOf(pathOf: Gvk -> string, kinds: set<Gvk>, path: string) {
    exists g :: g in kinds && pathOf(g) == path
  }

  ghost predicate HoldsGroup(pathOf: Gvk -> string, render: Renderer, groups: map<Gvk, seq<Resource>>, g: Gvk,
                             path: string, text: string)
    requires g in groups
  {
    pathOf(g) == path && Renders(render, groups[g]) && text == Content(render, groups[g])
  }

  /** Each path of these kinds holds the group of one of them, and all else is untouched. */
  ghost predicate WrittenBy(pathOf: Gvk -> string, render: Renderer, disk: map<string, string>,
                            files: map<string, string>,
                            groups: map<Gvk, seq<Resource>>, done: set<Gvk>)
    requires done <= groups.Keys
  {
    && (forall p :: p in files <==> p in disk || IsPathOf(pathOf, done, p))
    && (forall p :: p in files ==>
          if IsPathOf(pathOf, done, p) then exists g :: g in done && HoldsGroup(pathOf, render, groups, g, p, files[p])
          else files[p] == disk[p])
  }

  lemma WriteOne(pathOf: Gvk -> string, render: Renderer, disk: map<string, string>, files: map<string, string>,
                 groups: map<Gvk, seq<Resource>>, done: set<Gvk>, g: Gvk)
    requires done <= groups.Keys && g in groups && Renders(render, groups[g])
    requires WrittenBy(pathOf, render, disk, files, groups, done)
    ensures WrittenBy(pathOf, render, disk, files[pathOf(g) := Content(render, groups[g])], groups, done + {g})
  {
    var text, path := Content(render, groups[g]), pathOf(g);
    forall p
      ensures IsPathOf(pathOf, done + {g}, p) <==> p == path || IsPathOf(pathOf, done, p)
    {
      assert g in done + {g};
    }
    assert HoldsGroup(pathOf, render, groups, g, path, text);
    forall p | p != path && p in files && IsPathOf(pathOf, done, p)
      ensures exists h :: h in done + {g} && HoldsGroup(pathOf, render, groups, h, p, files[p])
    {
      var h :| h in done && HoldsGroup(pathOf, render, groups, h, p, files[p]);
      assert h in done + {g};
    }
  }

  /** The loop over the groups, in whatever order the runtime visits them; it stops at an error. */
  method WriteGroups(render: Renderer, disk: map<string, string>, groups: map<Gvk, seq<Resource>>)
    returns (ok: bool, files: map<string, string>)
    ensures ok <==> forall g :: g in groups ==> Renders(render, groups[g])
    ensures ok ==> WrittenBy(Path, render, disk, files, groups, groups.Keys)
    ensures exists done :: done <= groups.Keys && WrittenBy(Path, render, disk, files, groups, done)
  {
    files := disk;
    var todo := groups.Keys;
    ghost var done: set<Gvk> := {};
    while todo != {}
      invariant todo <= groups.Keys && done == groups.Keys - todo
      invariant forall g :: g in done ==> Renders(render, groups[g])
      invariant WrittenBy(Path, render, disk, files, groups, done)
    {
      var g :| g in todo;
      var content := RenderGroup(render, groups[g]);
      if content.None? {
        return false, files;
      }
      WriteOne(Path, render, disk, files, groups, done, g);
      files := files[Path(g) := content.value];
      done := done + {g};
      todo := todo - {g};
    }
    assert done == groups.Keys;
    ok := true;
  }

  /** All the resources of each file, in input order, and every other file as it was. */
  ghost predicate Conserves(render: Renderer, helpers: string, disk: map<string, string>, rs: seq<Resource>,
                            files: map<string, string>) {
    && (forall p :: p in files <==> p in disk || p == HELPERS || IsPathOf(Path, Kinds(rs), p))
    && (forall p :: p in files ==>
          if IsPathOf(Path, Kinds(rs), p)
            then Renders(render, Placed(rs, p)) && files[p] == Content(render, Placed(rs, p))
          else files[p] == if p == HELPERS then helpers else disk[p])
  }

  lemma NoClashWithHelpers(g: Gvk)
    ensures Path(g) != HELPERS
  {
    var p := Path(g);
    assert HELPERS[|HELPERS| - 1] == 'l';
    var name := Filename(g);
    assert name[|name| - 1] == 'l' && name[|name| - 3] == 'a';
    assert HELPERS[|HELPERS| - 3] == 't';
  }

  lemma {:induction false} GroupMembers(rs: seq<Resource>, g: Gvk, r: Resource)
    ensures r in GroupOf(rs, g) <==> r in rs && r.gvk == g && g != NAMESPACE
  {
    GroupHolds(rs, g, r);
    assert r in GroupOf(rs, g) <==> multiset(GroupOf(rs, g))[r] > 0;
    assert r in rs <==> multiset(rs)[r] > 0;
  }

  lemma AllGroupsRender(render: Renderer, rs: seq<Resource>)
    ensures (forall g :: g in Groups(rs) ==> Renders(render, Groups(rs)[g]))
      <==> forall r :: r in rs && r.gvk != NAMESPACE ==> render(r).Some?
  {
    forall r, g
      ensures r in GroupOf(rs, g) <==> r in rs && r.gvk == g && g != NAMESPACE
    {
      GroupMembers(rs, g, r);
    }
    if forall g :: g in Groups(rs) ==> Renders(render, Groups(rs)[g]) {
      forall r | r in rs && r.gvk != NAMESPACE
        ensures render(r).Some?
      {
        assert r.gvk in Groups(rs) && r in Groups(rs)[r.gvk];
      }
    }
  }

  lemma AllWrittenConserves(render: Renderer, helpers: string, disk: map<string, string>, rs: seq<Resource>,
                            files: map<string, string>)
    requires Separate(rs) && WrittenBy(Path, render, disk[HELPERS := helpers], files, Groups(rs), Groups(rs).Keys)
    ensures Conserves(render, helpers, disk, rs, files)
  {
    forall p | p in files && IsPathOf(Path, Kinds(rs), p)
      ensures Renders(render, Placed(rs, p)) && files[p] == Content(render, Placed(rs, p))
    {
      var g :| g in Groups(rs).Keys && HoldsGroup(Path, render, Groups(rs), g, p, files[p]);
      GroupIsPlaced(rs, g);
    }
  }

  /**
    Groups the resources and writes the files over what is on disk.  It succeeds exactly when every
    resource that is not a Namespace can be rendered; when no two kinds share a path, every file then
    holds all its resources, whatever the order of the writes.
   */
  method WriteChart(render: Renderer, helpers: string, disk: map<string, string>, resources: seq<Resource>)
    returns (ok: bool, files: map<string, string>)
    ensures ok <==> forall r :: r in resources && r.gvk != NAMESPACE ==> render(r).Some?
    ensures ok && Separate(resources) ==> Conserves(render, helpers, disk, resources, files)
  {
    var groups := GroupByGvk(resources);
    files := disk[HELPERS := helpers];
    ok, files := WriteGroups(render, files, groups);
    AllGroupsRender(render, resources);
    if ok && Separate(resources) {
      AllWrittenConserves(render, helpers, disk, resources, files);
    }
  }
}
