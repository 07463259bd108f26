/** Skill dependencies: the depth-first search of ManualSkillResolver over a catalogue of skills.

    The catalogue says what reading the binding of a requested name gives: the frontmatter of the
    skill found there, whose own `name` need not be the requested one, or an error. */
module SkillResolver {
  import opened Outcomes

  datatype Meta = Meta(name: string, version: string, needs: seq<string>)

  type Catalog = map<string, Outcome<Meta>>

  /** A request for a skill; an empty version asks for any. */
  datatype Binding = Binding(name: string, version: string)

  /** _read_binding_meta */
  function Read(cat: Catalog, b: Binding): Outcome<Meta> {
    if b.name !in cat then Err(SkillNotFound)
    else if cat[b.name].Err? then cat[b.name]
    else if b.version != "" && b.version != cat[b.name].value.version then Err(SkillIncompatible)
    else cat[b.name]
  }

  function Names(cat: Catalog): set<string> {
    set r | r in cat && cat[r].Ok? :: cat[r].value.name
  }

  /** The dict of resolved skills, in insertion order. */
  function Find(resolved: seq<Meta>, name: string): Option<Meta> {
    if resolved == [] then None
    else if resolved[0].name == name then Some(resolved[0])
    else Find(resolved[1..], name)
  }

  /** What _resolve_skill_tree makes of the resolved skills. */
  function Resolve(cat: Catalog, b: Binding, resolved: seq<Meta>, visiting: set<string>): Outcome<seq<Meta>>
    decreases Names(cat) - visiting, 0
  {
    var read := Read(cat, b);
    if read.Err? then Err(read.error)
    else
      var meta := read.value;
      assert meta.name in Names(cat);
      var known := Find(resolved, meta.name);
      if known.Some? then if known.value.version != meta.version then Err(SkillIncompatible) else Ok(resolved)
      else if meta.name in visiting then Err(SkillIncompatible)
      else
        assert meta.name in Names(cat) - visiting && meta.name !in Names(cat) - (visiting + {meta.name});
        var below := ResolveAll(cat, meta.needs, resolved, visiting + {meta.name});
        if below.Err? then below else Ok(below.value + [meta])
  }

  function ResolveAll(cat: Catalog, needs: seq<string>, resolved: seq<Meta>, visiting: set<string>): Outcome<seq<Meta>>
    decreases Names(cat) - visiting, 1 + |needs|
  {
    if needs == [] then Ok(resolved)
    else
      var first := Resolve(cat, Binding(needs[0], ""), resolved, visiting);
      if first.Err? then first else ResolveAll(cat, needs[1..], first.value, visiting)
  }

  class ManualSkillResolver {
    const catalog: Catalog
    var resolved: seq<Meta>
    var visiting: set<string>

    constructor (catalog: Catalog)
      ensures this.catalog == catalog && resolved == [] && visiting == {}
    {
      this.catalog := catalog;
      resolved, visiting := [], {};
    }

    method ResolveTree(b: Binding) returns (done: Outcome<()>)
      modifies this
      ensures done.Err? ==> Resolve(catalog, b, old(resolved), old(visiting)) == Err(done.error)
      ensures done.Ok? ==> Resolve(catalog, b, old(resolved), old(visiting)) == Ok(resolved) && visiting == old(visiting)
      decreases Names(catalog) - visiting
    {
      var read := Read(catalog, b);
      if read.Err? { return Err(read.error); }
      var meta := read.value;
      var known := Find(resolved, meta.name);
      if known.Some? {
        return if known.value.version != meta.version then Err(SkillIncompatible) else Ok(());
      }
      if meta.name in visiting { return Err(SkillIncompatible); }
      assert meta.name in Names(catalog) - visiting;
      visiting := visiting + {meta.name};
      ghost var before, inside := resolved, visiting;
      for i := 0 to |meta.needs|
        invariant visiting == inside
        invariant ResolveAll(catalog, meta.needs, before, inside) == ResolveAll(catalog, meta.needs[i..], resolved, inside)
      {
        assert meta.needs[i..][1..] == meta.needs[i + 1..];
        done := ResolveTree(Binding(meta.needs[i], ""));
        if done.Err? { return; }
      }
      assert meta.needs[|meta.needs|..] == [];
      visiting := visiting - {meta.name};
      assert visiting == old(visiting);
      resolved := resolved + [meta];
      return Ok(());
    }

    /** The roots of a request, one after the other. */
    method ResolveRoots(roots: seq<Binding>) returns (done: Outcome<()>)
      requires resolved == [] && visiting == {}
      modifies this
      ensures done.Err? ==> ResolveEach(catalog, roots) == Err(done.error)
      ensures done.Ok? ==> ResolveEach(catalog, roots) == Ok(resolved)
    {
      for i := 0 to |roots|
        invariant visiting == {} && ResolveEach(catalog, roots[..i]) == Ok(resolved)
      {
        assert roots[..i + 1][..i] == roots[..i];
        done := ResolveTree(roots[i]);
        if done.Err? {
          ErrorStays(catalog, roots, i + 1);
          return;
        }
      }
      assert roots[..|roots|] == roots;
      return Ok(());
    }
  }

  function ResolveEach(cat: Catalog, roots: seq<Binding>): Outcome<seq<Meta>> {
    if roots == [] then Ok([])
    else
      var before := ResolveEach(cat, roots[..|roots| - 1]);
      if before.Err? then before else Resolve(cat, roots[|roots| - 1], before.value, {})
  }

  lemma {:induction false} ErrorStays(cat: Catalog, roots: seq<Binding>, n: nat)
    requires n <= |roots| && ResolveEach(cat, roots[..n]).Err?
    ensures ResolveEach(cat, roots) == ResolveEach(cat, roots[..n])
  {
    if n < |roots| {
      assert roots[..|roots| - 1][..n] == roots[..n];
      ErrorStays(cat, roots[..|roots| - 1], n);
    } else {
      assert roots[..n] == roots;
    }
  }

  // ----- Order, uniqueness, closure -----

  /** The skill that a dependency names is resolved before position i, at the version read for it. */
  predicate Earlier(cat: Catalog, resolved: seq<Meta>, i: nat, need: string)
    requires i <= |resolved|
  {
    var read := Read(cat, Binding(need, ""));
    read.Ok? && exists j :: 0 <= j < i && resolved[j].name == read.value.name && resolved[j].version == read.value.version
  }

  /** No name twice, and every dependency before its dependent. */
  ghost predicate Topological(cat: Catalog, resolved: seq<Meta>) {
    && (forall i, j :: 0 <= i < j < |resolved| ==> resolved[i].name != resolved[j].name)
    && (forall i, d :: 0 <= i < |resolved| && d in resolved[i].needs ==> Earlier(cat, resolved, i, d))
  }

  predicate Has(resolved: seq<Meta>, meta: Meta) {
    exists i :: 0 <= i < |resolved| && resolved[i].name == meta.name && resolved[i].version == meta.version
  }

  lemma {:induction false} FindFinds(resolved: seq<Meta>, name: string)
    ensures Find(resolved, name).Some? ==> Find(resolved, name).value in resolved && Find(resolved, name).value.name == name
    ensures Find(resolved, name).None? ==> forall i :: 0 <= i < |resolved| ==> resolved[i].name != name
  {
    if resolved != [] { FindFinds(resolved[1..], name); }
  }

  /** One search: what was resolved stays, what was asked for is there, the order is topological, and
      no name that was being visited has come in. */
  lemma {:induction false} ResolveIsTopological(cat: Catalog, b: Binding, resolved: seq<Meta>, visiting: set<string>)
    requires Topological(cat, resolved) && Resolve(cat, b, resolved, visiting).Ok?
    ensures var after := Resolve(cat, b, resolved, visiting).value;
      && Topological(cat, after) && resolved <= after && Read(cat, b).Ok? && Has(after, Read(cat, b).value)
      && (forall i :: |resolved| <= i < |after| ==> after[i].name !in visiting)
    decreases Names(cat) - visiting, 0
  {
    var meta := Read(cat, b).value;
    FindFinds(resolved, meta.name);
    if Find(resolved, meta.name).Some? {
      var i :| 0 <= i < |resolved| && resolved[i] == Find(resolved, meta.name).value;
      assert Has(resolved, meta);
    } else {
      assert meta.name in Names(cat) - visiting && meta.name !in Names(cat) - (visiting + {meta.name});
      ResolveAllIsTopological(cat, meta.needs, resolved, visiting + {meta.name});
      var below := ResolveAll(cat, meta.needs, resolved, visiting + {meta.name}).value;
      AddLast(cat, resolved, below, meta, visiting);
    }
  }

  lemma EarlierKept(cat: Catalog, below: seq<Meta>, after: seq<Meta>, i: nat, d: string)
    requires below <= after && i <= |below| && Earlier(cat, below, i, d)
    ensures Earlier(cat, after, i, d)
  {
    var read := Read(cat, Binding(d, ""));
    var j :| 0 <= j < i && below[j].name == read.value.name && below[j].version == read.value.version;
    assert after[j] == below[j];
  }

  lemma AddLast(cat: Catalog, resolved: seq<Meta>, below: seq<Meta>, meta: Meta, visiting: set<string>)
    requires Topological(cat, below) && resolved <= below
    requires forall i :: 0 <= i < |resolved| ==> resolved[i].name != meta.name
    requires forall i :: |resolved| <= i < |below| ==> below[i].name !in visiting + {meta.name}
    requires forall d :: d in meta.needs ==> Earlier(cat, below, |below|, d)
    requires meta.name !in visiting
    ensures var after := below + [meta];
      && Topological(cat, after) && resolved <= after && Has(after, meta)
      && (forall i :: |resolved| <= i < |after| ==> after[i].name !in visiting)
  {
    var after := below + [meta];
    forall i, d | 0 <= i < |after| && d in after[i].needs ensures Earlier(cat, after, i, d) {
      assert i < |below| ==> Earlier(cat, below, i, d);
      EarlierKept(cat, below, after, i, d);
    }
    assert after[|below|] == meta;
  }

  lemma {:induction false} ResolveAllIsTopological(cat: Catalog, needs: seq<string>, resolved: seq<Meta>, visiting: set<string>)
    requires Topological(cat, resolved) && ResolveAll(cat, needs, resolved, visiting).Ok?
    ensures var after := ResolveAll(cat, needs, resolved, visiting).value;
      && Topological(cat, after) && resolved <= after
      && (forall d :: d in needs ==> Earlier(cat, after, |after|, d))
      && (forall i :: |resolved| <= i < |after| ==> after[i].name !in visiting)
    decreases Names(cat) - visiting, 1 + |needs|
  {
    if needs != [] {
      var b := Binding(needs[0], "");
      ResolveIsTopological(cat, b, resolved, visiting);
      var first := Resolve(cat, b, resolved, visiting).value;
      ResolveAllIsTopological(cat, needs[1..], first, visiting);
      var after := ResolveAll(cat, needs[1..], first, visiting).value;
      var i :| 0 <= i < |first| && first[i].name == Read(cat, b).value.name && first[i].version == Read(cat, b).value.version;
      assert after[i] == first[i];
      assert Earlier(cat, after, |after|, needs[0]);
      forall d | d in needs ensures Earlier(cat, after, |after|, d) {
        assert d == needs[0] || d in needs[1..];
      }
    }
  }

  /** The skills of a snapshot: no name twice, closed under dependencies, dependencies first, and every
      root among them. */
  lemma {:induction false} SnapshotIsTopological(cat: Catalog, roots: seq<Binding>)
    requires ResolveEach(cat, roots).Ok?
    ensures Topological(cat, ResolveEach(cat, roots).value)
    ensures forall b :: b in roots ==> Read(cat, b).Ok? && Has(ResolveEach(cat, roots).value, Read(cat, b).value)
  {
    if roots != [] {
      var init, last := roots[..|roots| - 1], roots[|roots| - 1];
      SnapshotIsTopological(cat, init);
      var before, after := ResolveEach(cat, init).value, ResolveEach(cat, roots).value;
      ResolveIsTopological(cat, last, before, {});
      forall b | b in roots ensures Read(cat, b).Ok? && Has(after, Read(cat, b).value) {
        if b in init {
          var i :| 0 <= i < |before| && before[i].name == Read(cat, b).value.name && before[i].version == Read(cat, b).value.version;
          assert after[i] == before[i];
        } else {
          assert roots == init + [last];
        }
      }
    }
  }

  /** A root that asks for a version gets that version. */
  lemma RootsGetTheirVersions(cat: Catalog, roots: seq<Binding>, b: Binding)
    requires ResolveEach(cat, roots).Ok? && b in roots
    ensures b.name in cat && cat[b.name].Ok?
    ensures exists i :: && 0 <= i < |ResolveEach(cat, roots).value|
                        && ResolveEach(cat, roots).value[i].name == cat[b.name].value.name
                        && (b.version != "" ==> ResolveEach(cat, roots).value[i].version == b.version)
  {
    SnapshotIsTopological(cat, roots);
    hide ResolveEach, Topological;
    var resolved := ResolveEach(cat, roots).value;
    assert Read(cat, b).Ok? && Has(resolved, Read(cat, b).value);
  }

  // ----- When the search fails -----

  /** Requests, each a dependency of the one before; the last need not be readable. */
  ghost predicate Chain(cat: Catalog, p: seq<string>) {
    forall i :: 0 <= i < |p| - 1 ==> p[i] in cat && cat[p[i]].Ok? && p[i + 1] in cat[p[i]].value.needs
  }

  ghost predicate Leads(cat: Catalog, p: seq<string>, roots: seq<Binding>, r: string) {
    Chain(cat, p) && p != [] && p[|p| - 1] == r && exists b :: b in roots && b.name == p[0]
  }

  /** A request that the roots, or what they need, can lead to. */
  ghost predicate Reached(cat: Catalog, roots: seq<Binding>, r: string) {
    exists p :: Leads(cat, p, roots, r)
  }

  /** Every lookup succeeds. */
  ghost predicate Readable(cat: Catalog, roots: seq<Binding>) {
    && (forall b :: b in roots ==> Read(cat, b).Ok?)
    && (forall r :: Reached(cat, roots, r) ==> r in cat && cat[r].Ok?)
  }

  predicate SameName(cat: Catalog, r: string, q: string) {
    r in cat && q in cat && cat[r].Ok? && cat[q].Ok? && cat[r].value.name == cat[q].value.name
  }

  /** No version conflict: requests that read one name read one version of it. */
  ghost predicate OneVersion(cat: Catalog, s: set<string>) {
    forall r, q :: r in s && q in s && SameName(cat, r, q) ==> cat[r].value.version == cat[q].value.version
  }

  /** Requests that read one name read one skill. */
  ghost predicate Consistent(cat: Catalog, s: set<string>) {
    forall r, q :: r in s && q in s && SameName(cat, r, q) ==> cat[r] == cat[q]
  }

  /** The requests that a search from the roots can come to. */
  ghost function Scope(cat: Catalog, roots: seq<Binding>): set<string> {
    set r | r in cat && Reached(cat, roots, r)
  }

  /** Readable requests that contain all that they need. */
  ghost predicate Closed(cat: Catalog, s: set<string>) {
    forall r :: r in s ==> r in cat && cat[r].Ok? && forall d :: d in cat[r].value.needs ==> d in s
  }

  lemma ScopeIsClosed(cat: Catalog, roots: seq<Binding>)
    requires Readable(cat, roots)
    ensures Closed(cat, Scope(cat, roots)) && forall b :: b in roots ==> b.name in Scope(cat, roots)
  {
    var s := Scope(cat, roots);
    forall b | b in roots ensures b.name in s {
      assert Leads(cat, [b.name], roots, b.name);
    }
    forall r, d | r in s && d in cat[r].value.needs ensures d in s {
      NeedIsReached(cat, roots, r, d);
    }
  }

  lemma NeedIsReached(cat: Catalog, roots: seq<Binding>, r: string, d: string)
    requires Reached(cat, roots, r) && r in cat && cat[r].Ok? && d in cat[r].value.needs
    ensures Reached(cat, roots, d)
  {
    var p :| Leads(cat, p, roots, r);
    assert Leads(cat, p + [d], roots, d);
  }

  /** Readable requests, each a dependency of the one before. */
  ghost predicate Path(cat: Catalog, p: seq<string>) {
    && (forall i :: 0 <= i < |p| ==> p[i] in cat && cat[p[i]].Ok?)
    && (forall i :: 0 <= i < |p| - 1 ==> p[i + 1] in cat[p[i]].value.needs)
  }

  /** The path comes twice to one name. */
  ghost predicate Loops(cat: Catalog, p: seq<string>)
    requires Path(cat, p)
  {
    exists i, j :: 0 <= i < j < |p| && cat[p[i]].value.name == cat[p[j]].value.name
  }

  ghost predicate CycleFrom(cat: Catalog, start: seq<string>) {
    exists p :: start <= p && Path(cat, p) && Loops(cat, p)
  }

  ghost predicate SomeCycle(cat: Catalog, roots: seq<Binding>) {
    exists i :: 0 <= i < |roots| && CycleFrom(cat, [roots[i].name])
  }

  /** Every resolved skill was read for one of these requests. */
  ghost predicate Sourced(cat: Catalog, s: set<string>, resolved: seq<Meta>) {
    forall i :: 0 <= i < |resolved| ==> exists r :: r in s && r in cat && cat[r] == Ok(resolved[i])
  }

  lemma {:induction false} ResolveIsSourced(cat: Catalog, s: set<string>, b: Binding, resolved: seq<Meta>, visiting: set<string>)
    requires Closed(cat, s) && b.name in s && Sourced(cat, s, resolved) && Resolve(cat, b, resolved, visiting).Ok?
    ensures Sourced(cat, s, Resolve(cat, b, resolved, visiting).value)
    decreases Names(cat) - visiting, 0
  {
    var meta := Read(cat, b).value;
    if Find(resolved, meta.name).None? {
      assert meta.name in Names(cat) - visiting && meta.name !in Names(cat) - (visiting + {meta.name});
      ResolveAllIsSourced(cat, s, meta.needs, resolved, visiting + {meta.name});
      assert cat[b.name] == Ok(meta);
    }
  }

  lemma {:induction false} ResolveAllIsSourced(cat: Catalog, s: set<string>, needs: seq<string>, resolved: seq<Meta>,
                                               visiting: set<string>)
    requires Closed(cat, s) && (forall d :: d in needs ==> d in s)
    requires Sourced(cat, s, resolved) && ResolveAll(cat, needs, resolved, visiting).Ok?
    ensures Sourced(cat, s, ResolveAll(cat, needs, resolved, visiting).value)
    decreases Names(cat) - visiting, 1 + |needs|
  {
    if needs != [] {
      assert needs[0] in needs && forall d :: d in needs[1..] ==> d in needs;
      ResolveIsSourced(cat, s, Binding(needs[0], ""), resolved, visiting);
      ResolveAllIsSourced(cat, s, needs[1..], Resolve(cat, Binding(needs[0], ""), resolved, visiting).value, visiting);
    }
  }

  lemma {:induction false} SnapshotIsSourced(cat: Catalog, s: set<string>, roots: seq<Binding>)
    requires Closed(cat, s) && (forall b :: b in roots ==> b.name in s) && ResolveEach(cat, roots).Ok?
    ensures Sourced(cat, s, ResolveEach(cat, roots).value)
  {
    if roots != [] {
      var init, last := roots[..|roots| - 1], roots[|roots| - 1];
      assert last in roots && forall b :: b in init ==> b in roots;
      SnapshotIsSourced(cat, s, init);
      ResolveIsSourced(cat, s, last, ResolveEach(cat, init).value, {});
    }
  }

  /** The requests on the stack have exactly the names being visited. */
  ghost predicate Stacked(cat: Catalog, stack: seq<string>, visiting: set<string>)
    requires Path(cat, stack)
  {
    forall name :: name in visiting <==> exists i :: 0 <= i < |stack| && cat[stack[i]].value.name == name
  }

  lemma PathGrows(cat: Catalog, stack: seq<string>, r: string)
    requires Path(cat, stack) && r in cat && cat[r].Ok? && (stack != [] ==> r in cat[stack[|stack| - 1]].value.needs)
    ensures Path(cat, stack + [r])
  {
  }

  lemma StackGrows(cat: Catalog, stack: seq<string>, r: string, visiting: set<string>)
    requires Path(cat, stack) && Path(cat, stack + [r]) && Stacked(cat, stack, visiting) && r in cat && cat[r].Ok?
    ensures Stacked(cat, stack + [r], visiting + {cat[r].value.name})
  {
    var more, names := stack + [r], visiting + {cat[r].value.name};
    assert more[|stack|] == r;
    forall name ensures name in names <==> exists i :: 0 <= i < |more| && cat[more[i]].value.name == name {
      if name in visiting {
        var i :| 0 <= i < |stack| && cat[stack[i]].value.name == name;
        assert more[i] == stack[i];
      }
      if i :| 0 <= i < |more| && cat[more[i]].value.name == name {
        assert i < |stack| ==> more[i] == stack[i];
      }
    }
  }

  lemma KnownHasVersion(cat: Catalog, s: set<string>, r: string, resolved: seq<Meta>)
    requires Closed(cat, s) && OneVersion(cat, s) && Sourced(cat, s, resolved) && r in s
    ensures Find(resolved, cat[r].value.name).Some? ==>
              Find(resolved, cat[r].value.name).value.version == cat[r].value.version
  {
    FindFinds(resolved, cat[r].value.name);
  }

  /** A search that fails below a stack of requests has found a cycle below it. */
  lemma {:induction false} FailureIsCycle(cat: Catalog, s: set<string>, b: Binding, resolved: seq<Meta>,
                                          visiting: set<string>, stack: seq<string>)
    requires Closed(cat, s) && OneVersion(cat, s) && Sourced(cat, s, resolved) && b.name in s && Read(cat, b).Ok?
    requires Path(cat, stack) && Path(cat, stack + [b.name]) && Stacked(cat, stack, visiting)
    requires Resolve(cat, b, resolved, visiting).Err?
    ensures CycleFrom(cat, stack + [b.name])
    decreases Names(cat) - visiting, 0
  {
    var r := b.name;
    var meta, p := cat[r].value, stack + [r];
    KnownHasVersion(cat, s, r, resolved);
    if meta.name in visiting {
      var i :| 0 <= i < |stack| && cat[stack[i]].value.name == meta.name;
      assert p[i] == stack[i] && p[|stack|] == r;
      assert Loops(cat, p);
    } else if Find(resolved, meta.name).None? {
      assert meta.name in Names(cat) - visiting && meta.name !in Names(cat) - (visiting + {meta.name});
      StackGrows(cat, stack, r, visiting);
      FailureBelowIsCycle(cat, s, meta.needs, resolved, visiting + {meta.name}, p);
    }
  }

  lemma {:induction false} FailureBelowIsCycle(cat: Catalog, s: set<string>, needs: seq<string>, resolved: seq<Meta>,
                                               visiting: set<string>, stack: seq<string>)
    requires Closed(cat, s) && OneVersion(cat, s) && Sourced(cat, s, resolved)
    requires stack != [] && Path(cat, stack) && Stacked(cat, stack, visiting)
    requires forall d :: d in needs ==> d in s && d in cat[stack[|stack| - 1]].value.needs
    requires ResolveAll(cat, needs, resolved, visiting).Err?
    ensures CycleFrom(cat, stack)
    decreases Names(cat) - visiting, 1 + |needs|
  {
    var d := needs[0];
    var first := Resolve(cat, Binding(d, ""), resolved, visiting);
    assert d in needs && d in cat[stack[|stack| - 1]].value.needs;
    assert forall e :: e in needs[1..] ==> e in needs;
    if first.Err? {
      PathGrows(cat, stack, d);
      FailureIsCycle(cat, s, Binding(d, ""), resolved, visiting, stack);
      var p :| stack + [d] <= p && Path(cat, p) && Loops(cat, p);
      assert stack <= stack + [d] <= p;
    } else {
      ResolveIsSourced(cat, s, Binding(d, ""), resolved, visiting);
      FailureBelowIsCycle(cat, s, needs[1..], first.value, visiting, stack);
    }
  }

  lemma {:induction false} SnapshotFailureIsCycle(cat: Catalog, s: set<string>, roots: seq<Binding>)
    requires Closed(cat, s) && OneVersion(cat, s) && (forall b :: b in roots ==> b.name in s && Read(cat, b).Ok?)
    requires ResolveEach(cat, roots).Err?
    ensures SomeCycle(cat, roots)
  {
    var init, last := roots[..|roots| - 1], roots[|roots| - 1];
    assert last in roots && forall b :: b in init ==> b in roots;
    if ResolveEach(cat, init).Err? {
      SnapshotFailureIsCycle(cat, s, init);
      var i :| 0 <= i < |init| && CycleFrom(cat, [init[i].name]);
      assert roots[i] == init[i];
    } else {
      SnapshotIsSourced(cat, s, init);
      assert [] + [last.name] == [last.name];
      FailureIsCycle(cat, s, last, ResolveEach(cat, init).value, {}, []);
      assert CycleFrom(cat, [roots[|roots| - 1].name]);
    }
  }

  /** The position of the skill that a request reads. */
  ghost predicate At(cat: Catalog, resolved: seq<Meta>, r: string, i: nat) {
    i < |resolved| && r in cat && cat[r] == Ok(resolved[i])
  }

  /** In a topological order, a path leads to ever earlier positions. */
  lemma {:induction false} PathDescends(cat: Catalog, s: set<string>, resolved: seq<Meta>, p: seq<string>, i: nat, k: nat)
    returns (x: nat, y: nat)
    requires Topological(cat, resolved) && Closed(cat, s) && Sourced(cat, s, resolved) && Consistent(cat, s)
    requires Path(cat, p) && p != [] && p[0] in s && Has(resolved, cat[p[0]].value) && i <= k < |p|
    ensures p[k] in s && At(cat, resolved, p[i], x) && At(cat, resolved, p[k], y) && (if i < k then y < x else y == x)
    decreases k
  {
    hide Topological, Closed, Sourced, Consistent, At;
    if k == 0 {
      x := RootIsAt(cat, s, resolved, p[0]);
      y := x;
    } else {
      var from, z := PathDescends(cat, s, resolved, p, if i < k then i else k - 1, k - 1);
      assert p[k - 1 + 1] in cat[p[k - 1]].value.needs;
      y := NeedIsEarlier(cat, s, resolved, p[k - 1], z, p[k]);
      x := if i < k then from else y;
    }
  }

  lemma RootIsAt(cat: Catalog, s: set<string>, resolved: seq<Meta>, r: string) returns (x: nat)
    requires Closed(cat, s) && Sourced(cat, s, resolved) && Consistent(cat, s) && r in s && Has(resolved, cat[r].value)
    ensures At(cat, resolved, r, x)
  {
    x :| 0 <= x < |resolved| && resolved[x].name == cat[r].value.name && resolved[x].version == cat[r].value.version;
    var q :| q in s && q in cat && cat[q] == Ok(resolved[x]);
    assert SameName(cat, r, q);
  }

  lemma NeedIsEarlier(cat: Catalog, s: set<string>, resolved: seq<Meta>, r: string, z: nat, d: string) returns (y: nat)
    requires Topological(cat, resolved) && Closed(cat, s) && Sourced(cat, s, resolved) && Consistent(cat, s)
    requires r in s && At(cat, resolved, r, z) && d in cat[r].value.needs
    ensures d in s && At(cat, resolved, d, y) && y < z
  {
    assert Earlier(cat, resolved, z, d);
    y :| 0 <= y < z && resolved[y].name == cat[d].value.name && resolved[y].version == cat[d].value.version;
    var q :| q in s && q in cat && cat[q] == Ok(resolved[y]);
    assert SameName(cat, d, q);
  }

  lemma OrderHasNoCycle(cat: Catalog, s: set<string>, resolved: seq<Meta>, r: string)
    requires Topological(cat, resolved) && Closed(cat, s) && Sourced(cat, s, resolved) && Consistent(cat, s)
    requires r in s && Has(resolved, cat[r].value)
    ensures !CycleFrom(cat, [r])
  {
    if CycleFrom(cat, [r]) {
      var p :| [r] <= p && Path(cat, p) && Loops(cat, p);
      var i, j :| 0 <= i < j < |p| && cat[p[i]].value.name == cat[p[j]].value.name;
      assert p[0] == r;
      var x, y := PathDescends(cat, s, resolved, p, i, j);
      assert false;
    }
  }

  /** Resolving the requested skills of a message, one after the other over the same resolved ones.
      When every lookup succeeds and no versions conflict, it fails only on a dependency cycle that some
      root leads to; and where each name belongs to one skill, it fails on every such cycle.  Only what
      the roots lead to matters. */
  lemma ResolvesExactlyAcyclic(cat: Catalog, roots: seq<Binding>)
    requires Readable(cat, roots) && OneVersion(cat, Scope(cat, roots))
    ensures ResolveEach(cat, roots).Err? ==> SomeCycle(cat, roots)
    ensures Consistent(cat, Scope(cat, roots)) ==> (ResolveEach(cat, roots).Err? <==> SomeCycle(cat, roots))
  {
    hide Scope, Reached, Readable, OneVersion, Consistent, Closed, SomeCycle;
    ScopeIsClosed(cat, roots);
    ReadableRoots(cat, roots);
    SearchIsExact(cat, Scope(cat, roots), roots);
  }

  lemma ReadableRoots(cat: Catalog, roots: seq<Binding>)
    requires Readable(cat, roots)
    ensures forall b :: b in roots ==> Read(cat, b).Ok?
  {
  }

  /** The same of any requests that contain the roots and all that they need. */
  lemma SearchIsExact(cat: Catalog, s: set<string>, roots: seq<Binding>)
    requires Closed(cat, s) && OneVersion(cat, s) && forall b :: b in roots ==> b.name in s && Read(cat, b).Ok?
    ensures ResolveEach(cat, roots).Err? ==> SomeCycle(cat, roots)
    ensures Consistent(cat, s) ==> (ResolveEach(cat, roots).Err? <==> SomeCycle(cat, roots))
  {
    hide OneVersion, Consistent, Closed;
    if ResolveEach(cat, roots).Err? {
      SnapshotFailureIsCycle(cat, s, roots);
    } else if Consistent(cat, s) {
      SnapshotIsTopological(cat, roots);
      SnapshotIsSourced(cat, s, roots);
      forall i | 0 <= i < |roots| ensures !CycleFrom(cat, [roots[i].name]) {
        RootHasNoCycle(cat, s, roots, ResolveEach(cat, roots).value, i);
      }
    }
  }

  lemma RootHasNoCycle(cat: Catalog, s: set<string>, roots: seq<Binding>, resolved: seq<Meta>, i: nat)
    requires Topological(cat, resolved) && Closed(cat, s) && Sourced(cat, s, resolved) && Consistent(cat, s)
    requires i < |roots| && forall b :: b in roots ==> b.name in s && Read(cat, b).Ok? && Has(resolved, Read(cat, b).value)
    ensures !CycleFrom(cat, [roots[i].name])
  {
    hide Topological, Closed, Sourced, Consistent, Has, CycleFrom;
    assert roots[i] in roots;
    OrderHasNoCycle(cat, s, resolved, roots[i].name);
  }

  const TWIN := Meta("x", "1", [])
  const OTHER := Meta("x", "1", ["b"])
  const ROOT := Meta("root", "1", ["a", "b"])

  /** Two folders hold a skill of the same name. */
  const TWINS: Catalog := map["root" := Ok(ROOT), "a" := Ok(TWIN), "b" := Ok(OTHER)]

  /** There a cycle can go unnoticed: once `x` is resolved from one folder, the other one, which needs
      itself, is not searched any more. */
  lemma CycleUnnoticed()
    ensures var roots := [Binding("root", "")];
      && Readable(TWINS, roots) && OneVersion(TWINS, Scope(TWINS, roots)) && !Consistent(TWINS, Scope(TWINS, roots))
      && SomeCycle(TWINS, roots) && ResolveEach(TWINS, roots) == Ok([TWIN, ROOT])
  {
    var roots := [Binding("root", "")];
    TwinScope();
    TwinCycle();
    TwinSearch();
    assert roots[..0] == [] && ResolveEach(TWINS, roots[..0]) == Ok([]);
    assert roots[0].name == "root";
  }

  lemma TwinScope()
    ensures var roots := [Binding("root", "")];
      Readable(TWINS, roots) && OneVersion(TWINS, Scope(TWINS, roots)) && !Consistent(TWINS, Scope(TWINS, roots))
  {
    var roots := [Binding("root", "")];
    forall r | Reached(TWINS, roots, r) ensures r in TWINS && TWINS[r].Ok? {
      var p :| Leads(TWINS, p, roots, r);
      TwinChain(p, |p| - 1);
    }
    assert Leads(TWINS, ["root", "a"], roots, "a") && Leads(TWINS, ["root", "b"], roots, "b") by {
      assert roots[0] in roots;
    }
    assert "a" in Scope(TWINS, roots) && "b" in Scope(TWINS, roots) && TWINS["a"] != TWINS["b"];
  }

  lemma {:induction false} TwinChain(p: seq<string>, i: nat)
    requires Chain(TWINS, p) && i < |p| && p[0] == "root"
    ensures p[i] in TWINS
  {
    if i > 0 {
      TwinChain(p, i - 1);
      assert p[i - 1 + 1] in TWINS[p[i - 1]].value.needs;
    }
  }

  lemma TwinCycle()
    ensures CycleFrom(TWINS, ["root"])
  {
    var p := ["root", "b", "b"];
    assert Path(TWINS, p) && TWINS[p[1]].value.name == TWINS[p[2]].value.name;
    assert Loops(TWINS, p) && ["root"] <= p;
  }

  lemma TwinSearch()
    ensures Resolve(TWINS, Binding("root", ""), [], {}) == Ok([TWIN, ROOT])
  {
    var inside := {} + {"root"};
    assert Read(TWINS, Binding("root", "")) == Ok(ROOT) && Read(TWINS, Binding("a", "")) == Ok(TWIN);
    assert Read(TWINS, Binding("b", "")) == Ok(OTHER);
    assert "x" != "root" && Find([], "x") == None && Find([], "root") == None && Find([TWIN], "x") == Some(TWIN);
    hide Read, Find;
    LeafSearch(inside);
    assert Resolve(TWINS, Binding("b", ""), [TWIN], inside) == Ok([TWIN]);
    assert ["a", "b"][1..] == ["b"] && ["b"][1..] == [];
    assert ResolveAll(TWINS, ["b"], [TWIN], inside) == ResolveAll(TWINS, [], [TWIN], inside);
    assert ResolveAll(TWINS, ROOT.needs, [], inside) == ResolveAll(TWINS, ["b"], [TWIN], inside) == Ok([TWIN]);
    assert [TWIN] + [ROOT] == [TWIN, ROOT] && ROOT.name == "root" && ROOT.name !in {};
  }

  lemma LeafSearch(inside: set<string>)
    requires inside == {"root"}
    ensures Resolve(TWINS, Binding("a", ""), [], inside) == Ok([TWIN])
  {
    assert Read(TWINS, Binding("a", "")) == Ok(TWIN) && Find([], "x") == None && "x" !in inside;
    hide Read, Find;
    assert ResolveAll(TWINS, [], [], inside + {"x"}) == Ok([]);
    assert [] + [TWIN] == [TWIN];
  }
}
