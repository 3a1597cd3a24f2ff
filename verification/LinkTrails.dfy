/**
  What a materialised link tree contains, told without recursion: by the trails of names
  that lead from the source to an object.
 */
module LinkTrails {
  import opened Wrappers
  import opened Paths
  import opened LinkNative

  predicate Leads(g: Graph, from: Option<Id>, name: string, to: Option<Id>) {
    && from.Some? && from.value in g.nodes && g.nodes[from.value].Directory?
    && Entry(name, to) in g.nodes[from.value].entries
  }

  // Following `names` from ids[0] visits `ids`.
  predicate Trail(g: Graph, names: seq<string>, ids: seq<Option<Id>>) {
    && |ids| == |names| + 1
    && forall i :: 0 <= i < |names| ==> Leads(g, ids[i], names[i], ids[i + 1])
  }

  // The last object of a trail dangles, lies outside the volume, is neither a file nor a
  // directory, or was already visited.
  predicate BadEnd(g: Graph, ids: seq<Option<Id>>, ancestors: set<Id>)
    requires ids != []
  {
    var last := ids[|ids| - 1];
    || last.None? || last.value !in g.nodes || last.value !in g.inside || g.nodes[last.value].Special?
    || last.value in ancestors || last in ids[..|ids| - 1]
  }

  function Plus(at: Path, names: seq<string>): Path
    decreases |names|
  {
    if names == [] then at else Plus(In(at, names[0]), names[1..])
  }

  lemma TrailTail(g: Graph, names: seq<string>, ids: seq<Option<Id>>)
    requires Trail(g, names, ids) && names != []
    ensures Trail(g, names[1..], ids[1..]) && Leads(g, ids[0], names[0], ids[1])
  {
    forall i | 0 <= i < |names| - 1
      ensures Leads(g, ids[1..][i], names[1..][i], ids[1..][i + 1])
    {
      assert Leads(g, ids[i + 1], names[i + 1], ids[i + 2]);
    }
  }

  lemma TrailGrows(g: Graph, from: Option<Id>, name: string, names: seq<string>, ids: seq<Option<Id>>)
    requires Trail(g, names, ids) && Leads(g, from, name, ids[0])
    ensures Trail(g, [name] + names, [from] + ids)
  {
    forall i | 0 <= i < |names| + 1
      ensures Leads(g, ([from] + ids)[i], ([name] + names)[i], ([from] + ids)[i + 1])
    {
      if i > 0 {
        assert Leads(g, ids[i - 1], names[i - 1], ids[i]);
      }
    }
  }

  lemma BadEndTail(g: Graph, ids: seq<Option<Id>>, ancestors: set<Id>)
    requires |ids| > 1 && ids[0].Some?
    ensures BadEnd(g, ids, ancestors) <==> BadEnd(g, ids[1..], ancestors + {ids[0].value})
  {
    var last := ids[|ids| - 1];
    assert ids[..|ids| - 1] == [ids[0]] + ids[1..][..|ids| - 2];
    assert ids[1..][|ids| - 2] == last;
  }

  // ---------------------------------------------------------------------
  // Materialisation fails exactly when some trail ends badly.
  // ---------------------------------------------------------------------

  lemma {:induction false} BadTrailFails(g: Graph, names: seq<string>, ids: seq<Option<Id>>, ancestors: set<Id>)
    requires Trail(g, names, ids) && BadEnd(g, ids, ancestors)
    ensures Unfold(g, ids[0], ancestors).None?
    decreases |names|
  {
    hide Unfold, UnfoldAll;
    UnfoldCases(g, ids[0], ancestors);
    if names != [] && !Blocked(g, ids[0], ancestors) {
      TrailTail(g, names, ids);
      BadEndTail(g, ids, ancestors);
      var inner := ancestors + {ids[0].value};
      BadTrailFails(g, names[1..], ids[1..], inner);
      var entries := g.nodes[ids[0].value].entries;
      var k :| 0 <= k < |entries| && entries[k] == Entry(names[0], ids[1]);
      UnfoldAllStep(g, entries, inner, k);
      UnfoldAllFails(g, entries, inner, k + 1);
    }
  }

  lemma {:induction false} FailureHasBadTrail(g: Graph, source: Option<Id>, ancestors: set<Id>)
    returns (names: seq<string>, ids: seq<Option<Id>>)
    requires Unfold(g, source, ancestors).None?
    ensures Trail(g, names, ids) && ids[0] == source && BadEnd(g, ids, ancestors)
    decreases |g.nodes.Keys - ancestors|
  {
    hide Unfold, UnfoldAll;
    UnfoldCases(g, source, ancestors);
    if Blocked(g, source, ancestors) {
      return [], [source];
    }
    FewerLeft(g, source.value, ancestors);
    var inner := ancestors + {source.value};
    var entries := g.nodes[source.value].entries;
    var k := FailedEntry(g, entries, inner);
    names, ids := FailureHasBadTrail(g, entries[k].source, inner);
    assert entries[k] == Entry(entries[k].name, ids[0]);
    TrailGrows(g, source, entries[k].name, names, ids);
    assert ([source] + ids)[1..] == ids;
    BadEndTail(g, [source] + ids, ancestors);
    names, ids := [entries[k].name] + names, [source] + ids;
  }

  lemma {:induction false} FailedEntry(g: Graph, entries: seq<Entry>, ancestors: set<Id>) returns (k: nat)
    requires UnfoldAll(g, entries, ancestors).None?
    ensures k < |entries| && Unfold(g, entries[k].source, ancestors).None?
    decreases |entries|
  {
    var shorter := entries[..|entries| - 1];
    if UnfoldAll(g, shorter, ancestors).None? {
      k := FailedEntry(g, shorter, ancestors);
    } else {
      k := |entries| - 1;
    }
  }

  // ---------------------------------------------------------------------
  // A materialised tree holds exactly one object for every trail.
  // ---------------------------------------------------------------------

  function Kind(g: Graph, id: Option<Id>): (m: Option<Made>) {
    if id.None? || id.value !in g.nodes then None
    else
      match g.nodes[id.value]
      case Regular(ino, size) => Some(Hard(ino, size))
      case Directory(_) => Some(Folder)
      case Special => None
  }

  predicate Holds(v: Volume, q: Path, m: Option<Made>) {
    q in v && m == Some(v[q])
  }

  lemma {:induction false} TrailIsMade(g: Graph, names: seq<string>, ids: seq<Option<Id>>, ancestors: set<Id>, at: Path)
    requires WellFormed(g) && Trail(g, names, ids) && Unfold(g, ids[0], ancestors).Some?
    ensures Holds(Image(Unfold(g, ids[0], ancestors).value, at), Plus(at, names), Kind(g, ids[|names|]))
    decreases |names|
  {
    hide Unfold, UnfoldAll, ImageAll;
    UnfoldCases(g, ids[0], ancestors);
    if names != [] {
      TrailTail(g, names, ids);
      var inner := ancestors + {ids[0].value};
      var entries := g.nodes[ids[0].value].entries;
      var k :| 0 <= k < |entries| && entries[k] == Entry(names[0], ids[1]);
      EveryChild(g, entries, inner, k);
      TrailIsMade(g, names[1..], ids[1..], inner, In(at, names[0]));
      assert entries[..|entries|] == entries;
      var q := Plus(at, names);
      ChildIsMade(g, entries, inner, |entries|, k, at, q);
      FolderOverChildren(UnfoldAll(g, entries, inner).value, at);
    } else if g.nodes[ids[0].value].Directory? {
      FolderOverChildren(UnfoldAll(g, g.nodes[ids[0].value].entries, ancestors + {ids[0].value}).value, at);
    }
  }

  lemma FolderOverChildren(children: Children, at: Path)
    ensures at !in ImageAll(children, at)
  {
    if at in ImageAll(children, at) {
      ImageAllBelow(children, at, at);
      UnderIsDeeper(at, at);
    }
  }

  lemma {:induction false} EveryChild(g: Graph, entries: seq<Entry>, ancestors: set<Id>, k: nat)
    requires k < |entries| && UnfoldAll(g, entries, ancestors).Some?
    ensures Unfold(g, entries[k].source, ancestors).Some?
    decreases |entries|
  {
    if k < |entries| - 1 {
      EveryChild(g, entries[..|entries| - 1], ancestors, k);
    }
  }

  // Siblings do not disturb one another.
  lemma {:induction false} ChildIsMade(g: Graph, entries: seq<Entry>, ancestors: set<Id>, n: nat, k: nat, at: Path,
                                       q: Path)
    requires k < n <= |entries| && DistinctNames(entries)
    requires UnfoldAll(g, entries[..n], ancestors).Some? && Unfold(g, entries[k].source, ancestors).Some?
    requires q in Image(Unfold(g, entries[k].source, ancestors).value, In(at, entries[k].name))
    ensures Holds(ImageAll(UnfoldAll(g, entries[..n], ancestors).value, at), q,
                  Some(Image(Unfold(g, entries[k].source, ancestors).value, In(at, entries[k].name))[q]))
    decreases n
  {
    hide Unfold, UnfoldAll, Image;
    UnfoldAllStep(g, entries, ancestors, n - 1);
    if k < n - 1 {
      ChildIsMade(g, entries, ancestors, n - 1, k, at, q);
      var last := Unfold(g, entries[n - 1].source, ancestors).value;
      ImageBelow(Unfold(g, entries[k].source, ancestors).value, In(at, entries[k].name), q);
      ChildrenApart(at, entries[k].name, entries[n - 1].name, q);
      if q in Image(last, In(at, entries[n - 1].name)) {
        ImageBelow(last, In(at, entries[n - 1].name), q);
      }
    }
  }

  lemma {:induction false} MadeHasTrail(g: Graph, source: Option<Id>, ancestors: set<Id>, at: Path, q: Path)
    returns (names: seq<string>, ids: seq<Option<Id>>)
    requires Unfold(g, source, ancestors).Some? && q in Image(Unfold(g, source, ancestors).value, at)
    ensures |ids| == |names| + 1 && ids[0] == source && Trail(g, names, ids) && q == Plus(at, names)
    decreases |g.nodes.Keys - ancestors|
  {
    hide Unfold, UnfoldAll, ImageAll;
    UnfoldCases(g, source, ancestors);
    if q == at {
      return [], [source];
    }
    FewerLeft(g, source.value, ancestors);
    var inner := ancestors + {source.value};
    var entries := g.nodes[source.value].entries;
    assert entries[..|entries|] == entries;
    var k := MadeByChild(g, entries, inner, |entries|, at, q);
    names, ids := MadeHasTrail(g, entries[k].source, inner, In(at, entries[k].name), q);
    assert entries[k] == Entry(entries[k].name, ids[0]);
    TrailGrows(g, source, entries[k].name, names, ids);
    assert ([entries[k].name] + names)[1..] == names;
    names, ids := [entries[k].name] + names, [source] + ids;
  }

  lemma {:induction false} MadeByChild(g: Graph, entries: seq<Entry>, ancestors: set<Id>, n: nat, at: Path, q: Path)
    returns (k: nat)
    requires n <= |entries| && UnfoldAll(g, entries[..n], ancestors).Some?
    requires q in ImageAll(UnfoldAll(g, entries[..n], ancestors).value, at)
    ensures k < n && Unfold(g, entries[k].source, ancestors).Some?
    ensures q in Image(Unfold(g, entries[k].source, ancestors).value, In(at, entries[k].name))
    decreases n
  {
    hide Unfold, Image;
    UnfoldAllStep(g, entries, ancestors, n - 1);
    if q in Image(Unfold(g, entries[n - 1].source, ancestors).value, In(at, entries[n - 1].name)) {
      k := n - 1;
    } else {
      k := MadeByChild(g, entries, ancestors, n - 1, at, q);
    }
  }

  // ---------------------------------------------------------------------
  // Conservation: the totals returned are those of the files on the volume.
  // ---------------------------------------------------------------------

  function Weight(m: Made): (nat, nat) {
    if m.Hard? then (1, m.size) else (0, 0)
  }

  // The number of linked files on a volume and the sum of their sizes.
  ghost function Totals(v: Volume): (nat, nat) {
    if v == map[] then (0, 0)
    else
      var q :| q in v;
      var rest := Totals(v - {q});
      (rest.0 + Weight(v[q]).0, rest.1 + Weight(v[q]).1)
  }

  ghost predicate Removes(v: Volume, q: Path) {
    && q in v
    && Totals(v) == (Totals(v - {q}).0 + Weight(v[q]).0, Totals(v - {q}).1 + Weight(v[q]).1)
  }

  lemma SomeRemoval(v: Volume) returns (q: Path)
    requires v != map[]
    ensures q in v && Removes(v, q)
  {
    hide Weight;
    q :| q in v && Totals(v) == (Totals(v - {q}).0 + Weight(v[q]).0, Totals(v - {q}).1 + Weight(v[q]).1);
  }

  lemma {:induction false} TotalsWithout(v: Volume, q: Path)
    requires q in v
    ensures Removes(v, q)
    decreases |v|
  {
    hide Totals, Weight;
    var p := SomeRemoval(v);
    if p != q {
      TotalsWithout(v - {p}, q);
      TotalsWithout(v - {q}, p);
      assert v - {p} - {q} == v - {q} - {p};
    }
  }

  lemma {:induction false} TotalsAdd(a: Volume, b: Volume)
    requires a.Keys !! b.Keys
    ensures Totals(a + b) == (Totals(a).0 + Totals(b).0, Totals(a).1 + Totals(b).1)
    decreases |b|
  {
    hide Totals, Weight, Removes;
    if b == map[] {
      TotalsNone();
      AddNone(a);
    } else {
      var q := SomeRemoval(b);
      AddThenRemove(a, b, q);
      TotalsWithout(a + b, q);
      TotalsAdd(a, b - {q});
      BothRemove(Totals(a), b, a + b, q);
    }
  }

  lemma BothRemove(others: (nat, nat), b: Volume, c: Volume, q: Path)
    requires Removes(b, q) && Removes(c, q) && c[q] == b[q]
    requires Totals(c - {q}) == (others.0 + Totals(b - {q}).0, others.1 + Totals(b - {q}).1)
    ensures Totals(c) == (others.0 + Totals(b).0, others.1 + Totals(b).1)
  {
    hide Totals, Weight;
  }

  lemma AddThenRemove(a: Volume, b: Volume, q: Path)
    requires a.Keys !! b.Keys && q in b
    ensures q in a + b && (a + b)[q] == b[q] && (a + b) - {q} == a + (b - {q})
    ensures a.Keys !! (b - {q}).Keys && |b - {q}| < |b|
  {
    assert |(b - {q}).Keys| == |b.Keys - {q}|;
  }

  lemma AddNone(a: Volume)
    ensures a + map[] == a
  {
  }

  lemma TotalsOne(q: Path, m: Made)
    ensures Totals(map[q := m]) == Weight(m)
  {
    TotalsWithout(map[q := m], q);
    assert map[q := m] - {q} == map[];
  }

  lemma {:induction false} TotalsOfTree(g: Graph, source: Option<Id>, ancestors: set<Id>, at: Path)
    requires WellFormed(g) && Unfold(g, source, ancestors).Some?
    ensures var t := Unfold(g, source, ancestors).value;
            Totals(Image(t, at)) == (Leaves(t), Bytes(t))
    decreases |g.nodes.Keys - ancestors|, 0
  {
    hide Unfold, UnfoldAll, ImageAll, Totals;
    UnfoldCases(g, source, ancestors);
    match g.nodes[source.value]
    case Regular(ino, size) =>
      TotalsOne(at, Hard(ino, size));
    case Directory(entries) =>
      FewerLeft(g, source.value, ancestors);
      var inner := ancestors + {source.value};
      assert entries[..|entries|] == entries;
      TotalsOfAll(g, entries, inner, |entries|, at);
      var below := ImageAll(UnfoldAll(g, entries, inner).value, at);
      FolderOverChildren(UnfoldAll(g, entries, inner).value, at);
      TotalsOne(at, Folder);
      TotalsAdd(map[at := Folder], below);
  }

  lemma {:induction false} TotalsOfAll(g: Graph, entries: seq<Entry>, ancestors: set<Id>, n: nat, at: Path)
    requires WellFormed(g) && DistinctNames(entries) && n <= |entries| && UnfoldAll(g, entries[..n], ancestors).Some?
    ensures var children := UnfoldAll(g, entries[..n], ancestors).value;
            Totals(ImageAll(children, at)) == (LeavesAll(children), BytesAll(children))
    decreases |g.nodes.Keys - ancestors|, n + 1
  {
    hide Unfold, UnfoldAll, Image, Totals, WellFormed, DistinctNames;
    if n == 0 {
      assert entries[..0] == [];
      EmptyUnfolding(g, ancestors);
      TotalsNone();
    } else {
      UnfoldAllStep(g, entries, ancestors, n - 1);
      TotalsOfAll(g, entries, ancestors, n - 1, at);
      var others := ImageAll(UnfoldAll(g, entries[..n - 1], ancestors).value, at);
      var name := entries[n - 1].name;
      var child := Unfold(g, entries[n - 1].source, ancestors).value;
      TotalsOfTree(g, entries[n - 1].source, ancestors, In(at, name));
      SiblingsDisjoint(g, entries, ancestors, n - 1, at, child);
      TotalsAdd(others, Image(child, In(at, name)));
    }
  }

  lemma TotalsNone()
    ensures Totals(map[]) == (0, 0)
  {
  }

  lemma SiblingsDisjoint(g: Graph, entries: seq<Entry>, ancestors: set<Id>, n: nat, at: Path, child: Tree)
    requires n < |entries| && DistinctNames(entries) && UnfoldAll(g, entries[..n], ancestors).Some?
    ensures ImageAll(UnfoldAll(g, entries[..n], ancestors).value, at).Keys !! Image(child, In(at, entries[n].name)).Keys
  {
    hide Unfold, UnfoldAll, Image, ImageAll;
    var others := ImageAll(UnfoldAll(g, entries[..n], ancestors).value, at);
    ChildClear(g, entries, ancestors, n, map[], at);
    forall q | q in others
      ensures q !in Image(child, In(at, entries[n].name))
    {
      assert q in map[] + others;
      if q in Image(child, In(at, entries[n].name)) {
        ImageBelow(child, In(at, entries[n].name), q);
      }
    }
  }

  // ---------------------------------------------------------------------
  // The outcome, told by trails alone.
  // ---------------------------------------------------------------------

  predicate TrailFrom(g: Graph, source: Option<Id>, names: seq<string>, ids: seq<Option<Id>>) {
    |ids| == |names| + 1 && ids[0] == source && Trail(g, names, ids)
  }

  ghost predicate SomeBadEnd(g: Graph, source: Option<Id>) {
    exists names, ids :: TrailFrom(g, source, names, ids) && BadEnd(g, ids, {})
  }

  ghost predicate Spelled(g: Graph, source: Option<Id>, at: Path, q: Path) {
    exists names, ids :: TrailFrom(g, source, names, ids) && q == Plus(at, names)
  }

  /**
    Materialisation fails exactly when a trail from the source ends badly.  Otherwise the
    target holds an object exactly at the paths that trails spell, each a folder or the very
    file its trail reaches, and the totals returned are those of what is on the volume.
   */
  lemma OutcomeByTrails(g: Graph, source: Option<Id>, target: Path)
    requires WellFormed(g)
    ensures Unfold(g, source, {}).None? <==> SomeBadEnd(g, source)
    ensures Unfold(g, source, {}).Some? ==>
              var t := Unfold(g, source, {}).value;
              && (forall names, ids :: TrailFrom(g, source, names, ids) ==>
                    Holds(Image(t, target), Plus(target, names), Kind(g, ids[|names|])))
              && (forall q :: q in Image(t, target) <==> Spelled(g, source, target, q))
              && Totals(Image(t, target)) == (Leaves(t), Bytes(t))
  {
    hide Unfold, Image, Trail, BadEnd, Totals, Plus, WellFormed;
    FailsByTrails(g, source);
    if Unfold(g, source, {}).Some? {
      var image := Image(Unfold(g, source, {}).value, target);
      forall names, ids | TrailFrom(g, source, names, ids)
        ensures Holds(image, Plus(target, names), Kind(g, ids[|names|]))
      {
        TrailIsMade(g, names, ids, {}, target);
      }
      forall q | q in image
        ensures Spelled(g, source, target, q)
      {
        var names, ids := MadeHasTrail(g, source, {}, target, q);
        assert TrailFrom(g, source, names, ids);
      }
      TotalsOfTree(g, source, {}, target);
    }
  }

  lemma FailsByTrails(g: Graph, source: Option<Id>)
    ensures Unfold(g, source, {}).None? <==> SomeBadEnd(g, source)
  {
    hide Unfold, BadEnd;
    if Unfold(g, source, {}).None? {
      var names, ids := FailureHasBadTrail(g, source, {});
      assert TrailFrom(g, source, names, ids);
    } else if SomeBadEnd(g, source) {
      var names, ids :| TrailFrom(g, source, names, ids) && BadEnd(g, ids, {});
      BadTrailFails(g, names, ids, {});
    }
  }
}
