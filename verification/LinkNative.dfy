/**
  Materialising a native snapshot as hard links: recursion over a directory graph in which
  entries may be links, links may form cycles, and a link may leave the source volume.
 */
module LinkNative {
  import opened Wrappers
  import opened Paths

  // An object is identified by its resolved path.  An entry leads to the one its name
  // resolves to, or to None when it dangles.
  type Id = nat

  datatype Node = Directory(entries: seq<Entry>) | Regular(ino: nat, size: nat) | Special

  datatype Entry = Entry(name: string, source: Option<Id>)

  // `inside` are the objects strictly below the source volume's root.
  datatype Graph = Graph(nodes: map<Id, Node>, inside: set<Id>)

  predicate DistinctNames(entries: seq<Entry>) {
    forall i, j :: 0 <= i < j < |entries| ==> entries[i].name != entries[j].name
  }

  predicate WellFormed(g: Graph) {
    forall id :: id in g.nodes && g.nodes[id].Directory? ==> DistinctNames(g.nodes[id].entries)
  }

  // ---------------------------------------------------------------------
  // The unfolding of the graph from a source.
  // ---------------------------------------------------------------------

  datatype Tree = Leaf(ino: nat, size: nat) | Branch(children: Children)

  datatype Children = Nobody | And(others: Children, name: string, child: Tree)

  // The object fails at once: unresolved, outside, an ancestor of itself, or special.
  predicate Blocked(g: Graph, source: Option<Id>, ancestors: set<Id>) {
    || source.None? || source.value !in g.nodes || source.value !in g.inside
    || source.value in ancestors || g.nodes[source.value].Special?
  }

  function Unfold(g: Graph, source: Option<Id>, ancestors: set<Id>): Option<Tree>
    decreases |g.nodes.Keys - ancestors|, 0
  {
    if Blocked(g, source, ancestors) then None
    else
      match g.nodes[source.value]
      case Regular(ino, size) => Some(Leaf(ino, size))
      case Directory(entries) =>
        FewerLeft(g, source.value, ancestors);
        var children := UnfoldAll(g, entries, ancestors + {source.value});
        if children.None? then None else Some(Branch(children.value))
      case Special => None
  }

  function UnfoldAll(g: Graph, entries: seq<Entry>, ancestors: set<Id>): Option<Children>
    decreases |g.nodes.Keys - ancestors|, |entries| + 1
  {
    if entries == [] then Some(Nobody)
    else
      var others := UnfoldAll(g, entries[..|entries| - 1], ancestors);
      var child := Unfold(g, entries[|entries| - 1].source, ancestors);
      if others.None? || child.None? then None
      else Some(And(others.value, entries[|entries| - 1].name, child.value))
  }

  // Directories that are not yet ancestors strictly shrink.
  lemma FewerLeft(g: Graph, id: Id, ancestors: set<Id>)
    requires id in g.nodes && id !in ancestors
    ensures |g.nodes.Keys - (ancestors + {id})| < |g.nodes.Keys - ancestors|
  {
    assert g.nodes.Keys - ancestors == g.nodes.Keys - (ancestors + {id}) + {id};
  }

  lemma {:induction false} UnfoldAllFails(g: Graph, entries: seq<Entry>, ancestors: set<Id>, n: nat)
    requires n <= |entries| && UnfoldAll(g, entries[..n], ancestors).None?
    ensures UnfoldAll(g, entries, ancestors).None?
    decreases |entries|
  {
    if n == |entries| {
      assert entries[..n] == entries;
    } else {
      var shorter := entries[..|entries| - 1];
      assert shorter[..n] == entries[..n];
      UnfoldAllFails(g, shorter, ancestors, n);
    }
  }

  lemma UnfoldAllStep(g: Graph, entries: seq<Entry>, ancestors: set<Id>, n: nat)
    requires n < |entries|
    ensures var others := UnfoldAll(g, entries[..n], ancestors);
            var child := Unfold(g, entries[n].source, ancestors);
            UnfoldAll(g, entries[..n + 1], ancestors) ==
            if others.None? || child.None? then None else Some(And(others.value, entries[n].name, child.value))
  {
    assert entries[..n + 1][..n] == entries[..n];
  }

  // ---------------------------------------------------------------------
  // The files and totals of an unfolded tree.
  // ---------------------------------------------------------------------

  datatype Made = Folder | Hard(ino: nat, size: nat)

  type Volume = map<Path, Made>

  function Image(t: Tree, at: Path): Volume {
    match t
    case Leaf(ino, size) => map[at := Hard(ino, size)]
    case Branch(children) => map[at := Folder] + ImageAll(children, at)
  }

  function ImageAll(children: Children, at: Path): Volume {
    match children
    case Nobody => map[]
    case And(others, name, child) => ImageAll(others, at) + Image(child, In(at, name))
  }

  function Leaves(t: Tree): nat {
    match t
    case Leaf(_, _) => 1
    case Branch(children) => LeavesAll(children)
  }

  function LeavesAll(children: Children): nat {
    match children
    case Nobody => 0
    case And(others, _, child) => LeavesAll(others) + Leaves(child)
  }

  function Bytes(t: Tree): nat {
    match t
    case Leaf(_, size) => size
    case Branch(children) => BytesAll(children)
  }

  function BytesAll(children: Children): nat {
    match children
    case Nobody => 0
    case And(others, _, child) => BytesAll(others) + Bytes(child)
  }

  lemma {:induction false} ImageBelow(t: Tree, at: Path, q: Path)
    requires q in Image(t, at)
    ensures AtOrUnder(q, at)
    decreases t
  {
    if t.Branch? && q != at {
      ImageAllBelow(t.children, at, q);
    }
  }

  lemma {:induction false} ImageAllBelow(children: Children, at: Path, q: Path)
    requires q in ImageAll(children, at)
    ensures Under(q, at)
    decreases children
  {
    if q in ImageAll(children.others, at) {
      ImageAllBelow(children.others, at, q);
    } else {
      ImageBelow(children.child, In(at, children.name), q);
      if Under(q, In(at, children.name)) {
        UnderChild(q, at, children.name);
      }
    }
  }

  // ---------------------------------------------------------------------
  // The program.
  // ---------------------------------------------------------------------

  predicate Clear(made: Volume, target: Path) {
    forall q :: q in made ==> !AtOrUnder(q, target)
  }

  // Every file made for a list of entries lies below one of their names.
  lemma {:induction false} ImageAllName(g: Graph, entries: seq<Entry>, ancestors: set<Id>, n: nat, at: Path, q: Path)
    returns (j: nat)
    requires n <= |entries| && UnfoldAll(g, entries[..n], ancestors).Some?
    requires q in ImageAll(UnfoldAll(g, entries[..n], ancestors).value, at)
    ensures j < n && AtOrUnder(q, In(at, entries[j].name))
    decreases n
  {
    UnfoldAllStep(g, entries, ancestors, n - 1);
    var child := Unfold(g, entries[n - 1].source, ancestors).value;
    if q in Image(child, In(at, entries[n - 1].name)) {
      ImageBelow(child, In(at, entries[n - 1].name), q);
      j := n - 1;
    } else {
      j := ImageAllName(g, entries, ancestors, n - 1, at, q);
    }
  }

  lemma ChildClear(g: Graph, entries: seq<Entry>, ancestors: set<Id>, n: nat, made: Volume, target: Path)
    requires n < |entries| && DistinctNames(entries) && UnfoldAll(g, entries[..n], ancestors).Some?
    requires forall q :: q in made && AtOrUnder(q, target) ==> q == target
    ensures Clear(made + ImageAll(UnfoldAll(g, entries[..n], ancestors).value, target), In(target, entries[n].name))
  {
    var image := ImageAll(UnfoldAll(g, entries[..n], ancestors).value, target);
    forall q | q in made + image
      ensures !AtOrUnder(q, In(target, entries[n].name))
    {
      if q in image {
        var j := ImageAllName(g, entries, ancestors, n, target, q);
        ChildrenApart(target, entries[j].name, entries[n].name, q);
      } else if AtOrUnder(q, In(target, entries[n].name)) {
        BelowChild(q, target, entries[n].name);
        UnderIsDeeper(q, target);
      }
    }
  }

  lemma BelowChild(q: Path, t: Path, n: string)
    requires AtOrUnder(q, In(t, n))
    ensures Under(q, t)
  {
    if q != In(t, n) {
      UnderChild(q, t, n);
    }
  }

  // Nothing outside the target is made or changed.
  predicate Untouched(a: Volume, b: Volume, target: Path) {
    && (forall q :: q in a && !AtOrUnder(q, target) ==> q in b && b[q] == a[q])
    && (forall q :: q in b && !AtOrUnder(q, target) ==> q in a)
  }

  lemma UntouchedChain(a: Volume, b: Volume, c: Volume, target: Path)
    requires Untouched(a, b, target) && Untouched(b, c, target)
    ensures Untouched(a, c, target)
  {
  }

  lemma ChildUntouched(a: Volume, b: Volume, target: Path, name: string)
    requires Untouched(a, b, In(target, name))
    ensures Untouched(a, b, target)
  {
    forall q | AtOrUnder(q, In(target, name))
      ensures Under(q, target)
    {
      BelowChild(q, target, name);
    }
  }

  lemma MadeUntouched(a: Volume, target: Path, m: Made)
    ensures Untouched(a, a[target := m], target) && Untouched(a, a, target)
  {
  }

  class Target {
    var made: Volume

    constructor ()
      ensures made == map[]
    {
      made := map[];
    }

    // Makes the tree of `source` at `target`; None when an assertion or a call fails.
    // Recursion is bounded by the directories that are not yet ancestors.
    method Link(g: Graph, source: Option<Id>, target: Path, ancestors: set<Id>) returns (total: Option<(nat, nat)>)
      requires WellFormed(g) && Clear(made, target)
      modifies this
      ensures total.Some? <==> Unfold(g, source, ancestors).Some?
      ensures total.Some? ==>
                var t := Unfold(g, source, ancestors).value;
                made == old(made) + Image(t, target) && total.value == (Leaves(t), Bytes(t))
      ensures Untouched(old(made), made, target)
      decreases |g.nodes.Keys - ancestors|, 0
    {
      if source.Some? && source.value in g.nodes && source.value !in ancestors {
        FewerLeft(g, source.value, ancestors);
      }
      hide Untouched, AtOrUnder, UnfoldAll, Image, ImageAll, Unfold, WellFormed;
      UnfoldCases(g, source, ancestors);
      MadeUntouched(made, target, Folder);
      if source.None? || source.value !in g.nodes || source.value !in g.inside || source.value in ancestors {
        return None;
      }
      match g.nodes[source.value] {
        case Special => return None;
        case Regular(ino, size) =>
          MadeUntouched(made, target, Hard(ino, size));
          LeafImage(ino, size, target);
          made := made[target := Hard(ino, size)];
          total := Some((1, size));
        case Directory(entries) =>
          total := LinkDirectory(g, source.value, target, ancestors);
      }
    }

    method LinkDirectory(g: Graph, id: Id, target: Path, ancestors: set<Id>) returns (total: Option<(nat, nat)>)
      requires WellFormed(g) && Clear(made, target) && id in g.nodes && id !in ancestors && g.nodes[id].Directory?
      modifies this
      ensures var children := UnfoldAll(g, g.nodes[id].entries, ancestors + {id});
              && (total.Some? <==> children.Some?)
              && (total.Some? ==>
                    made == old(made) + Image(Branch(children.value), target)
                    && total.value == (LeavesAll(children.value), BytesAll(children.value)))
      ensures Untouched(old(made), made, target)
      decreases |g.nodes.Keys - (ancestors + {id})|, 2
    {
      hide Untouched, AtOrUnder, UnfoldAll, Image, ImageAll;
      OnlyTarget(made, target);
      MadeUntouched(made, target, Folder);
      made := made[target := Folder];
      ghost var middle := made;
      total := LinkAll(g, g.nodes[id].entries, target, ancestors + {id});
      UntouchedChain(old(made), middle, made, target);
      if total.Some? {
        FolderImage(old(made), target, UnfoldAll(g, g.nodes[id].entries, ancestors + {id}).value);
      }
    }

    // The loop over the entries of one directory, whose folder has just been made.
    method LinkAll(g: Graph, entries: seq<Entry>, target: Path, ancestors: set<Id>) returns (total: Option<(nat, nat)>)
      requires WellFormed(g) && DistinctNames(entries)
      requires forall q :: q in made && AtOrUnder(q, target) ==> q == target
      modifies this
      ensures total.Some? <==> UnfoldAll(g, entries, ancestors).Some?
      ensures total.Some? ==>
                var children := UnfoldAll(g, entries, ancestors).value;
                made == old(made) + ImageAll(children, target)
                  && total.value == (LeavesAll(children), BytesAll(children))
      ensures Untouched(old(made), made, target)
      decreases |g.nodes.Keys - ancestors|, 1
    {
      hide Unfold, UnfoldAll, Image, ImageAll, Untouched, AtOrUnder, WellFormed, DistinctNames, Clear;
      var files, size := 0, 0;
      EmptyUnfolding(g, ancestors);
      NobodyImage(target);
      MadeUntouched(made, target, Folder);
      assert entries[..0] == [];
      for n := 0 to |entries|
        invariant UnfoldAll(g, entries[..n], ancestors).Some?
        invariant var children := UnfoldAll(g, entries[..n], ancestors).value;
                  made == old(made) + ImageAll(children, target)
                    && (files, size) == (LeavesAll(children), BytesAll(children))
        invariant Untouched(old(made), made, target)
      {
        var name := entries[n].name;
        ChildClear(g, entries, ancestors, n, old(made), target);
        ghost var middle := made;
        var child := Link(g, entries[n].source, In(target, name), ancestors);
        ChildUntouched(middle, made, target, name);
        UntouchedChain(old(made), middle, made, target);
        UnfoldAllStep(g, entries, ancestors, n);
        if child.None? {
          UnfoldAllFails(g, entries, ancestors, n + 1);
          return None;
        }
        MoreImage(old(made), UnfoldAll(g, entries[..n], ancestors).value, name,
                  Unfold(g, entries[n].source, ancestors).value, target);
        files, size := files + child.value.0, size + child.value.1;
      }
      assert entries[..|entries|] == entries;
      total := Some((files, size));
    }
  }

  lemma UnfoldCases(g: Graph, source: Option<Id>, ancestors: set<Id>)
    ensures Blocked(g, source, ancestors) ==> Unfold(g, source, ancestors).None?
    ensures !Blocked(g, source, ancestors) ==>
              match g.nodes[source.value]
              case Regular(ino, size) => Unfold(g, source, ancestors) == Some(Leaf(ino, size))
              case Directory(entries) =>
                var children := UnfoldAll(g, entries, ancestors + {source.value});
                Unfold(g, source, ancestors) == if children.None? then None else Some(Branch(children.value))
              case Special => true
  {
  }

  lemma LeafImage(ino: nat, size: nat, target: Path)
    ensures Image(Leaf(ino, size), target) == map[target := Hard(ino, size)]
  {
  }

  lemma FolderImage(made: Volume, target: Path, children: Children)
    ensures made[target := Folder] + ImageAll(children, target) == made + Image(Branch(children), target)
  {
  }

  lemma MoreImage(made: Volume, others: Children, name: string, child: Tree, target: Path)
    ensures made + ImageAll(others, target) + Image(child, In(target, name)) ==
              made + ImageAll(And(others, name, child), target)
  {
  }

  lemma NobodyImage(target: Path)
    ensures ImageAll(Nobody, target) == map[]
  {
  }

  lemma OnlyTarget(made: Volume, target: Path)
    requires Clear(made, target)
    ensures forall q :: q in made[target := Folder] && AtOrUnder(q, target) ==> q == target
  {
  }

  lemma EmptyUnfolding(g: Graph, ancestors: set<Id>)
    ensures UnfoldAll(g, [], ancestors) == Some(Nobody)
  {
  }
}
