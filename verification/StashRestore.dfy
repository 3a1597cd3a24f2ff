/**
  Restoring a published bundle into four empty, distinct directories, and the fact that
  a capture followed by a restore reproduces the captured tree.
 */
module StashRestore {
  import opened Wrappers
  import opened Paths
  import opened ByteStrings
  import opened StashSnapshot
  import Published = StashPublish

  // The recovery host, by canonical location.
  datatype FileData = Plain(bytes: Bytes) | CopyOf(content: Published.Content)

  datatype HostNode = HostDir | HostFile(data: FileData) | HostLink

  type Host = map<Path, HostNode>

  datatype Recovery = Recovery(config: Path, data: Path, plugins: Path, scrapers: Path)

  // Everything on the host lies in directories.
  predicate Grounded(host: Host) {
    forall q :: q in host && q.In? ==> q.parent in host && host[q.parent].HostDir?
  }

  predicate EmptyDirectory(host: Host, t: Path) {
    t in host && host[t].HostDir? && forall q :: q in host && q.In? ==> q.parent != t
  }

  // The four directories are distinct and empty.
  predicate Isolated(host: Host, r: Recovery) {
    && |{r.config, r.data, r.plugins, r.scrapers}| == 4
    && EmptyDirectory(host, r.config) && EmptyDirectory(host, r.data)
    && EmptyDirectory(host, r.plugins) && EmptyDirectory(host, r.scrapers)
  }

  // `blobs` and `metadata` go below the data directory.
  function Target(r: Recovery, l: string): Path
    requires l in LABELS
  {
    if l == LABELS[2] then r.plugins
    else if l == LABELS[3] then r.scrapers
    else In(r.data, l)
  }

  // ---------------------------------------------------------------------
  // Archive members.
  // ---------------------------------------------------------------------

  predicate NoDotDot(p: Path) {
    p.In? ==> p.name != ".." && NoDotDot(p.parent)
  }

  predicate Safe(e: Entry) {
    && e.path.In? && NoDotDot(e.path) && LabelOf(e.path) in LABELS
    && (e.member.Folder? || e.member.Blob?)
  }

  function Select(entries: seq<Entry>, l: string): (r: seq<Entry>)
    ensures forall e :: e in r <==> e in entries && e.path.In? && LabelOf(e.path) == l
  {
    if entries == [] then []
    else
      var e := entries[|entries| - 1];
      Select(entries[..|entries| - 1], l) + if e.path.In? && LabelOf(e.path) == l then [e] else []
  }

  type Stage = map<Path, Member>

  // Unpacking creates missing parents, and fails where a file is in the way.
  predicate ParentsFree(stage: Stage, p: Path)
    requires p.In?
  {
    p.parent.Top? || ((p.parent in stage ==> stage[p.parent].Folder?) && ParentsFree(stage, p.parent))
  }

  function WithParents(stage: Stage, p: Path): Stage
    requires p.In?
  {
    if p.parent.Top? then stage
    else
      var s := WithParents(stage, p.parent);
      if p.parent in s then s else s[p.parent := Folder]
  }

  function UnpackOne(stage: Stage, e: Entry): Option<Stage>
    requires e.path.In?
  {
    if !ParentsFree(stage, e.path) then None
    else
      var s := WithParents(stage, e.path);
      if e.path in s && s[e.path].Folder? != e.member.Folder? then None
      else Some(s[e.path := e.member])
  }

  function Unpack(entries: seq<Entry>): Option<Stage>
    requires forall e :: e in entries ==> e.path.In?
  {
    if entries == [] then Some(map[])
    else
      var before := Unpack(entries[..|entries| - 1]);
      if before.None? then None else UnpackOne(before.value, entries[|entries| - 1])
  }

  method UnpackAll(entries: seq<Entry>) returns (stage: Option<Stage>)
    requires forall e :: e in entries ==> e.path.In?
    ensures stage == Unpack(entries)
  {
    stage := Some(map[]);
    for i := 0 to |entries|
      invariant stage.Some? && stage == Unpack(entries[..i])
    {
      assert entries[..i + 1][..i] == entries[..i];
      stage := UnpackOne(stage.value, entries[i]);
      if stage.None? {
        UnpackFails(entries, i + 1);
        return;
      }
    }
    assert entries[..|entries|] == entries;
  }

  lemma {:induction false} UnpackFails(entries: seq<Entry>, n: nat)
    requires forall e :: e in entries ==> e.path.In?
    requires n <= |entries| && Unpack(entries[..n]).None?
    ensures Unpack(entries).None?
    decreases |entries|
  {
    if n < |entries| {
      assert entries[..|entries| - 1][..n] == entries[..n];
      UnpackFails(entries[..|entries| - 1], n);
    } else {
      assert entries[..n] == entries;
    }
  }

  // ---------------------------------------------------------------------
  // Where the members go.
  // ---------------------------------------------------------------------

  // The location of a member whose leading label is replaced by a target directory.
  function Graft(t: Path, p: Path): Path
    requires p.In?
  {
    if p.parent.Top? then t else In(Graft(t, p.parent), p.name)
  }

  lemma GraftsUnder(t: Path, p: Path)
    requires p.In?
    ensures if p.parent.Top? then Graft(t, p) == t else Under(Graft(t, p), t)
  {
  }

  lemma {:induction false} GraftInjective(t: Path, p: Path, p': Path)
    requires p.In? && p'.In? && LabelOf(p) == LabelOf(p') && Graft(t, p) == Graft(t, p')
    ensures p == p'
  {
    GraftsUnder(t, p);
    GraftsUnder(t, p');
    if p.parent.Top? || p'.parent.Top? {
      if Under(t, t) {
        UnderIsDeeper(t, t);
      }
    } else {
      GraftInjective(t, p.parent, p'.parent);
    }
  }

  lemma {:induction false} NothingUnderEmpty(host: Host, t: Path, q: Path)
    requires Grounded(host) && EmptyDirectory(host, t) && q in host
    ensures !Under(q, t)
  {
    if q.In? && q.parent != t {
      NothingUnderEmpty(host, t, q.parent);
    }
  }

  // Empty and distinct directories are not nested, so the four targets do not meet.
  lemma TargetsDisjoint(host: Host, r: Recovery, l: string, m: string, q: Path)
    requires Grounded(host) && Isolated(host, r) && l in LABELS && m in LABELS && l != m
    ensures !(AtOrUnder(q, Target(r, l)) && AtOrUnder(q, Target(r, m)))
  {
    var a, b := Target(r, l), Target(r, m);
    if AtOrUnder(q, a) && AtOrUnder(q, b) {
      CommonDescendant(q, a, b);
      TargetsApart(host, r, l, m);
      TargetsApart(host, r, m, l);
    }
  }

  lemma EmptyApart(host: Host, a: Path, b: Path, x: string, y: string)
    requires Grounded(host) && EmptyDirectory(host, a) && EmptyDirectory(host, b) && a != b
    ensures !AtOrUnder(a, b) && !AtOrUnder(In(a, x), b) && !AtOrUnder(a, In(b, y)) && !AtOrUnder(In(a, x), In(b, y))
  {
    NothingUnderEmpty(host, b, a);
    if Under(a, In(b, y)) {
      UnderChild(a, b, y);
    }
  }

  lemma TargetsApart(host: Host, r: Recovery, l: string, m: string)
    requires Grounded(host) && Isolated(host, r) && l in LABELS && m in LABELS && l != m
    ensures !AtOrUnder(Target(r, l), Target(r, m))
  {
    FourDistinct(r.config, r.data, r.plugins, r.scrapers);
    var a := if l == LABELS[2] then r.plugins else if l == LABELS[3] then r.scrapers else r.data;
    var b := if m == LABELS[2] then r.plugins else if m == LABELS[3] then r.scrapers else r.data;
    if a == b {
      SiblingsApart(r.data, l, m);
    } else {
      EmptyApart(host, a, b, l, m);
    }
  }

  lemma FourDistinct(a: Path, b: Path, c: Path, d: Path)
    requires |{a, b, c, d}| == 4
    ensures a != b && a != c && a != d && b != c && b != d && c != d
  {
    assert a == b || a == c || a == d ==> {a, b, c, d} == {b, c, d};
    assert b == c || b == d ==> {a, b, c, d} == {a, c, d};
    assert c == d ==> {a, b, c, d} == {a, b, c};
  }

  // ---------------------------------------------------------------------
  // The restore.
  // ---------------------------------------------------------------------

  function NodeOf(member: Member): HostNode {
    match member
    case Folder => HostDir
    case Blob(data) => HostFile(Plain(data))
    case Hard(_) => HostLink
    case Odd => HostLink
  }

  predicate Labelled(stage: Stage, l: string) {
    forall p :: p in stage ==> p.In? && LabelOf(p) == l
  }

  lemma {:induction false} ParentsLabelled(stage: Stage, p: Path, l: string)
    requires Labelled(stage, l) && p.In? && LabelOf(p) == l
    ensures Labelled(WithParents(stage, p), l)
  {
    if !p.parent.Top? {
      ParentsLabelled(stage, p.parent, l);
    }
  }

  lemma {:induction false} UnpackLabelled(entries: seq<Entry>, l: string)
    requires forall e :: e in entries ==> e.path.In? && LabelOf(e.path) == l
    ensures Unpack(entries).Some? ==> Labelled(Unpack(entries).value, l)
  {
    if entries != [] && Unpack(entries).Some? {
      var before := entries[..|entries| - 1];
      UnpackLabelled(before, l);
      ParentsLabelled(Unpack(before).value, entries[|entries| - 1].path, l);
    }
  }

  lemma GraftsInjective(stage: Stage, t: Path, l: string)
    requires Labelled(stage, l)
    ensures forall p, q :: p in stage && q in stage && Graft(t, p) == Graft(t, q) ==> p == q
  {
    forall p, q | p in stage && q in stage && Graft(t, p) == Graft(t, q)
      ensures p == q
    {
      GraftInjective(t, p, q);
    }
  }

  function Image(stage: Stage, t: Path, l: string): Host
    requires Labelled(stage, l)
  {
    GraftsInjective(stage, t, l);
    map p | p in stage :: Graft(t, p) := NodeOf(stage[p])
  }

  predicate StageOk(entries: seq<Entry>, l: string) {
    var stage := Unpack(Select(entries, l));
    stage.Some? && In(Top, l) in stage.value && stage.value[In(Top, l)].Folder?
  }

  function StageOf(entries: seq<Entry>, l: string): (stage: Stage)
    requires StageOk(entries, l)
    ensures Labelled(stage, l)
  {
    UnpackLabelled(Select(entries, l), l);
    Unpack(Select(entries, l)).value
  }

  // The host after the first n labels were unpacked and moved into place.
  function Moved(host: Host, r: Recovery, entries: seq<Entry>, n: nat): Host
    requires n <= |LABELS| && forall i :: 0 <= i < n ==> StageOk(entries, LABELS[i])
  {
    if n == 0 then host
    else
      var l := LABELS[n - 1];
      Moved(host, r, entries, n - 1) + Image(StageOf(entries, l), Target(r, l), l)
  }

  predicate Restorable(bundle: Option<Published.Folder>, integrity: bool, host: Host, r: Recovery) {
    && bundle.Some? && Published.Accepted(bundle.value) && integrity
    && Isolated(host, r)
    && bundle.value[Published.StateFile].State?
    && var entries := bundle.value[Published.StateFile].entries;
       (forall e :: e in entries ==> Safe(e)) && (forall l :: l in LABELS ==> StageOk(entries, l))
  }

  function Restored(f: Published.Folder, host: Host, r: Recovery): Host
    requires Published.Accepted(f) && f[Published.StateFile].State?
    requires forall l :: l in LABELS ==> StageOk(f[Published.StateFile].entries, l)
  {
    Moved(host, r, f[Published.StateFile].entries, |LABELS|)
      [In(r.config, "stash-go.sqlite") := HostFile(CopyOf(f[Published.DatabaseFile]))]
      [In(r.config, "config.yml") := HostFile(CopyOf(f[Published.ConfigFile]))]
  }

  // `bundle` is None when the bundle path is a link or not a directory; `integrity` is
  // the database engine's own verdict on the copied database.
  method Restore(bundle: Option<Published.Folder>, integrity: bool, host: Host, r: Recovery)
    returns (ok: bool, host': Host)
    ensures ok <==> Restorable(bundle, integrity, host, r)
    ensures ok ==> host' == Restored(bundle.value, host, r)
    ensures ok && Grounded(host) ==> AllInPlace(host', bundle.value[Published.StateFile].entries, r)
    ensures host' != host ==> bundle.Some? && Published.Accepted(bundle.value) && Isolated(host, r)
    ensures host' != host ==>
              bundle.value[Published.StateFile].State? && forall e :: e in bundle.value[Published.StateFile].entries ==>
                Safe(e)
  {
    hide Isolated, Safe, StageOk, Moved, AllInPlace, Grounded;
    ok, host' := false, host;
    if bundle.None? {
      return;
    }
    var f := bundle.value;
    var accepted := RosterMatches(f);
    if !accepted || !integrity || !Isolated(host, r) || !f[Published.StateFile].State? {
      return;
    }
    var entries := f[Published.StateFile].entries;
    for i := 0 to |entries|
      invariant forall j :: 0 <= j < i ==> Safe(entries[j])
    {
      if !Safe(entries[i]) {
        return;
      }
    }
    ok, host' := MoveRoots(entries, host, r);
    if ok {
      ConfigKeepsPlaces(host, host', entries, r, HostFile(CopyOf(f[Published.DatabaseFile])),
                        HostFile(CopyOf(f[Published.ConfigFile])));
      host' := host'[In(r.config, "stash-go.sqlite") := HostFile(CopyOf(f[Published.DatabaseFile]))];
      host' := host'[In(r.config, "config.yml") := HostFile(CopyOf(f[Published.ConfigFile]))];
    }
  }

  method RosterMatches(f: Published.Folder) returns (ok: bool)
    ensures ok <==> Published.Accepted(f)
    ensures ok <==> RosterAgrees(f)
  {
    if Published.ChecksumsFile !in f || !f[Published.ChecksumsFile].Checksums? {
      return false;
    }
    var digests := f[Published.ChecksumsFile].digests;
    if digests.Keys != Published.ROSTER {
      return false;
    }
    var names := digests.Keys;
    while names != {}
      invariant names <= digests.Keys
      invariant forall name :: name in digests && name !in names ==> name in f && f[name] == digests[name]
    {
      var name :| name in names;
      if name !in f || f[name] != digests[name] {
        return false;
      }
      names := names - {name};
    }
    ok := true;
  }

  // Label by label, unpack into a scratch directory and move the tree into place.
  method MoveRoots(entries: seq<Entry>, host: Host, r: Recovery) returns (ok: bool, host': Host)
    requires forall e :: e in entries ==> Safe(e)
    ensures ok <==> forall l :: l in LABELS ==> StageOk(entries, l)
    ensures ok ==> host' == Moved(host, r, entries, |LABELS|)
    ensures ok && Grounded(host) && Isolated(host, r) ==> AllInPlace(host', entries, r)
  {
    hide AllInPlace, Isolated, Grounded, Image, Graft, LabelOf, NoDotDot, Unpack, Target;
    host' := host;
    for i := 0 to |LABELS|
      invariant forall j :: 0 <= j < i ==> StageOk(entries, LABELS[j])
      invariant host' == Moved(host, r, entries, i)
    {
      var l, t := LABELS[i], Target(r, LABELS[i]);
      var stage := UnpackAll(Select(entries, l));
      if stage.None? || In(Top, l) !in stage.value || !stage.value[In(Top, l)].Folder? {
        return false, host';
      }
      UnpackLabelled(Select(entries, l), l);
      // The empty target directory is removed and the unpacked tree takes its place.
      host' := (host' - {t}) + Image(stage.value, t, l);
      TargetReplaced(Moved(host, r, entries, i), stage.value, t, l);
    }
    MovedInPlace(host, r, entries);
    ok := true;
  }

  // The unpacked members of one tree, and nothing else, are at the same names below its place.
  ghost predicate InPlace(host: Host, entries: seq<Entry>, tree: string, base: Path)
    requires StageOk(entries, tree)
  {
    forall names ::
      var q, p, stage := Extend(base, names), Extend(In(Top, tree), names), StageOf(entries, tree);
      && (q in host <==> p in stage)
      && (p in stage && stage[p].Folder? ==> host[q] == HostDir)
      && (p in stage && stage[p].Blob? ==> host[q] == HostFile(Plain(stage[p].data)))
  }

  ghost predicate AllInPlace(host: Host, entries: seq<Entry>, r: Recovery) {
    && StageOk(entries, "blobs") && InPlace(host, entries, "blobs", In(r.data, "blobs"))
    && StageOk(entries, "metadata") && InPlace(host, entries, "metadata", In(r.data, "metadata"))
    && StageOk(entries, "plugins") && InPlace(host, entries, "plugins", r.plugins)
    && StageOk(entries, "scrapers") && InPlace(host, entries, "scrapers", r.scrapers)
  }

  lemma MovedInPlace(host: Host, r: Recovery, entries: seq<Entry>)
    requires forall l :: l in LABELS ==> StageOk(entries, l)
    ensures Grounded(host) && Isolated(host, r) ==> AllInPlace(Moved(host, r, entries, |LABELS|), entries, r)
  {
    hide Grounded, Isolated, StageOk, Moved, InPlace;
    if Grounded(host) && Isolated(host, r) {
      FourLabels();
      TreeInPlace(host, r, entries, "blobs", In(r.data, "blobs"));
      TreeInPlace(host, r, entries, "metadata", In(r.data, "metadata"));
      TreeInPlace(host, r, entries, "plugins", r.plugins);
      TreeInPlace(host, r, entries, "scrapers", r.scrapers);
    }
  }

  lemma TreeInPlace(host: Host, r: Recovery, entries: seq<Entry>, tree: string, base: Path)
    requires forall l :: l in LABELS ==> StageOk(entries, l)
    requires Grounded(host) && Isolated(host, r)
    requires (tree, base) in {("blobs", In(r.data, "blobs")), ("metadata", In(r.data, "metadata")),
                              ("plugins", r.plugins), ("scrapers", r.scrapers)}
    ensures StageOk(entries, tree) && InPlace(Moved(host, r, entries, |LABELS|), entries, tree, base)
  {
    hide Grounded, Isolated, StageOf, Moved, Graft, LabelOf, Target, Image;
    var i := PlaceOf(r, tree, base);
    assert LABELS[i] in LABELS;
    forall names: seq<string>
      ensures var q, p, stage := Extend(base, names), Extend(In(Top, tree), names), StageOf(entries, tree);
              var host' := Moved(host, r, entries, |LABELS|);
              (q in host' <==> p in stage) && (p in stage ==> host'[q] == NodeOf(stage[p]))
    {
      GraftExtends(base, tree, names);
      MovedPath(host, r, entries, i, Extend(In(Top, tree), names));
    }
  }

  // The two configuration files are outside the four places.
  lemma ConfigKeepsPlaces(host: Host, host': Host, entries: seq<Entry>, r: Recovery, database: HostNode,
                          config: HostNode)
    ensures var host'' := host'[In(r.config, "stash-go.sqlite") := database][In(r.config, "config.yml") := config];
            Grounded(host) && Isolated(host, r) && AllInPlace(host', entries, r) ==> AllInPlace(host'', entries, r)
  {
    hide Grounded, Isolated, InPlace, StageOk;
    if Grounded(host) && Isolated(host, r) && AllInPlace(host', entries, r) {
      ConfigKeepsPlace(host, host', entries, r, "blobs", In(r.data, "blobs"), database, config);
      ConfigKeepsPlace(host, host', entries, r, "metadata", In(r.data, "metadata"), database, config);
      ConfigKeepsPlace(host, host', entries, r, "plugins", r.plugins, database, config);
      ConfigKeepsPlace(host, host', entries, r, "scrapers", r.scrapers, database, config);
    }
  }

  lemma ConfigKeepsPlace(host: Host, host': Host, entries: seq<Entry>, r: Recovery, tree: string, base: Path,
                         database: HostNode, config: HostNode)
    requires Grounded(host) && Isolated(host, r) && StageOk(entries, tree) && InPlace(host', entries, tree, base)
    requires (tree, base) in {("blobs", In(r.data, "blobs")), ("metadata", In(r.data, "metadata")),
                              ("plugins", r.plugins), ("scrapers", r.scrapers)}
    ensures var host'' := host'[In(r.config, "stash-go.sqlite") := database][In(r.config, "config.yml") := config];
            InPlace(host'', entries, tree, base)
  {
    hide Grounded, Isolated, StageOk, StageOf, Target;
    var i := PlaceOf(r, tree, base);
    forall names: seq<string>
      ensures Extend(base, names) != In(r.config, "stash-go.sqlite")
      ensures Extend(base, names) != In(r.config, "config.yml")
    {
      ExtendIsBelow(base, names);
      ConfigApart(host, r, LABELS[i], Extend(base, names));
    }
  }

  lemma MovedPath(host: Host, r: Recovery, entries: seq<Entry>, i: nat, p: Path)
    requires Grounded(host) && Isolated(host, r) && forall l :: l in LABELS ==> StageOk(entries, l)
    requires i < |LABELS| && p.In? && LabelOf(p) == LABELS[i]
    ensures var q, stage := Graft(Target(r, LABELS[i]), p), StageOf(entries, LABELS[i]);
            && (q in Moved(host, r, entries, |LABELS|) <==> p in stage)
            && (p in stage ==> Moved(host, r, entries, |LABELS|)[q] == NodeOf(stage[p]))
  {
    hide Isolated, Image, Moved, Target, Under, LabelOf, Graft, Unpack, Select;
    var l, t := LABELS[i], Target(r, LABELS[i]);
    ImageAt(StageOf(entries, l), t, l, p);
    GraftsUnder(t, p);
    MovedBelow(host, r, entries, |LABELS|, i, Graft(t, p));
    TargetWasEmptyUnlessRoot(host, r, l, p);
  }

  lemma TargetReplaced(host: Host, stage: Stage, t: Path, l: string)
    requires Labelled(stage, l) && In(Top, l) in stage
    ensures host - {t} + Image(stage, t, l) == host + Image(stage, t, l)
  {
    assert Graft(t, In(Top, l)) == t && t in Image(stage, t, l);
  }

  // ---------------------------------------------------------------------
  // Capture then restore.
  // ---------------------------------------------------------------------

  lemma {:induction false} TableHas(entries: seq<Entry>, p: Path) returns (e: Entry)
    requires p in Table(entries)
    ensures e in entries && e.path == p && e.member == Table(entries)[p]
  {
    e := entries[|entries| - 1];
    if e.path != p {
      e := TableHas(entries[..|entries| - 1], p);
    }
  }

  // Every member but a root lies in a member directory.
  ghost predicate TreeShaped(members: map<Path, Member>) {
    forall p :: p in members ==> p.In? && (p.parent.Top? || (p.parent in members && members[p.parent].Folder?))
  }

  lemma SnapshotIsTree(members: map<Path, Member>, v: Volume)
    requires SnapshotOf(members, v)
    ensures TreeShaped(members)
  {
    forall p | p in members && !p.parent.Top?
      ensures p.parent in members && members[p.parent].Folder?
    {
      assert Stored(members, v, p.parent);
    }
  }

  ghost predicate Inside(stage: Stage, members: map<Path, Member>) {
    forall q :: q in stage ==> q in members && stage[q] == members[q]
  }

  lemma {:induction false} ParentsInside(stage: Stage, members: map<Path, Member>, p: Path)
    requires TreeShaped(members) && Inside(stage, members) && p in members && p.In?
    ensures ParentsFree(stage, p) && Inside(WithParents(stage, p), members)
    ensures stage.Keys <= WithParents(stage, p).Keys
  {
    if !p.parent.Top? {
      ParentsInside(stage, members, p.parent);
    }
  }

  lemma {:induction false} UnpackTree(entries: seq<Entry>, members: map<Path, Member>)
    requires TreeShaped(members)
    requires forall e :: e in entries ==> e.path.In? && e.path in members && members[e.path] == e.member
    ensures Unpack(entries).Some? && Inside(Unpack(entries).value, members)
    ensures forall e :: e in entries ==> e.path in Unpack(entries).value
  {
    if entries != [] {
      var before, e := entries[..|entries| - 1], entries[|entries| - 1];
      UnpackTree(before, members);
      ParentsInside(Unpack(before).value, members, e.path);
      assert forall x :: x in entries ==> x in before || x == e;
    }
  }

  // Unpacking the members of one label gives back exactly the archive's table.
  lemma StageIsTable(entries: seq<Entry>, l: string)
    requires Coherent(entries) && TreeShaped(Table(entries)) && HasRoots(Table(entries)) && l in LABELS
    ensures StageOk(entries, l)
    ensures StageOf(entries, l) == map p | p in Table(entries) && LabelOf(p) == l :: Table(entries)[p]
  {
    var table := Table(entries);
    UnpackTree(Select(entries, l), table);
    UnpackLabelled(Select(entries, l), l);
    var stage := Unpack(Select(entries, l)).value;
    forall p | p in table && LabelOf(p) == l
      ensures p in stage
    {
      var e := TableHas(entries, p);
    }
  }

  ghost predicate SharedFile(v: Volume, p: Path, q: Path) {
    && p != q && p.In? && q.In? && LabelOf(p) in LABELS && LabelOf(q) in LABELS
    && Resolve(v, p).Some? && Resolve(v, q) == Resolve(v, p) && At(v, p).File?
  }

  lemma SafeUnlessLinked(entries: seq<Entry>, v: Volume)
    requires Coherent(entries) && SnapshotOf(Table(entries), v)
    requires forall p: Path :: p in Table(entries) ==> NoDotDot(p)
    ensures (forall e :: e in entries ==> Safe(e)) <==> !exists p :: p in Table(entries) && Table(entries)[p].Hard?
  {
    hide Resolve, NoDotDot, LabelOf, Table;
    var table := Table(entries);
    if p :| p in table && table[p].Hard? {
      var e := TableHas(entries, p);
      assert !Safe(e);
    } else {
      forall e | e in entries
        ensures Safe(e)
      {
        assert e.path in table && Stored(table, v, e.path);
      }
    }
  }

  lemma SnapshotMembers(members: map<Path, Member>, v: Volume)
    requires SnapshotOf(members, v)
    ensures forall p: Path :: p in members <==> p.In? && LabelOf(p) in LABELS && Resolve(v, p).Some?
  {
    hide Resolve, Stored;
  }

  lemma SharedMembers(members: map<Path, Member>, v: Volume)
    requires SnapshotOf(members, v)
    ensures (exists p :: p in members && members[p].Hard?) <==> exists p, q :: SharedFile(v, p, q)
  {
    hide Resolve, LabelOf, Stored, SnapshotOf;
    SnapshotMembers(members, v);
    LinksAreSharedFiles(members, v);
    if p, q :| SharedFile(v, p, q) {
      assert p in members && q in members;
    }
    if p, q :| p in members && q in members && p != q && At(v, p).File? && Resolve(v, p) == Resolve(v, q) {
      assert SharedFile(v, p, q);
    }
  }

  lemma AllStagesOk(b: Bundle, h: seq<Volume>, instant: nat)
    requires Consistent(b, h, instant)
    ensures TreeShaped(Table(b.state)) && forall l :: l in LABELS ==> StageOk(b.state, l)
  {
    hide TreeShaped, StageOk, Coherent, HasRoots, SnapshotOf;
    SnapshotIsTree(Table(b.state), h[instant]);
    forall l | l in LABELS
      ensures StageOk(b.state, l)
    {
      StageIsTable(b.state, l);
    }
  }

  // A captured bundle can be restored exactly when no file of the four trees has two names:
  // the archive stores a second name as a link, which the restore refuses.
  lemma RestorableUnlessShared(b: Bundle, completedAt: int, h: seq<Volume>, instant: nat, host: Host, r: Recovery)
    requires Consistent(b, h, instant) && Isolated(host, r)
    requires forall p: Path :: p in Table(b.state) ==> NoDotDot(p)
    ensures Restorable(Some(Published.Generation(b, completedAt)), true, host, r) <==>
              !exists p, q :: SharedFile(h[instant], p, q)
  {
    hide Isolated, NoDotDot, Coherent, HasRoots, SnapshotOf;
    hide Safe, StageOk, SharedFile, TreeShaped, Published.Accepted, Published.Generation;
    AllStagesOk(b, h, instant);
    Published.GenerationAccepted(b, completedAt);
    SharedMembers(Table(b.state), h[instant]);
    SafeUnlessLinked(b.state, h[instant]);
  }

  lemma ImageKeys(stage: Stage, t: Path, l: string, q: Path)
    requires Labelled(stage, l) && q in Image(stage, t, l)
    ensures AtOrUnder(q, t)
  {
    var p :| p in stage && Graft(t, p) == q;
    GraftsUnder(t, p);
  }

  lemma {:induction false} MovedElsewhere(host: Host, r: Recovery, entries: seq<Entry>, n: nat, q: Path)
    requires n <= |LABELS| && forall i :: 0 <= i < n ==> StageOk(entries, LABELS[i])
    requires forall i :: 0 <= i < n ==> !AtOrUnder(q, Target(r, LABELS[i]))
    ensures q in Moved(host, r, entries, n) <==> q in host
    ensures q in host ==> Moved(host, r, entries, n)[q] == host[q]
  {
    hide Image, AtOrUnder;
    if n > 0 {
      MovedElsewhere(host, r, entries, n - 1, q);
      var l := LABELS[n - 1];
      if q in Image(StageOf(entries, l), Target(r, l), l) {
        ImageKeys(StageOf(entries, l), Target(r, l), l, q);
      }
    }
  }

  lemma BelowOneTarget(host: Host, r: Recovery, i: nat, j: nat, q: Path)
    requires Grounded(host) && Isolated(host, r) && i < |LABELS| && j < |LABELS| && i != j
    requires AtOrUnder(q, Target(r, LABELS[i]))
    ensures !AtOrUnder(q, Target(r, LABELS[j]))
  {
    hide AtOrUnder, Isolated, Target, Grounded;
    LabelsDiffer(i, j);
    TargetsDisjoint(host, r, LABELS[i], LABELS[j], q);
  }

  // Below one target the restored host holds that label's tree.
  lemma {:induction false} MovedBelow(host: Host, r: Recovery, entries: seq<Entry>, n: nat, i: nat, q: Path)
    requires Grounded(host) && Isolated(host, r)
    requires i < n <= |LABELS| && forall j :: 0 <= j < n ==> StageOk(entries, LABELS[j])
    requires AtOrUnder(q, Target(r, LABELS[i]))
    ensures var image := Image(StageOf(entries, LABELS[i]), Target(r, LABELS[i]), LABELS[i]);
            && (q in Moved(host, r, entries, n) <==> q in host || q in image)
            && (q in image ==> Moved(host, r, entries, n)[q] == image[q])
    decreases n
  {
    hide Image, AtOrUnder, Isolated, Target, StageOk, StageOf, Labelled, Grounded, Moved;
    MovedOnce(host, r, entries, n);
    if n - 1 == i {
      forall j | 0 <= j < i
        ensures !AtOrUnder(q, Target(r, LABELS[j]))
      {
        BelowOneTarget(host, r, i, j, q);
      }
      MovedElsewhere(host, r, entries, i, q);
    } else {
      var l := LABELS[n - 1];
      MovedBelow(host, r, entries, n - 1, i, q);
      BelowOneTarget(host, r, i, n - 1, q);
      NotInImage(entries, r, l, q);
    }
  }

  lemma MovedOnce(host: Host, r: Recovery, entries: seq<Entry>, n: nat)
    requires 0 < n <= |LABELS| && forall i :: 0 <= i < n ==> StageOk(entries, LABELS[i])
    ensures var l := LABELS[n - 1];
            Moved(host, r, entries, n) == Moved(host, r, entries, n - 1) + Image(StageOf(entries, l), Target(r, l), l)
  {
    hide Image, StageOk, StageOf, Target;
  }

  lemma NotInImage(entries: seq<Entry>, r: Recovery, l: string, q: Path)
    requires l in LABELS && StageOk(entries, l) && !AtOrUnder(q, Target(r, l))
    ensures q !in Image(StageOf(entries, l), Target(r, l), l)
  {
    hide Image, AtOrUnder, StageOk, Target;
    if q in Image(StageOf(entries, l), Target(r, l), l) {
      ImageKeys(StageOf(entries, l), Target(r, l), l, q);
    }
  }

  lemma LabelsDiffer(i: nat, j: nat)
    requires i < |LABELS| && j < |LABELS| && i != j
    ensures LABELS[i] != LABELS[j]
  {
    assert LABELS[0][0] == 'b' && LABELS[1][0] == 'm' && LABELS[2][0] == 'p' && LABELS[3][0] == 's';
  }

  lemma ImageAt(stage: Stage, t: Path, l: string, p: Path)
    requires Labelled(stage, l) && p.In? && LabelOf(p) == l
    ensures Graft(t, p) in Image(stage, t, l) <==> p in stage
    ensures p in stage ==> Image(stage, t, l)[Graft(t, p)] == NodeOf(stage[p])
  {
    GraftsInjective(stage, t, l);
    if Graft(t, p) in Image(stage, t, l) {
      var x :| x in stage && Graft(t, x) == Graft(t, p);
      GraftInjective(t, x, p);
    }
  }

  function HostFormOf(node: Inode): HostNode {
    match node
    case Dir(_, _, _) => HostDir
    case File(content, _, _, _) => HostFile(Plain(content))
    case Other(_, _) => HostLink
  }

  // What the restored host holds below a target is what the archive holds for its label.
  lemma RestoredTable(f: Published.Folder, host: Host, r: Recovery, i: nat, p: Path)
    requires Grounded(host) && Restorable(Some(f), true, host, r)
    requires var entries := f[Published.StateFile].entries;
             Coherent(entries) && TreeShaped(Table(entries)) && HasRoots(Table(entries))
    requires i < |LABELS| && p.In? && LabelOf(p) == LABELS[i]
    ensures var q, table := Graft(Target(r, LABELS[i]), p), Table(f[Published.StateFile].entries);
            && (q in Restored(f, host, r) <==> p in table)
            && (p in table ==> Restored(f, host, r)[q] == NodeOf(table[p]))
  {
    hide Isolated, StageOk, Image, Moved, Target, Safe, TreeShaped, Coherent, Under, LabelOf, Graft, Unpack, Select;
    var entries := f[Published.StateFile].entries;
    var l, t := LABELS[i], Target(r, LABELS[i]);
    var q := Graft(t, p);
    StageIsTable(entries, l);
    ImageAt(StageOf(entries, l), t, l, p);
    GraftsUnder(t, p);
    MovedBelow(host, r, entries, |LABELS|, i, q);
    ConfigApart(host, r, l, q);
    TargetWasEmptyUnlessRoot(host, r, l, p);
  }

  lemma TargetWasEmptyUnlessRoot(host: Host, r: Recovery, l: string, p: Path)
    requires Grounded(host) && Isolated(host, r) && l in LABELS && p.In? && LabelOf(p) == l
    ensures Graft(Target(r, l), p) in host ==> p == In(Top, l)
  {
    var t := Target(r, l);
    GraftsUnder(t, p);
    if Graft(t, p) in host {
      TargetWasEmpty(host, r, l, Graft(t, p));
      GraftInjective(t, p, In(Top, l));
    }
  }

  // What the restored host holds at the place of a captured path.
  lemma RestoredPath(b: Bundle, completedAt: int, h: seq<Volume>, instant: nat, host: Host, r: Recovery, i: nat,
                     p: Path)
    requires Consistent(b, h, instant) && Grounded(host)
    requires Restorable(Some(Published.Generation(b, completedAt)), true, host, r)
    requires i < |LABELS| && p.In? && LabelOf(p) == LABELS[i]
    ensures var q := Graft(Target(r, LABELS[i]), p);
            var host' := Restored(Published.Generation(b, completedAt), host, r);
            && (q in host' <==> Resolve(h[instant], p).Some?)
            && (q in host' ==> host'[q] == HostFormOf(At(h[instant], p)) && !At(h[instant], p).Other?)
  {
    hide Resolve, Restored, Graft, Target, Coherent, HasRoots, TreeShaped, Restorable, Published.Generation;
    AllStagesOk(b, h, instant);
    Published.GenerationAccepted(b, completedAt);
    RestoredTable(Published.Generation(b, completedAt), host, r, i, p);
    var table := Table(b.state);
    if p in table {
      assert Stored(table, h[instant], p);
      RestorableHasNoLinks(b, completedAt, host, r, p);
    }
  }

  lemma {:induction false} GraftExtends(t: Path, l: string, names: seq<string>)
    ensures var p := Extend(In(Top, l), names);
            p.In? && LabelOf(p) == l && Graft(t, p) == Extend(t, names)
    decreases |names|
  {
    if names != [] {
      GraftExtends(t, l, names[..|names| - 1]);
      assert Extend(In(Top, l), names[..|names| - 1]).In?;
    }
  }

  /**
    Restoring a capture reproduces the four trees of the captured instant, each in its own
    place: the same names, the same kinds and the same bytes, and nothing more.
   */
  lemma CaptureThenRestore(b: Bundle, completedAt: int, h: seq<Volume>, instant: nat, host: Host, r: Recovery,
                           tree: string, base: Path, names: seq<string>)
    requires Consistent(b, h, instant) && Grounded(host)
    requires Restorable(Some(Published.Generation(b, completedAt)), true, host, r)
    requires (tree, base) in {("blobs", In(r.data, "blobs")), ("metadata", In(r.data, "metadata")),
                               ("plugins", r.plugins), ("scrapers", r.scrapers)}
    ensures var q, p := Extend(base, names), Extend(In(Top, tree), names);
            var v, host' := h[instant], Restored(Published.Generation(b, completedAt), host, r);
            && (q in host' <==> Resolve(v, p).Some?)
            && (q in host' ==> (host'[q] == HostDir <==> At(v, p).Dir?))
            && (q in host' && host'[q] != HostDir ==> At(v, p).File? && host'[q] == HostFile(Plain(At(v, p).content)))
  {
    hide Resolve, Restored, Graft, LabelOf, Restorable, Consistent, Published.Generation;
    var i := PlaceOf(r, tree, base);
    GraftExtends(base, tree, names);
    RestoredPath(b, completedAt, h, instant, host, r, i, Extend(In(Top, tree), names));
  }

  lemma PlaceOf(r: Recovery, tree: string, base: Path) returns (i: nat)
    requires (tree, base) in {("blobs", In(r.data, "blobs")), ("metadata", In(r.data, "metadata")),
                               ("plugins", r.plugins), ("scrapers", r.scrapers)}
    ensures i < |LABELS| && LABELS[i] == tree && Target(r, LABELS[i]) == base
  {
    LabelsDiffer(0, 2);
    LabelsDiffer(0, 3);
    LabelsDiffer(1, 2);
    LabelsDiffer(1, 3);
    LabelsDiffer(2, 3);
    i := if tree == LABELS[0] then 0 else if tree == LABELS[1] then 1 else if tree == LABELS[2] then 2 else 3;
  }

  /**
    The rest of the host is left alone: nothing but the two configuration files and what is at
    or below the four places is made, changed or removed.
   */
  lemma RestLeftAlone(f: Published.Folder, host: Host, r: Recovery, q: Path)
    requires Restorable(Some(f), true, host, r)
    requires !AtOrUnder(q, In(r.data, "blobs")) && !AtOrUnder(q, In(r.data, "metadata"))
    requires !AtOrUnder(q, r.plugins) && !AtOrUnder(q, r.scrapers)
    requires q != In(r.config, "stash-go.sqlite") && q != In(r.config, "config.yml")
    ensures q in Restored(f, host, r) <==> q in host
    ensures q in host ==> Restored(f, host, r)[q] == host[q]
  {
    hide Isolated, StageOk, Image, Moved, Safe, Under;
    var entries := f[Published.StateFile].entries;
    assert forall i :: 0 <= i < |LABELS| ==> LABELS[i] in LABELS;
    MovedElsewhere(host, r, entries, |LABELS|, q);
  }

  lemma RestorableHasNoLinks(b: Bundle, completedAt: int, host: Host, r: Recovery, p: Path)
    requires Restorable(Some(Published.Generation(b, completedAt)), true, host, r) && p in Table(b.state)
    ensures Table(b.state)[p].Folder? || Table(b.state)[p].Blob?
  {
    var e := TableHas(b.state, p);
    assert Safe(e);
  }

  // Some component of the path is dot-dot.
  ghost predicate HasDotDot(p: Path) {
    exists x, names :: p == Extend(In(x, ".."), names)
  }

  lemma {:induction false} DotDotAnywhere(p: Path)
    ensures NoDotDot(p) <==> !HasDotDot(p)
  {
    if HasDotDot(p) {
      var x, names :| p == Extend(In(x, ".."), names);
      if names != [] {
        DotDotAnywhere(p.parent);
        assert p.parent == Extend(In(x, ".."), names[..|names| - 1]);
      }
    } else if p.In? {
      DotDotAnywhere(p.parent);
      assert p.name != ".." by {
        assert Extend(In(p.parent, ".."), []) == In(p.parent, "..");
      }
      if HasDotDot(p.parent) {
        var x, names :| p.parent == Extend(In(x, ".."), names);
        ExtendOnce(In(x, ".."), names, p.name);
      }
    }
  }

  // Some list of names leads from one of the four labels to the path.
  ghost predicate BelowLabel(p: Path) {
    exists l, names :: l in {"blobs", "metadata", "plugins", "scrapers"} && p == Extend(In(Top, l), names)
  }

  lemma {:induction false} LabelledBelow(p: Path)
    ensures p.In? && LabelOf(p) in LABELS <==> BelowLabel(p)
  {
    FourLabels();
    if BelowLabel(p) {
      var l, names :| l in {"blobs", "metadata", "plugins", "scrapers"} && p == Extend(In(Top, l), names);
      GraftExtends(Top, l, names);
    }
    if p.In? && LabelOf(p) in LABELS {
      BelowItsLabel(p);
      var names := BelowIsExtend(p, In(Top, LabelOf(p)));
      assert p == Extend(In(Top, LabelOf(p)), names);
    }
  }

  lemma {:induction false} BelowItsLabel(p: Path)
    requires p.In?
    ensures AtOrUnder(p, In(Top, LabelOf(p)))
  {
    if !p.parent.Top? {
      BelowItsLabel(p.parent);
    }
  }

  lemma FourLabels()
    ensures forall l :: l in LABELS <==> l in {"blobs", "metadata", "plugins", "scrapers"}
  {
    assert LABELS[0] == "blobs" && LABELS[1] == "metadata" && LABELS[2] == "plugins" && LABELS[3] == "scrapers";
  }

  /**
    All that a restore asks for: a bundle directory with digests of exactly the four payloads,
    each as recorded; a sound database; four distinct and empty directories; an archive of
    files and directories alone, below the four labels and without a dot-dot component; and
    each label's members can be unpacked to a directory.
   */
  lemma RestorableExactly(bundle: Option<Published.Folder>, integrity: bool, host: Host, r: Recovery)
    ensures Restorable(bundle, integrity, host, r) <==>
            && bundle.Some? && integrity && RosterAgrees(bundle.value) && bundle.value[Published.StateFile].State?
            && r.config != r.data && r.config != r.plugins && r.config != r.scrapers
            && r.data != r.plugins && r.data != r.scrapers && r.plugins != r.scrapers
            && EmptyAt(host, r.config) && EmptyAt(host, r.data) && EmptyAt(host, r.plugins) && EmptyAt(host, r.scrapers)
            && var entries := bundle.value[Published.StateFile].entries;
               && (forall e :: e in entries ==>
                     (e.member.Folder? || e.member.Blob?) && BelowLabel(e.path) && !HasDotDot(e.path))
               && forall l :: l in {"blobs", "metadata", "plugins", "scrapers"} ==> StageOk(entries, l)
  {
    hide StageOk, Safe, BelowLabel, HasDotDot, EmptyDirectory, EmptyAt;
    FourLabels();
    FourApart(r.config, r.data, r.plugins, r.scrapers);
    EmptyExactly(host, r.config);
    EmptyExactly(host, r.data);
    EmptyExactly(host, r.plugins);
    EmptyExactly(host, r.scrapers);
    forall e
      ensures Safe(e) <==> (e.member.Folder? || e.member.Blob?) && BelowLabel(e.path) && !HasDotDot(e.path)
    {
      SafeExactly(e);
    }
  }

  lemma SafeExactly(e: Entry)
    ensures Safe(e) <==> (e.member.Folder? || e.member.Blob?) && BelowLabel(e.path) && !HasDotDot(e.path)
  {
    hide BelowLabel, HasDotDot, NoDotDot, LabelOf;
    LabelledBelow(e.path);
    DotDotAnywhere(e.path);
  }

  // A directory with nothing in it.
  ghost predicate EmptyAt(host: Host, d: Path) {
    d in host && host[d] == HostDir && forall n :: In(d, n) !in host
  }

  // The checksum file names the four payloads, and each is there as its digest says.
  predicate RosterAgrees(f: Published.Folder) {
    && Published.ChecksumsFile in f && f[Published.ChecksumsFile].Checksums?
    && var digests := f[Published.ChecksumsFile].digests;
       && digests.Keys ==
            {Published.DatabaseFile, Published.ConfigFile, Published.StateFile, Published.MetadataFile}
       && forall name :: name in digests ==> name in f && f[name] == digests[name]
  }

  lemma EmptyExactly(host: Host, d: Path)
    ensures EmptyDirectory(host, d) <==> EmptyAt(host, d)
  {
    if EmptyAt(host, d) {
      forall q | q in host && q.In?
        ensures q.parent != d
      {
        assert q == In(q.parent, q.name);
      }
    }
  }

  lemma FourApart(a: Path, b: Path, c: Path, d: Path)
    ensures |{a, b, c, d}| == 4 <==> a != b && a != c && a != d && b != c && b != d && c != d
  {
    if |{a, b, c, d}| == 4 {
      FourDistinct(a, b, c, d);
    }
    if a != b && a != c && a != d && b != c && b != d && c != d {
      assert {a, b, c, d} == {a} + {b} + {c} + {d};
      assert |{a} + {b}| == 2 && |{a} + {b} + {c}| == 3;
    }
  }

  // The copied database and configuration land outside the four targets.
  lemma ConfigApart(host: Host, r: Recovery, l: string, q: Path)
    requires Grounded(host) && Isolated(host, r) && l in LABELS && AtOrUnder(q, Target(r, l))
    ensures q != In(r.config, "stash-go.sqlite") && q != In(r.config, "config.yml")
  {
    FourDistinct(r.config, r.data, r.plugins, r.scrapers);
    var base := if l == LABELS[2] then r.plugins else if l == LABELS[3] then r.scrapers else r.data;
    EmptyApart(host, r.config, base, "stash-go.sqlite", l);
    EmptyApart(host, r.config, base, "config.yml", l);
  }

  lemma TargetWasEmpty(host: Host, r: Recovery, l: string, q: Path)
    requires Grounded(host) && Isolated(host, r) && l in LABELS && AtOrUnder(q, Target(r, l)) && q in host
    ensures q == Target(r, l)
  {
    if l == LABELS[2] {
      NothingUnderEmpty(host, r.plugins, q);
    } else if l == LABELS[3] {
      NothingUnderEmpty(host, r.scrapers, q);
    } else {
      NothingUnderEmpty(host, r.data, q);
      if Under(q, In(r.data, l)) {
        UnderChild(q, r.data, l);
      }
    }
  }

  // The database and the configuration come back as captured.
  lemma DatabaseRestored(b: Bundle, completedAt: int, h: seq<Volume>, instant: nat, host: Host, r: Recovery)
    requires Consistent(b, h, instant) && Restorable(Some(Published.Generation(b, completedAt)), true, host, r)
    ensures var host' := Restored(Published.Generation(b, completedAt), host, r);
            && host'[In(r.config, "stash-go.sqlite")] == HostFile(CopyOf(Published.Database(h[instant].database)))
            && host'[In(r.config, "config.yml")] == HostFile(CopyOf(Published.Config(b.config)))
  {
    hide SnapshotOf, HasRoots, Coherent, Isolated, Safe, StageOk, Moved;
    assert "stash-go.sqlite"[0] != "config.yml"[0];
  }
}
