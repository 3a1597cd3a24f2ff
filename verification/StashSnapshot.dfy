/**
  The double collect of the Stash capture: inventory the four trees, copy the
  database, archive the trees, inventory again, and keep the archive only when the
  two inventories agree.

  Inodes, directory entries and ctimes are explicit and a live writer runs between
  any two reads.  The result is that an accepted archive is the tree of one instant.
 */
module StashSnapshot {
  import opened Wrappers
  import opened Paths
  import opened ByteStrings

  type Ino = nat

  datatype Inode =
    | File(content: Bytes, ctime: int, attributes: int, links: nat)
    | Dir(entries: map<string, Ino>, ctime: int, attributes: int)
    | Other(ctime: int, attributes: int)

  // Node 0 is a directory above the four trees: its entries are the labels, and the empty
  // path leads to it.
  datatype Volume = Volume(nodes: map<Ino, Inode>, database: Bytes, config: Bytes)

  const TOP: Ino := 0

  const LABELS: seq<string> := ["blobs", "metadata", "plugins", "scrapers"]

  predicate Names(v: Volume, d: Ino, n: string) {
    d in v.nodes && v.nodes[d].Dir? && n in v.nodes[d].entries && v.nodes[d].entries[n] in v.nodes
  }

  function Target(v: Volume, d: Ino, n: string): Ino
    requires Names(v, d, n)
  {
    v.nodes[d].entries[n]
  }

  // Path lookup, without following links.
  function Resolve(v: Volume, p: Path): Option<Ino>
    ensures Resolve(v, p).Some? ==> Resolve(v, p).value in v.nodes
  {
    match p
    case Top => if TOP in v.nodes then Some(TOP) else None
    case In(parent, n) =>
      var d := Resolve(v, parent);
      if d.Some? && Names(v, d.value, n) then Some(Target(v, d.value, n)) else None
  }

  // The inode found at a path.
  function At(v: Volume, p: Path): Inode
    requires Resolve(v, p).Some?
  {
    v.nodes[Resolve(v, p).value]
  }

  // ---------------------------------------------------------------------
  // What the live application may do in one step.
  // ---------------------------------------------------------------------

  predicate SameEntry(s: Volume, t: Volume, d: Ino, n: string)
    requires Names(t, d, n)
  {
    Names(s, d, n) && Target(s, d, n) == Target(t, d, n)
  }

  // Any change of an inode advances its ctime, no inode disappears, and the roots stay in place.
  ghost predicate AdvancingStep(s: Volume, t: Volume) {
    && TOP in s.nodes && TOP in t.nodes && s.nodes[TOP] == t.nodes[TOP]
    && s.nodes.Keys <= t.nodes.Keys
    && (forall i :: i in s.nodes ==> s.nodes[i] == t.nodes[i] || s.nodes[i].ctime < t.nodes[i].ctime)
  }

  ghost predicate Advancing(h: seq<Volume>) {
    && h != [] && TOP in h[0].nodes
    && (forall i :: 0 < i < |h| ==> AdvancingStep(h[i - 1], h[i]))
  }

  // A file that two paths lead to has a link count above one.
  ghost predicate LinkCounts(v: Volume) {
    forall p, q :: p != q && Resolve(v, p).Some? && Resolve(v, p) == Resolve(v, q) && At(v, p).File? ==>
      At(v, p).links > 1
  }

  // The path leads to one and the same unchanged directory at two instants.
  ghost predicate LeadsBack(h: seq<Volume>, p: Path, a: nat, c: nat) {
    && a <= c < |h| && IsDirectory(h[a], p)
    && Resolve(h[c], p) == Resolve(h[a], p) && At(h[c], p) == At(h[a], p)
  }

  ghost predicate StaysPut(h: seq<Volume>, p: Path, a: nat, c: nat)
    requires a <= c < |h|
  {
    forall b :: a <= b <= c ==> Resolve(h[b], p) == Resolve(h[a], p)
  }

  // No path is led away from a directory and back to it unchanged.
  ghost predicate NoReturn(h: seq<Volume>) {
    forall p, a, c :: LeadsBack(h, p, a, c) ==> StaysPut(h, p, a, c)
  }

  // A link or special file takes the place of something found there before.
  ghost predicate LinkAppears(h: seq<Volume>, p: Path, s: nat, t: nat) {
    s <= t < |h| && p.In? && Resolve(h[s], p).Some? && !IsOther(h[s], p) && IsOther(h[t], p)
  }

  ghost predicate NoLinkAppears(h: seq<Volume>) {
    forall p, s, t :: !LinkAppears(h, p, s, t)
  }

  // What the double collect needs of the application.
  ghost predicate Calm(h: seq<Volume>) {
    Advancing(h) && NoReturn(h) && NoLinkAppears(h) && forall i :: 0 <= i < |h| ==> LinkCounts(h[i])
  }

  // A discipline that keeps a history calm: a new name is given to a regular file, or to a
  // directory that is empty and has just been created or touched.  The application never
  // renames a directory with something in it, and never makes links or special files.  A
  // named inode keeps its kind.
  ghost predicate WriterStep(s: Volume, t: Volume) {
    AdvancingStep(s, t) && forall d, n :: Names(t, d, n) ==> EntryAllowed(s, t, d, n)
  }

  predicate EntryAllowed(s: Volume, t: Volume, d: Ino, n: string)
    requires Names(t, d, n)
  {
    var i := Target(t, d, n);
    if SameEntry(s, t, d, n) then KindOf(s.nodes[i]) == KindOf(t.nodes[i])
    else
      || t.nodes[i].File?
      || (t.nodes[i].Dir? && t.nodes[i].entries == map[] && (i in s.nodes ==> s.nodes[i] != t.nodes[i]))
  }

  ghost predicate Disciplined(h: seq<Volume>) {
    && h != [] && TOP in h[0].nodes
    && (forall i :: 0 < i < |h| ==> WriterStep(h[i - 1], h[i]))
    && (forall i :: 0 <= i < |h| ==> LinkCounts(h[i]))
  }

  // The discipline is enough.
  lemma DisciplinedIsCalm(h: seq<Volume>)
    requires Disciplined(h)
    ensures Calm(h)
  {
    hide LinkCounts, EntryAllowed, Resolve;
    assert Advancing(h);
    forall p, a: nat, c: nat | LeadsBack(h, p, a, c)
      ensures StaysPut(h, p, a, c)
    {
      DirectoryReturns(h, p, a, c);
    }
    forall p, s: nat, t: nat
      ensures !LinkAppears(h, p, s, t)
    {
      if LinkAppears(h, p, s, t) {
        OtherWasThere(h, s, t, p);
      }
    }
  }

  lemma DirectoryReturns(h: seq<Volume>, p: Path, a: nat, c: nat)
    requires Disciplined(h) && Advancing(h) && LeadsBack(h, p, a, c)
    ensures StaysPut(h, p, a, c)
  {
    hide Disciplined, Advancing, Resolve;
    var i := Resolve(h[a], p).value;
    SameCtimeIsFrozen(h, a, c, i);
    forall b | a <= b <= c
      ensures Resolve(h[b], p) == Resolve(h[a], p)
    {
      assert Frozen(h, b, c, i);
      DirectoryStays(h, b, c, p);
    }
  }

  lemma {:induction false} CtimesAdvance(h: seq<Volume>, a: nat, b: nat, i: Ino)
    requires Advancing(h) && a <= b < |h| && i in h[a].nodes
    ensures i in h[b].nodes
    ensures h[a].nodes[i] == h[b].nodes[i] || h[a].nodes[i].ctime < h[b].nodes[i].ctime
    decreases b
  {
    if a < b {
      CtimesAdvance(h, a, b - 1, i);
      assert AdvancingStep(h[b - 1], h[b]);
    }
  }

  ghost predicate Frozen(h: seq<Volume>, a: nat, b: nat, i: Ino)
    requires a <= b < |h|
  {
    i in h[a].nodes && forall t :: a <= t <= b ==> i in h[t].nodes && h[t].nodes[i] == h[a].nodes[i]
  }

  lemma SameCtimeIsFrozen(h: seq<Volume>, a: nat, b: nat, i: Ino)
    requires Advancing(h) && a <= b < |h|
    requires i in h[a].nodes && i in h[b].nodes && h[a].nodes[i].ctime == h[b].nodes[i].ctime
    ensures Frozen(h, a, b, i)
  {
    forall t | a <= t <= b
      ensures i in h[t].nodes && h[t].nodes[i] == h[a].nodes[i]
    {
      CtimesAdvance(h, a, t, i);
      CtimesAdvance(h, t, b, i);
    }
  }

  // A directory found at a path was there already, unless it is new and empty.
  lemma {:induction false} DirectoryWasThere(s: Volume, t: Volume, p: Path)
    requires WriterStep(s, t)
    requires Resolve(t, p).Some? && At(t, p).Dir?
    requires At(t, p).entries != map[] || (Resolve(t, p).value in s.nodes && s.nodes[Resolve(t, p).value] == At(t, p))
    ensures Resolve(s, p) == Resolve(t, p)
  {
    if p.In? {
      var j := Resolve(t, p.parent).value;
      assert Names(t, j, p.name);
      DirectoryWasThere(s, t, p.parent);
      assert EntryAllowed(s, t, j, p.name);
    }
  }

  lemma {:induction false} DirectoryStays(h: seq<Volume>, a: nat, b: nat, p: Path)
    requires Disciplined(h) && a <= b < |h|
    requires Resolve(h[b], p).Some? && At(h[b], p).Dir?
    requires Frozen(h, a, b, Resolve(h[b], p).value)
    ensures Resolve(h[a], p) == Resolve(h[b], p)
    decreases b
  {
    if a < b {
      var x := Resolve(h[b], p).value;
      assert h[b - 1].nodes[x] == h[a].nodes[x] == h[b].nodes[x];
      assert WriterStep(h[b - 1], h[b]);
      DirectoryWasThere(h[b - 1], h[b], p);
      DirectoryStays(h, a, b - 1, p);
    }
  }

  // Links and special files found at a path were always there.
  lemma {:induction false} OtherWasThere(h: seq<Volume>, a: nat, b: nat, p: Path)
    requires Disciplined(h) && a <= b < |h| && p.In?
    requires Resolve(h[b], p).Some? && At(h[b], p).Other?
    ensures Resolve(h[a], p) == Resolve(h[b], p) && At(h[a], p).Other?
    decreases b
  {
    if a < b {
      var s, t := h[b - 1], h[b];
      var j := Resolve(t, p.parent).value;
      assert Names(t, j, p.name);
      DirectoryWasThere(s, t, p.parent);
      assert EntryAllowed(s, t, j, p.name);
      OtherWasThere(h, a, b - 1, p);
    }
  }

  // ---------------------------------------------------------------------
  // One inventory.
  // ---------------------------------------------------------------------

  datatype Kind = Regular | Directory | Special

  function KindOf(node: Inode): Kind {
    match node
    case File(_, _, _, _) => Regular
    case Dir(_, _, _) => Directory
    case Other(_, _) => Special
  }

  datatype Stat = Stat(ino: Ino, kind: Kind, size: nat, ctime: int, attributes: int)

  function StatOf(i: Ino, node: Inode): Stat {
    Stat(i, KindOf(node), if node.File? then |node.content| else 0, node.ctime, node.attributes)
  }

  type Inventory = map<Path, Stat>

  predicate Observed(v: Volume, p: Path, s: Stat) {
    && Resolve(v, p).Some?
    && s == StatOf(Resolve(v, p).value, At(v, p))
    && !s.kind.Special?
  }

  predicate IsDirectory(v: Volume, p: Path) {
    Resolve(v, p).Some? && At(v, p).Dir?
  }

  // `n` is an entry of the directory at `p`.
  predicate Lists(v: Volume, p: Path, n: string) {
    Resolve(v, p).Some? && Names(v, Resolve(v, p).value, n)
  }

  // A root, or a path whose last name its parent's listing showed.
  ghost predicate Rooted(h: seq<Volume>, listed: map<Path, nat>, p: Path) {
    && p.In?
    && if p.parent.Top? then p.name in LABELS
       else p.parent in listed && listed[p.parent] < |h| && Lists(h[listed[p.parent]], p.parent, p.name)
  }

  // The state of a walk: `at` and `listed` are the instants at which a recorded stat and
  // a directory listing were taken; `queue` holds directories still to be walked, in any
  // order, and `todo` the listed paths that still need a stat.  `skipped` are directories
  // passed over in silence because there was a link in their place when they were reached.
  datatype Walk = Walk(
    result: Inventory, at: map<Path, nat>, listed: map<Path, nat>, queue: set<Path>, todo: set<Path>,
      skipped: map<Path, nat>)

  ghost predicate Recorded(h: seq<Volume>, lo: nat, w: Walk) {
    && w.result.Keys == w.at.Keys
    && (forall p :: p in w.result ==> lo <= w.at[p] < |h| && Observed(h[w.at[p]], p, w.result[p]))
  }

  ghost predicate AllRooted(h: seq<Volume>, w: Walk) {
    && (forall p {:trigger Rooted(h, w.listed, p)} :: p in w.at.Keys + w.todo + w.queue ==> Rooted(h, w.listed, p))
    && w.todo !! w.at.Keys && w.todo !! w.queue && w.queue !! w.listed.Keys
    && (forall p :: p in w.todo ==> p.In? && !p.parent.Top?)
    && (forall p :: p in w.queue ==> p.In? && (p.parent.Top? || p in w.at))
  }

  predicate IsOther(v: Volume, p: Path) {
    Resolve(v, p).Some? && At(v, p).Other?
  }

  // A skipped directory was a link at some instant after its stat.
  ghost predicate AllSkipped(h: seq<Volume>, w: Walk) {
    && w.queue !! w.skipped.Keys
    && forall p :: p in w.skipped ==> p.In? && p in w.at && w.at[p] <= w.skipped[p] < |h| && IsOther(h[w.skipped[p]], p)
  }

  // A name in a listing was recorded no earlier than its directory, and is or will be
  // walked when it was a directory, unless it was skipped.
  ghost predicate Followed(h: seq<Volume>, w: Walk, p: Path, n: string)
    requires p in w.listed && w.listed[p] < |h|
  {
    && p in w.at && In(p, n) in w.at
    && w.at[p] <= w.at[In(p, n)]
    && (IsDirectory(h[w.listed[p]], In(p, n)) ==> In(p, n) in w.listed || In(p, n) in w.queue || In(p, n) in w.skipped)
  }

  ghost predicate ListedAt(h: seq<Volume>, lo: nat, w: Walk) {
    && w.listed.Keys <= w.at.Keys
    && (forall p :: p in w.listed ==> p.In? && lo <= w.listed[p] <= w.at[p] < |h| && IsDirectory(h[w.listed[p]], p))
    && (forall l :: l in LABELS ==> In(Top, l) in w.listed || In(Top, l) in w.queue)
  }

  ghost predicate AllFollowed(h: seq<Volume>, w: Walk)
    requires forall p :: p in w.listed ==> w.listed[p] < |h|
  {
    forall p, n :: p in w.listed && Lists(h[w.listed[p]], p, n) ==> In(p, n) in w.todo || Followed(h, w, p, n)
  }

  ghost predicate Walking(h: seq<Volume>, lo: nat, w: Walk) {
    Recorded(h, lo, w) && AllRooted(h, w) && ListedAt(h, lo, w) && AllFollowed(h, w) && AllSkipped(h, w)
  }

  // A finished inventory, taken from instant `lo` on.
  ghost predicate Walked(h: seq<Volume>, lo: nat, w: Walk) {
    Walking(h, lo, w) && w.queue == {} && w.todo == {}
  }

  lemma RecordedBefore(h: seq<Volume>, lo: nat, w: Walk)
    requires Walking(h, lo, w)
    ensures forall p :: p in w.at ==> w.at[p] < |h|
  {
  }

  ghost function Children(v: Volume, p: Path): set<Path>
    requires IsDirectory(v, p)
  {
    set n | n in At(v, p).entries && At(v, p).entries[n] in v.nodes :: In(p, n)
  }

  lemma HistoryExtends(h: seq<Volume>, h': seq<Volume>, lo: nat, w: Walk)
    requires Walking(h, lo, w) && h <= h'
    ensures Walking(h', lo, w)
  {
    assert forall i :: 0 <= i < |h| ==> h[i] == h'[i];
    HistoryExtendsRooted(h, h', w);
    HistoryExtendsFollowed(h, h', lo, w);
    HistoryExtendsSkipped(h, h', w);
  }

  lemma HistoryExtendsRooted(h: seq<Volume>, h': seq<Volume>, w: Walk)
    requires AllRooted(h, w) && h <= h'
    ensures AllRooted(h', w)
  {
    forall p | Rooted(h, w.listed, p)
      ensures Rooted(h', w.listed, p)
    {
    }
  }

  lemma HistoryExtendsSkipped(h: seq<Volume>, h': seq<Volume>, w: Walk)
    requires AllSkipped(h, w) && h <= h'
    ensures AllSkipped(h', w)
  {
    hide IsOther;
  }

  lemma HistoryExtendsFollowed(h: seq<Volume>, h': seq<Volume>, lo: nat, w: Walk)
    requires ListedAt(h, lo, w) && AllFollowed(h, w) && h <= h'
    ensures AllFollowed(h', w)
  {
    hide Resolve;
    forall p, n | p in w.listed && Lists(h'[w.listed[p]], p, n)
      ensures In(p, n) in w.todo || Followed(h', w, p, n)
    {
      assert Lists(h[w.listed[p]], p, n);
      assert In(p, n) in w.todo || Followed(h, w, p, n);
    }
  }

  ghost function Opened(h: seq<Volume>, w: Walk, p: Path, t: nat, u: nat, s: Stat): Walk
    requires t < |h| && IsDirectory(h[t], p)
  {
    Walk(w.result[p := s], w.at[p := u], w.listed[p := t], w.queue - {p}, Children(h[t], p), w.skipped)
  }

  // Walking a queued directory: its listing at instant t, its stat at instant u.
  lemma DirectoryOpened(h: seq<Volume>, lo: nat, w: Walk, p: Path, t: nat, u: nat, s: Stat)
    requires Walking(h, lo, w) && w.todo == {} && p in w.queue
    requires lo <= t <= u < |h| && forall q :: q in w.at ==> w.at[q] <= t
    requires IsDirectory(h[t], p) && Observed(h[u], p, s)
    ensures Walking(h, lo, Opened(h, w, p, t, u, s))
  {
    OpenedRecorded(h, lo, w, p, t, u, s);
    OpenedListed(h, lo, w, p, t, u, s);
    OpenedRooted(h, w, p, t, u, s);
    OpenedFollowed(h, lo, w, p, t, u, s);
    OpenedSkipped(h, w, p, t, u, s);
  }

  lemma OpenedSkipped(h: seq<Volume>, w: Walk, p: Path, t: nat, u: nat, s: Stat)
    requires AllSkipped(h, w) && p in w.queue && t <= u < |h| && IsDirectory(h[t], p)
    ensures AllSkipped(h, Opened(h, w, p, t, u, s))
  {
    hide IsOther;
  }

  // Reaching a queued directory that has become a link.
  lemma LinkSkipped(h: seq<Volume>, lo: nat, w: Walk, p: Path, t: nat)
    requires Walking(h, lo, w) && p in w.queue && p in w.at && w.at[p] <= t < |h| && IsOther(h[t], p) && p.In?
    requires !p.parent.Top?
    ensures Walking(h, lo, Skipped(w, p, t))
  {
    hide Observed, IsOther, IsDirectory, AllRooted, AllFollowed;
    SkippedRooted(h, w, p, t);
    SkippedFollowed(h, lo, w, p, t);
  }

  lemma SkippedRooted(h: seq<Volume>, w: Walk, p: Path, t: nat)
    requires AllRooted(h, w)
    ensures AllRooted(h, Skipped(w, p, t))
  {
    hide Rooted;
    var w' := Skipped(w, p, t);
    assert forall q {:trigger Rooted(h, w.listed, q)} :: q in w'.at.Keys + w'.todo + w'.queue ==>
      Rooted(h, w.listed, q);
  }

  lemma SkippedFollowed(h: seq<Volume>, lo: nat, w: Walk, p: Path, t: nat)
    requires ListedAt(h, lo, w) && AllFollowed(h, w)
    ensures AllFollowed(h, Skipped(w, p, t))
  {
    hide Resolve, IsDirectory, Lists;
    var w' := Skipped(w, p, t);
    forall q, n | q in w'.listed && Lists(h[w'.listed[q]], q, n)
      ensures In(q, n) in w'.todo || Followed(h, w', q, n)
    {
      assert In(q, n) in w.todo || Followed(h, w, q, n);
    }
  }

  lemma OpenedRecorded(h: seq<Volume>, lo: nat, w: Walk, p: Path, t: nat, u: nat, s: Stat)
    requires Recorded(h, lo, w) && lo <= t <= u < |h| && IsDirectory(h[t], p) && Observed(h[u], p, s)
    ensures Recorded(h, lo, Opened(h, w, p, t, u, s))
  {
    hide Observed;
  }

  lemma OpenedListed(h: seq<Volume>, lo: nat, w: Walk, p: Path, t: nat, u: nat, s: Stat)
    requires ListedAt(h, lo, w) && p.In? && lo <= t <= u < |h| && IsDirectory(h[t], p)
    requires forall q :: q in w.at ==> w.at[q] <= t
    ensures ListedAt(h, lo, Opened(h, w, p, t, u, s))
  {
    hide IsDirectory;
  }

  lemma OpenedFollowed(h: seq<Volume>, lo: nat, w: Walk, p: Path, t: nat, u: nat, s: Stat)
    requires ListedAt(h, lo, w) && AllFollowed(h, w) && w.todo == {} && p !in w.listed
    requires lo <= t <= u < |h| && forall q :: q in w.at ==> w.at[q] <= t
    requires IsDirectory(h[t], p)
    ensures var w' := Opened(h, w, p, t, u, s);
            (forall q :: q in w'.listed ==> w'.listed[q] < |h|) && AllFollowed(h, w')
  {
    hide Resolve;
    var w' := Opened(h, w, p, t, u, s);
    forall q, n | q in w'.listed && Lists(h[w'.listed[q]], q, n)
      ensures In(q, n) in w'.todo || Followed(h, w', q, n)
    {
      if q != p {
        assert Followed(h, w, q, n);
      }
    }
  }

  lemma OpenedRooted(h: seq<Volume>, w: Walk, p: Path, t: nat, u: nat, s: Stat)
    requires AllRooted(h, w) && p in w.queue && w.todo == {}
    requires t < |h| && IsDirectory(h[t], p)
    ensures AllRooted(h, Opened(h, w, p, t, u, s))
  {
    var w' := Opened(h, w, p, t, u, s);
    assert Rooted(h, w.listed, p);
    forall q | Rooted(h, w.listed, q)
      ensures Rooted(h, w'.listed, q)
    {
    }
    forall q | q in w'.todo
      ensures Rooted(h, w'.listed, q) && q !in w'.at && q !in w'.queue
    {
      assert q.parent == p;
      assert q in w.at || q in w.queue ==> Rooted(h, w.listed, q);
    }
  }

  ghost function Skipped(w: Walk, p: Path, t: nat): Walk {
    w.(queue := w.queue - {p}, skipped := w.skipped[p := t])
  }

  ghost function Noted(w: Walk, q: Path, u: nat, s: Stat, walk: bool): Walk {
    Walk(w.result[q := s], w.at[q := u], w.listed, if walk then w.queue + {q} else w.queue, w.todo - {q}, w.skipped)
  }

  // One listed name gets its stat at instant u.
  lemma ChildNoted(h: seq<Volume>, lo: nat, w: Walk, q: Path, u: nat, s: Stat, walk: bool)
    requires Walking(h, lo, w) && q in w.todo && lo <= u < |h|
    requires forall p :: p in w.at ==> w.at[p] <= u
    requires Observed(h[u], q, s)
    requires q.In? && q.parent in w.listed && (IsDirectory(h[w.listed[q.parent]], q) ==> walk)
    ensures Walking(h, lo, Noted(w, q, u, s, walk))
  {
    NotedRecorded(h, lo, w, q, u, s, walk);
    NotedRooted(h, w, q, u, s, walk);
    NotedFollowed(h, lo, w, q, u, s, walk);
    NotedSkipped(h, w, q, u, s, walk);
  }

  lemma NotedSkipped(h: seq<Volume>, w: Walk, q: Path, u: nat, s: Stat, walk: bool)
    requires AllSkipped(h, w) && q !in w.at && u < |h|
    ensures AllSkipped(h, Noted(w, q, u, s, walk))
  {
    hide IsOther;
  }

  lemma NotedRecorded(h: seq<Volume>, lo: nat, w: Walk, q: Path, u: nat, s: Stat, walk: bool)
    requires Recorded(h, lo, w) && ListedAt(h, lo, w) && q !in w.at && lo <= u < |h|
    requires Observed(h[u], q, s)
    ensures Recorded(h, lo, Noted(w, q, u, s, walk)) && ListedAt(h, lo, Noted(w, q, u, s, walk))
  {
    hide Observed, IsDirectory;
  }

  lemma NotedFollowed(h: seq<Volume>, lo: nat, w: Walk, q: Path, u: nat, s: Stat, walk: bool)
    requires ListedAt(h, lo, w) && AllFollowed(h, w) && q !in w.at && u < |h|
    requires forall p :: p in w.at ==> w.at[p] <= u
    requires q.In? && q.parent in w.listed && (IsDirectory(h[w.listed[q.parent]], q) ==> walk)
    ensures AllFollowed(h, Noted(w, q, u, s, walk))
  {
    hide Resolve;
    var w' := Noted(w, q, u, s, walk);
    forall p, n | p in w'.listed && Lists(h[w'.listed[p]], p, n)
      ensures In(p, n) in w'.todo || Followed(h, w', p, n)
    {
      if In(p, n) != q && In(p, n) !in w.todo {
        assert Followed(h, w, p, n);
      }
    }
  }

  lemma NotedRooted(h: seq<Volume>, w: Walk, q: Path, u: nat, s: Stat, walk: bool)
    requires AllRooted(h, w) && w.listed.Keys <= w.at.Keys && q in w.todo
    ensures AllRooted(h, Noted(w, q, u, s, walk))
  {
    assert Rooted(h, w.listed, q);
  }

  // ---------------------------------------------------------------------
  // Two equal inventories freeze the tree between them.
  // ---------------------------------------------------------------------

  lemma StatFacts(h: seq<Volume>, lo: nat, w: Walk, p: Path)
    requires Walked(h, lo, w) && p in w.result
    ensures p.In? && p in w.at && lo <= w.at[p] < |h| && Observed(h[w.at[p]], p, w.result[p])
    ensures Rooted(h, w.listed, p)
  {
    assert Rooted(h, w.listed, p);
  }

  lemma ListingFacts(h: seq<Volume>, lo: nat, w: Walk, p: Path)
    requires Walked(h, lo, w)
    ensures p in w.listed ==>
              p in w.result && p in w.at && lo <= w.listed[p] <= w.at[p] < |h| && IsDirectory(h[w.listed[p]], p)
    ensures p.In? && p.parent.Top? && p.name in LABELS ==> p in w.listed
  {
  }

  lemma FollowFacts(h: seq<Volume>, lo: nat, w: Walk, p: Path, n: string)
    requires Walked(h, lo, w)
    requires p in w.listed && w.listed[p] < |h| && Lists(h[w.listed[p]], p, n)
    ensures Followed(h, w, p, n) && In(p, n) in w.result
    ensures IsDirectory(h[w.listed[p]], In(p, n)) ==> In(p, n) in w.listed || In(p, n) in w.skipped
  {
    assert In(p, n) in w.todo || Followed(h, w, p, n);
  }

  // Where no link appears, nothing is passed over.
  lemma NothingSkipped(h: seq<Volume>, lo: nat, w: Walk)
    requires NoLinkAppears(h) && Walked(h, lo, w)
    ensures w.skipped == map[]
  {
    hide Walked, LinkAppears;
    forall p
      ensures p !in w.skipped
    {
      if p in w.skipped {
        SkippedIsLink(h, lo, w, p);
      }
    }
  }

  lemma SkippedIsLink(h: seq<Volume>, lo: nat, w: Walk, p: Path)
    requires Walked(h, lo, w) && p in w.skipped
    ensures p in w.at && LinkAppears(h, p, w.at[p], w.skipped[p])
  {
    hide Resolve;
    assert Observed(h[w.at[p]], p, w.result[p]);
  }

  // What follows from a listing when nothing is passed over.
  lemma ListedIsWalked(h: seq<Volume>, lo: nat, w: Walk, p: Path, n: string)
    requires NoLinkAppears(h) && Walked(h, lo, w)
    requires p in w.listed && w.listed[p] < |h| && Lists(h[w.listed[p]], p, n) && IsDirectory(h[w.listed[p]], In(p, n))
    ensures In(p, n) in w.listed
  {
    hide Walked;
    NothingSkipped(h, lo, w);
    FollowFacts(h, lo, w, p, n);
  }

  // Two inventories with the same result, the first finished by `hi` and the second
  // begun at `lo2`.
  ghost predicate Agreeing(h: seq<Volume>, lo: nat, w: Walk, hi: nat, lo2: nat, w2: Walk) {
    && Calm(h) && hi <= lo2 < |h|
    && Walked(h, lo, w) && Walked(h, lo2, w2) && w.result == w2.result
    && (forall p :: p in w.at ==> w.at[p] <= hi)
  }

  lemma FrozenBetweenStats(h: seq<Volume>, lo: nat, w: Walk, hi: nat, lo2: nat, w2: Walk, p: Path)
    requires Agreeing(h, lo, w, hi, lo2, w2) && p in w.result
    ensures p in w.at && p in w2.at && w.at[p] <= hi && lo2 <= w2.at[p] < |h|
    ensures Frozen(h, w.at[p], w2.at[p], w.result[p].ino)
    ensures Observed(h[w.at[p]], p, w.result[p]) && Observed(h[w2.at[p]], p, w.result[p])
  {
    StatFacts(h, lo, w, p);
    StatFacts(h, lo2, w2, p);
    SameCtimeIsFrozen(h, w.at[p], w2.at[p], w.result[p].ino);
  }

  lemma {:induction false} TopStays(h: seq<Volume>, a: nat, b: nat)
    requires Advancing(h) && a <= b < |h|
    ensures TOP in h[a].nodes && TOP in h[b].nodes && h[a].nodes[TOP] == h[b].nodes[TOP]
    ensures h[a].nodes.Keys <= h[b].nodes.Keys
    decreases b
  {
    if a < b {
      TopStays(h, a, b - 1);
      assert AdvancingStep(h[b - 1], h[b]);
    } else if a > 0 {
      assert AdvancingStep(h[a - 1], h[a]);
    }
  }

  // From its first stat to the second inventory a recorded path leads to the same inode.
  lemma {:induction false} PathStays(h: seq<Volume>, lo: nat, w: Walk, hi: nat, lo2: nat, w2: Walk, p: Path, t: nat)
    requires Agreeing(h, lo, w, hi, lo2, w2) && p in w.result
    requires p in w.at && w.at[p] <= t <= lo2
    ensures Resolve(h[t], p) == Some(w.result[p].ino)
    decreases p
  {
    hide Walked, NoReturn, NoLinkAppears, LinkCounts, Observed, Advancing;
    StatFacts(h, lo, w, p);
    FrozenBetweenStats(h, lo, w, hi, lo2, w2, p);
    var a, d := w.at[p], p.parent;
    TopStays(h, a, t);
    ObservedResolves(h[a], p, w.result[p]);
    if !d.Top? {
      ListingFacts(h, lo, w, d);
      FollowFacts(h, lo, w, d, p.name);
      FrozenBetweenStats(h, lo, w, hi, lo2, w2, d);
      PathStays(h, lo, w, hi, lo2, w2, d, a);
      PathStays(h, lo, w, hi, lo2, w2, d, t);
    }
  }

  lemma ObservedResolves(v: Volume, p: Path, s: Stat)
    requires Observed(v, p, s)
    ensures Resolve(v, p) == Some(s.ino) && (s.kind.Directory? <==> At(v, p).Dir?)
    ensures (s.kind.Regular? <==> At(v, p).File?)
  {
  }

  // A recorded directory leads to the same inode up to its second stat.
  lemma DirectoryPathStays(h: seq<Volume>, lo: nat, w: Walk, hi: nat, lo2: nat, w2: Walk, p: Path, t: nat)
    requires Agreeing(h, lo, w, hi, lo2, w2) && p in w.result && w.result[p].kind.Directory?
    requires p in w.at && p in w2.at && w.at[p] <= t <= w2.at[p] < |h|
    ensures Resolve(h[t], p) == Some(w.result[p].ino)
  {
    hide Walked;
    FrozenBetweenStats(h, lo, w, hi, lo2, w2, p);
    assert LeadsBack(h, p, w.at[p], w2.at[p]);
    assert StaysPut(h, p, w.at[p], w2.at[p]);
  }

  // The parent of a recorded path was recorded as a directory, with the path as an entry.
  lemma ParentRecorded(h: seq<Volume>, lo: nat, w: Walk, hi: nat, lo2: nat, w2: Walk, p: Path)
    requires Agreeing(h, lo, w, hi, lo2, w2) && p in w.result && p.In? && !p.parent.Top?
    ensures p.parent in w.result && w.result[p.parent].kind.Directory?
    ensures p.parent in w.at && p in w.at && w.at[p.parent] <= w.at[p]
    ensures var i := w.result[p.parent].ino;
            Names(h[w.at[p]], i, p.name) && Target(h[w.at[p]], i, p.name) == w.result[p].ino
  {
    hide Walked;
    StatFacts(h, lo, w, p);
    ListingFacts(h, lo, w, p.parent);
    FollowFacts(h, lo, w, p.parent, p.name);
    PathStays(h, lo, w, hi, lo2, w2, p.parent, w.at[p]);
    FrozenBetweenStats(h, lo, w, hi, lo2, w2, p.parent);
    ObservedResolves(h[w.at[p]], p, w.result[p]);
  }

  // The second inventory walked every recorded directory.
  lemma DirectoriesWalkedTwice(h: seq<Volume>, lo: nat, w: Walk, hi: nat, lo2: nat, w2: Walk, p: Path)
    requires Agreeing(h, lo, w, hi, lo2, w2) && p in w.result && w.result[p].kind.Directory?
    ensures p in w2.listed
  {
    hide Walked;
    StatFacts(h, lo2, w2, p);
    ListingFacts(h, lo2, w2, p);
    if !p.parent.Top? {
      var e := p.parent;
      ParentRecorded(h, lo, w, hi, lo2, w2, p);
      ListingFacts(h, lo2, w2, e);
      FollowFacts(h, lo2, w2, e, p.name);
      var u := w2.listed[e];
      DirectoryPathStays(h, lo, w, hi, lo2, w2, e, u);
      FrozenBetweenStats(h, lo, w, hi, lo2, w2, e);
      FrozenBetweenStats(h, lo, w, hi, lo2, w2, p);
      ObservedResolves(h[w.at[p]], p, w.result[p]);
      ListedIsWalked(h, lo2, w2, e, p.name);
    }
  }

  function LabelOf(p: Path): string
    requires p.In?
  {
    if p.parent.Top? then p.name else LabelOf(p.parent)
  }

  // Between the inventories every path below the four roots had been recorded.
  lemma {:induction false} NothingMissed(h: seq<Volume>, lo: nat, w: Walk, hi: nat, lo2: nat, w2: Walk, p: Path, t: nat)
    requires Agreeing(h, lo, w, hi, lo2, w2) && hi <= t <= lo2
    requires p.In? && LabelOf(p) in LABELS && Resolve(h[t], p).Some?
    ensures p in w.result
  {
    hide Walked;
    if p.parent.Top? {
      ListingFacts(h, lo, w, p);
    } else {
      var d := p.parent;
      NothingMissed(h, lo, w, hi, lo2, w2, d, t);
      FrozenBetweenStats(h, lo, w, hi, lo2, w2, d);
      PathStays(h, lo, w, hi, lo2, w2, d, t);
      ObservedResolves(h[w.at[d]], d, w.result[d]);
      DirectoriesWalkedTwice(h, lo, w, hi, lo2, w2, d);
      ListingFacts(h, lo2, w2, d);
      var u := w2.listed[d];
      DirectoryPathStays(h, lo, w, hi, lo2, w2, d, u);
      TopStays(h, t, u);
      FollowFacts(h, lo2, w2, d, p.name);
    }
  }

  // ---------------------------------------------------------------------
  // The archive.
  // ---------------------------------------------------------------------

  // A file whose inode was archived before is stored as a link to the earlier path.
  datatype Member = Folder | Blob(data: Bytes) | Hard(link: Path) | Odd

  datatype Entry = Entry(path: Path, member: Member)

  // Later entries replace earlier ones of the same name.
  function Table(entries: seq<Entry>): map<Path, Member> {
    if entries == [] then map[]
    else
      var e := entries[|entries| - 1];
      Table(entries[..|entries| - 1])[e.path := e.member]
  }

  lemma TableAppend(entries: seq<Entry>, e: Entry)
    ensures Table(entries + [e]) == Table(entries)[e.path := e.member]
  {
    assert (entries + [e])[..|entries|] == entries;
  }

  // No name occurs twice with different members.
  ghost predicate Coherent(entries: seq<Entry>) {
    forall e :: e in entries ==> e.path in Table(entries) && Table(entries)[e.path] == e.member
  }

  lemma CoherentAppend(entries: seq<Entry>, e: Entry)
    requires Coherent(entries) && e.path !in Table(entries)
    ensures Coherent(entries + [e])
  {
    TableAppend(entries, e);
  }

  // The archive agrees with the tree of one instant.
  ghost predicate SnapshotOf(members: map<Path, Member>, v: Volume) {
    && (forall p :: p in members ==> p.In? && LabelOf(p) in LABELS && Resolve(v, p).Some? && Stored(members, v, p))
    && (forall p: Path :: p.In? && LabelOf(p) in LABELS && Resolve(v, p).Some? ==> p in members)
    && (forall p, q :: p in members && q in members && members[p].Blob? && members[q].Blob? ==>
          Resolve(v, p) == Resolve(v, q) ==> p == q)
  }

  ghost predicate Stored(members: map<Path, Member>, v: Volume, p: Path)
    requires p in members && Resolve(v, p).Some?
  {
    match At(v, p)
    case Dir(_, _, _) => members[p].Folder?
    case File(content, _, _, _) =>
      || members[p] == Blob(content)
      || (members[p].Hard? && members[p].link != p && Resolve(v, members[p].link) == Resolve(v, p)
          && members[p].link in members && members[p].link.In? && members[members[p].link] == Blob(content))
    case Other(_, _) => false
  }

  // A file is stored as its content, or as a link to another name stored so.
  lemma FileMember(members: map<Path, Member>, v: Volume, p: Path)
    requires SnapshotOf(members, v) && p in members
    ensures Resolve(v, p).Some?
    ensures At(v, p).File? ==> members[p].Blob? || members[p].Hard?
    ensures members[p].Hard? ==>
              && At(v, p).File? && members[p].link in members && members[p].link != p
              && Resolve(v, members[p].link) == Resolve(v, p)
  {
    hide Resolve;
    assert Stored(members, v, p);
  }

  // A member is a link exactly when some file has two names.
  lemma LinksAreSharedFiles(members: map<Path, Member>, v: Volume)
    requires SnapshotOf(members, v)
    ensures (exists p :: p in members && members[p].Hard?) <==>
            (exists p, q :: p in members && q in members && p != q && At(v, p).File? && Resolve(v, p) == Resolve(v, q))
  {
    hide Resolve, Stored;
    if p :| p in members && members[p].Hard? {
      FileMember(members, v, p);
    }
    if p, q :| p in members && q in members && p != q && At(v, p).File? && Resolve(v, p) == Resolve(v, q) {
      FileMember(members, v, p);
      FileMember(members, v, q);
    }
  }

  // What was stored for one path, with the inode its stat saw and the instants of its
  // stat and of its first read.
  datatype Row = Row(member: Member, ino: Ino, statted: nat, openedAt: nat)

  // The state of the archiving walk; `listed` holds the instants of directory listings
  // and `inodes` the path under which a file was first archived.
  datatype Tar = Tar(rows: map<Path, Row>, queue: set<Path>, listed: map<Path, nat>, inodes: map<Ino, Path>)

  ghost predicate ReadAt(h: seq<Volume>, lo: nat, f: Ino, k: nat, b: Byte, r: nat) {
    lo <= r < |h| && f in h[r].nodes && h[r].nodes[f].File? && k < |h[r].nodes[f].content|
      && h[r].nodes[f].content[k] == b
  }

  ghost predicate WasRead(h: seq<Volume>, lo: nat, f: Ino, k: nat, b: Byte) {
    exists r: nat :: ReadAt(h, lo, f, k, b, r)
  }

  // Each byte was in the file at some instant, not necessarily the same one.
  ghost predicate Copied(h: seq<Volume>, lo: nat, f: Ino, data: Bytes) {
    forall k :: 0 <= k < |data| ==> WasRead(h, lo, f, k, data[k])
  }

  ghost predicate BlobSeen(h: seq<Volume>, lo: nat, p: Path, data: Bytes, t: nat, o: nat) {
    && t < |h| && Resolve(h[t], p).Some? && At(h[t], p).File? && |At(h[t], p).content| == |data|
    && lo <= o < |h| && Resolve(h[o], p).Some? && Copied(h, lo, Resolve(h[o], p).value, data)
  }

  // What the reads saw of one member.
  ghost predicate RowSeen(h: seq<Volume>, lo: nat, p: Path, r: Row) {
    var t := r.statted;
    && lo <= t < |h| && Resolve(h[t], p) == Some(r.ino)
    && match r.member
       case Folder => At(h[t], p).Dir?
       case Odd => At(h[t], p).Other?
       case Hard(_) => At(h[t], p).File? && At(h[t], p).links > 1
       case Blob(data) => BlobSeen(h, lo, p, data, t, r.openedAt)
  }

  ghost predicate TarSeen(h: seq<Volume>, lo: nat, a: Tar) {
    forall p :: p in a.rows ==> RowSeen(h, lo, p, a.rows[p])
  }

  // A link member leads to a member with the content of its inode.
  predicate LinkRow(rows: map<Path, Row>, p: Path) {
    && p in rows && rows[p].member.Hard?
    && var q := rows[p].member.link; q != p && q in rows && rows[q].member.Blob? && rows[q].ino == rows[p].ino
  }

  // The stat of a row showed a file with no other name.
  ghost predicate Alone(h: seq<Volume>, r: Row) {
    && r.statted < |h| && r.ino in h[r.statted].nodes
    && h[r.statted].nodes[r.ino].File? && h[r.statted].nodes[r.ino].links <= 1
  }

  // Content is archived twice for an inode only if a stat showed no other name of it.
  ghost predicate TarIndexed(h: seq<Volume>, a: Tar) {
    && (forall i :: i in a.inodes ==>
         a.inodes[i] in a.rows && a.rows[a.inodes[i]].ino == i && a.rows[a.inodes[i]].member.Blob?)
    && (forall p :: p in a.rows && a.rows[p].member.Blob? ==> a.rows[p].ino in a.inodes)
    && (forall p :: p in a.rows && a.rows[p].member.Hard? ==> LinkRow(a.rows, p))
    && (forall p, q :: p in a.rows && q in a.rows && p != q && SameContent(a.rows[p], a.rows[q]) ==>
          Alone(h, a.rows[p]) || Alone(h, a.rows[q]))
  }

  predicate SameContent(r: Row, s: Row) {
    r.member.Blob? && s.member.Blob? && r.ino == s.ino
  }

  ghost predicate TarRooted(h: seq<Volume>, a: Tar) {
    && (forall p {:trigger Rooted(h, a.listed, p)} :: p in a.rows.Keys + a.queue ==> Rooted(h, a.listed, p))
    && a.queue !! a.rows.Keys
    && (forall l :: l in LABELS ==> In(Top, l) in a.rows || In(Top, l) in a.queue)
  }

  ghost predicate TarListed(h: seq<Volume>, lo: nat, a: Tar) {
    && a.listed.Keys <= a.rows.Keys
    && (forall p :: p in a.rows && a.rows[p].member.Folder? ==> p in a.listed)
    && (forall p :: p in a.listed ==> lo <= a.listed[p] < |h| && IsDirectory(h[a.listed[p]], p))
    && (forall p, n :: p in a.listed && Lists(h[a.listed[p]], p, n) ==> In(p, n) in a.rows || In(p, n) in a.queue)
  }

  ghost predicate Archiving(h: seq<Volume>, lo: nat, a: Tar) {
    TarSeen(h, lo, a) && TarIndexed(h, a) && TarRooted(h, a) && TarListed(h, lo, a)
  }

  // A finished archive, read from instant `lo` on.
  ghost predicate Archived(h: seq<Volume>, lo: nat, a: Tar) {
    Archiving(h, lo, a) && a.queue == {}
  }

  lemma TarExtends(h: seq<Volume>, h': seq<Volume>, lo: nat, a: Tar)
    requires Archiving(h, lo, a) && h <= h'
    ensures Archiving(h', lo, a)
  {
    TarExtendsSeen(h, h', lo, a);
    TarExtendsIndexed(h, h', a);
    TarExtendsRooted(h, h', a);
    TarExtendsListed(h, h', lo, a);
  }

  lemma CopiedExtends(h: seq<Volume>, h': seq<Volume>, lo: nat, f: Ino, data: Bytes)
    requires Copied(h, lo, f, data) && h <= h'
    ensures Copied(h', lo, f, data)
  {
    forall k | 0 <= k < |data|
      ensures WasRead(h', lo, f, k, data[k])
    {
      assert WasRead(h, lo, f, k, data[k]);
      var r: nat :| ReadAt(h, lo, f, k, data[k], r);
      assert ReadAt(h', lo, f, k, data[k], r);
    }
  }

  lemma TarExtendsSeen(h: seq<Volume>, h': seq<Volume>, lo: nat, a: Tar)
    requires TarSeen(h, lo, a) && h <= h'
    ensures TarSeen(h', lo, a)
  {
    hide Copied, Resolve;
    forall p | p in a.rows
      ensures RowSeen(h', lo, p, a.rows[p])
    {
      var r := a.rows[p];
      if r.member.Blob? {
        CopiedExtends(h, h', lo, Resolve(h[r.openedAt], p).value, r.member.data);
      }
    }
  }

  lemma TarExtendsIndexed(h: seq<Volume>, h': seq<Volume>, a: Tar)
    requires TarIndexed(h, a) && h <= h'
    ensures TarIndexed(h', a)
  {
    forall r: Row | Alone(h, r)
      ensures Alone(h', r)
    {
      assert h'[r.statted] == h[r.statted];
    }
  }

  lemma TarExtendsRooted(h: seq<Volume>, h': seq<Volume>, a: Tar)
    requires TarRooted(h, a) && h <= h'
    ensures TarRooted(h', a)
  {
    forall p | Rooted(h, a.listed, p)
      ensures Rooted(h', a.listed, p)
    {
    }
  }

  lemma TarExtendsListed(h: seq<Volume>, h': seq<Volume>, lo: nat, a: Tar)
    requires TarListed(h, lo, a) && h <= h'
    ensures TarListed(h', lo, a)
  {
    forall p, n | p in a.listed && Lists(h'[a.listed[p]], p, n)
      ensures In(p, n) in a.rows || In(p, n) in a.queue
    {
      assert Lists(h[a.listed[p]], p, n);
    }
  }

  // Adding a directory: its stat at instant t, its listing at instant u.
  ghost function FolderAdded(h: seq<Volume>, a: Tar, p: Path, t: nat, u: nat): Tar
    requires t < |h| && u < |h| && IsDirectory(h[t], p) && IsDirectory(h[u], p)
  {
    Tar(a.rows[p := Row(Folder, Resolve(h[t], p).value, t, t)], a.queue - {p} + Children(h[u], p), a.listed[p := u],
        a.inodes)
  }

  lemma FolderAddedOk(h: seq<Volume>, lo: nat, a: Tar, p: Path, t: nat, u: nat)
    requires Archiving(h, lo, a) && p in a.queue && lo <= t <= u < |h|
    requires IsDirectory(h[t], p) && IsDirectory(h[u], p)
    ensures Archiving(h, lo, FolderAdded(h, a, p, t, u))
  {
    hide Resolve, RowSeen;
    FolderSeen(h, lo, p, t);
    RowAddedSeen(h, lo, a, p, Row(Folder, Resolve(h[t], p).value, t, t), FolderAdded(h, a, p, t, u));
    FolderAddedRooted(h, a, p, t, u);
    FolderAddedListed(h, lo, a, p, t, u);
  }

  lemma FolderSeen(h: seq<Volume>, lo: nat, p: Path, t: nat)
    requires lo <= t < |h| && IsDirectory(h[t], p)
    ensures RowSeen(h, lo, p, Row(Folder, Resolve(h[t], p).value, t, t))
  {
  }

  // What may be added to the rows for an inode.
  ghost predicate Indexable(h: seq<Volume>, a: Tar, r: Row) {
    && (r.member.Blob? ==> r.ino !in a.inodes || Alone(h, r))
    && (r.member.Hard? ==> r.ino in a.inodes && a.inodes[r.ino] == r.member.link)
  }

  lemma RowAddedSeen(h: seq<Volume>, lo: nat, a: Tar, p: Path, r: Row, a': Tar)
    requires TarSeen(h, lo, a) && TarIndexed(h, a) && p !in a.rows && RowSeen(h, lo, p, r) && Indexable(h, a, r)
    requires a'.rows == a.rows[p := r]
    requires a'.inodes == if r.member.Blob? then a.inodes[r.ino := p] else a.inodes
    ensures TarSeen(h, lo, a') && TarIndexed(h, a')
  {
    hide RowSeen, Alone, SameContent;
    forall q | q in a'.rows && a'.rows[q].member.Hard?
      ensures LinkRow(a'.rows, q)
    {
      RowAddedLink(h, a, p, r, q);
    }
    forall q | q in a.rows && (SameContent(a.rows[q], r) || SameContent(r, a.rows[q]))
      ensures Alone(h, r)
    {
      SameContentIndexed(h, a, r, q);
    }
  }

  lemma RowAddedLink(h: seq<Volume>, a: Tar, p: Path, r: Row, q: Path)
    requires TarIndexed(h, a) && p !in a.rows && Indexable(h, a, r)
    requires q in a.rows[p := r] && a.rows[p := r][q].member.Hard?
    ensures LinkRow(a.rows[p := r], q)
  {
    hide Alone, SameContent;
    assert q != p ==> LinkRow(a.rows, q);
  }

  lemma SameContentIndexed(h: seq<Volume>, a: Tar, r: Row, q: Path)
    requires TarIndexed(h, a) && Indexable(h, a, r) && q in a.rows
    requires (SameContent(a.rows[q], r) || SameContent(r, a.rows[q]))
    ensures Alone(h, r)
  {
    hide Alone;
  }

  lemma FolderAddedRooted(h: seq<Volume>, a: Tar, p: Path, t: nat, u: nat)
    requires TarRooted(h, a) && p in a.queue && a.listed.Keys <= a.rows.Keys
    requires t < |h| && u < |h| && IsDirectory(h[t], p) && IsDirectory(h[u], p)
    ensures TarRooted(h, FolderAdded(h, a, p, t, u))
  {
    var a' := FolderAdded(h, a, p, t, u);
    assert Rooted(h, a.listed, p);
    forall q | Rooted(h, a.listed, q)
      ensures Rooted(h, a'.listed, q)
    {
    }
    forall q | q in Children(h[u], p)
      ensures Rooted(h, a'.listed, q) && q !in a'.rows
    {
      assert q.parent == p;
      assert q in a.rows ==> Rooted(h, a.listed, q);
    }
  }

  lemma FolderAddedListed(h: seq<Volume>, lo: nat, a: Tar, p: Path, t: nat, u: nat)
    requires TarListed(h, lo, a) && t < |h| && lo <= u < |h| && IsDirectory(h[t], p) && IsDirectory(h[u], p)
    ensures TarListed(h, lo, FolderAdded(h, a, p, t, u))
  {
    hide Resolve;
  }

  // Adding anything else.
  ghost function LeafAdded(a: Tar, p: Path, r: Row): Tar {
    Tar(a.rows[p := r], a.queue - {p}, a.listed, if r.member.Blob? then a.inodes[r.ino := p] else a.inodes)
  }

  lemma LeafAddedOk(h: seq<Volume>, lo: nat, a: Tar, p: Path, r: Row)
    requires Archiving(h, lo, a) && p in a.queue && !r.member.Folder? && RowSeen(h, lo, p, r) && Indexable(h, a, r)
    ensures Archiving(h, lo, LeafAdded(a, p, r))
  {
    hide RowSeen, Resolve;
    RowAddedSeen(h, lo, a, p, r, LeafAdded(a, p, r));
    LeafAddedRooted(h, lo, a, p, r);
  }

  lemma LeafAddedRooted(h: seq<Volume>, lo: nat, a: Tar, p: Path, r: Row)
    requires TarRooted(h, a) && TarListed(h, lo, a) && p in a.queue && !r.member.Folder?
    ensures TarRooted(h, LeafAdded(a, p, r)) && TarListed(h, lo, LeafAdded(a, p, r))
  {
    assert Rooted(h, a.listed, p);
  }

  ghost function Members(a: Tar): map<Path, Member> {
    map p | p in a.rows :: a.rows[p].member
  }

  // An archive read after one inventory and before an equal one.
  ghost predicate Between(h: seq<Volume>, lo: nat, w: Walk, hi: nat, lo2: nat, w2: Walk, from: nat, upto: nat, a: Tar) {
    && Agreeing(h, lo, w, hi, lo2, w2)
    && hi <= from && upto <= lo2 + 1 <= |h|
    && Archived(h[..upto], from, a)
  }

  lemma ArchivedRooted(h: seq<Volume>, lo: nat, a: Tar, p: Path)
    requires Archived(h, lo, a) && p in a.rows
    ensures Rooted(h, a.listed, p) && a.listed.Keys <= a.rows.Keys
  {
    assert Rooted(h, a.listed, p);
  }

  lemma {:induction false} ArchivedLabels(h: seq<Volume>, lo: nat, a: Tar, p: Path)
    requires Archived(h, lo, a) && p in a.rows
    ensures p.In? && LabelOf(p) in LABELS
  {
    hide Archived;
    ArchivedRooted(h, lo, a, p);
    if !p.parent.Top? {
      ArchivedLabels(h, lo, a, p.parent);
    }
  }

  // A recorded path leads to one unchanged inode while the archive is read.
  lemma SteadyWhileArchiving(h: seq<Volume>, lo: nat, w: Walk, hi: nat, lo2: nat, w2: Walk, p: Path, t: nat, u: nat)
    requires Agreeing(h, lo, w, hi, lo2, w2) && p in w.result && hi <= t <= lo2 && hi <= u <= lo2
    ensures Resolve(h[t], p) == Some(w.result[p].ino) && Resolve(h[u], p) == Some(w.result[p].ino)
    ensures At(h[t], p) == At(h[u], p) && !At(h[t], p).Other?
  {
    hide Walked, Calm;
    FrozenBetweenStats(h, lo, w, hi, lo2, w2, p);
    PathStays(h, lo, w, hi, lo2, w2, p, t);
    PathStays(h, lo, w, hi, lo2, w2, p, u);
    ObservedResolves(h[w.at[p]], p, w.result[p]);
  }

  lemma RowRecorded(h: seq<Volume>, lo: nat, w: Walk, hi: nat, lo2: nat, w2: Walk, from: nat, upto: nat, a: Tar,
                    p: Path)
    requires Between(h, lo, w, hi, lo2, w2, from, upto, a) && p in a.rows
    ensures p in w.result && RowSeen(h[..upto], from, p, a.rows[p])
    ensures a.rows[p].ino == w.result[p].ino && from <= a.rows[p].statted < upto
  {
    hide Agreeing, Resolve;
    ArchivedLabels(h[..upto], from, a, p);
    var t := a.rows[p].statted;
    assert RowSeen(h[..upto], from, p, a.rows[p]);
    assert h[..upto][t] == h[t];
    NothingMissed(h, lo, w, hi, lo2, w2, p, t);
    SteadyWhileArchiving(h, lo, w, hi, lo2, w2, p, t, t);
  }

  // Bytes read at different instants are the bytes of any one instant of the window.
  lemma BlobIsContent(h: seq<Volume>, lo: nat, w: Walk, hi: nat, lo2: nat, w2: Walk, from: nat, upto: nat, p: Path,
                      r: Row, t: nat)
    requires Agreeing(h, lo, w, hi, lo2, w2) && p in w.result && hi <= t <= lo2 < |h|
    requires hi <= from && upto <= lo2 + 1 && upto <= |h|
    requires r.member.Blob? && BlobSeen(h[..upto], from, p, r.member.data, r.statted, r.openedAt) && from <= r.statted
    ensures Resolve(h[t], p).Some? && At(h[t], p).File? && At(h[t], p).content == r.member.data
  {
    hide Agreeing, Resolve, Copied;
    var data := r.member.data;
    SteadyWhileArchiving(h, lo, w, hi, lo2, w2, p, t, r.statted);
    SteadyWhileArchiving(h, lo, w, hi, lo2, w2, p, t, r.openedAt);
    var f := w.result[p].ino;
    forall k | 0 <= k < |data|
      ensures At(h[t], p).content[k] == data[k]
    {
      CopiedByte(h[..upto], from, f, data, k);
      var n: nat :| ReadAt(h[..upto], from, f, k, data[k], n);
      SteadyWhileArchiving(h, lo, w, hi, lo2, w2, p, t, n);
    }
  }

  lemma CopiedByte(h: seq<Volume>, lo: nat, f: Ino, data: Bytes, k: nat)
    requires Copied(h, lo, f, data) && k < |data|
    ensures WasRead(h, lo, f, k, data[k])
  {
  }

  lemma RowStored(h: seq<Volume>, lo: nat, w: Walk, hi: nat, lo2: nat, w2: Walk, from: nat, upto: nat, a: Tar,
                  p: Path, t: nat)
    requires Between(h, lo, w, hi, lo2, w2, from, upto, a) && p in a.rows && hi <= t <= lo2
    ensures p.In? && LabelOf(p) in LABELS && Resolve(h[t], p) == Some(a.rows[p].ino)
    ensures Stored(Members(a), h[t], p)
  {
    hide Agreeing, Resolve, BlobSeen, Archived;
    ArchivedLabels(h[..upto], from, a, p);
    RowRecorded(h, lo, w, hi, lo2, w2, from, upto, a, p);
    var r := a.rows[p];
    SteadyWhileArchiving(h, lo, w, hi, lo2, w2, p, t, r.statted);
    if r.member.Blob? {
      BlobIsContent(h, lo, w, hi, lo2, w2, from, upto, p, r, t);
    } else if r.member.Hard? {
      LinkedArchived(h[..upto], from, a, p);
      var q := r.member.link;
      RowRecorded(h, lo, w, hi, lo2, w2, from, upto, a, q);
      ArchivedLabels(h[..upto], from, a, q);
      BlobIsContent(h, lo, w, hi, lo2, w2, from, upto, q, a.rows[q], t);
      SteadyWhileArchiving(h, lo, w, hi, lo2, w2, q, t, t);
    }
  }

  lemma LinkedArchived(h: seq<Volume>, lo: nat, a: Tar, p: Path)
    requires Archived(h, lo, a) && p in a.rows && a.rows[p].member.Hard?
    ensures LinkRow(a.rows, p)
  {
  }

  // While the archive is read, a file with two names never shows itself as having one.
  lemma ArchivedOnce(h: seq<Volume>, lo: nat, w: Walk, hi: nat, lo2: nat, w2: Walk, from: nat, upto: nat, a: Tar,
                     p: Path, q: Path)
    requires Between(h, lo, w, hi, lo2, w2, from, upto, a) && p in a.rows && q in a.rows
    requires SameContent(a.rows[p], a.rows[q])
    ensures p == q
  {
    hide Agreeing, Resolve, LinkCounts;
    RowRecorded(h, lo, w, hi, lo2, w2, from, upto, a, p);
    RowRecorded(h, lo, w, hi, lo2, w2, from, upto, a, q);
    if p != q {
      NotAlone(h, lo, w, hi, lo2, w2, from, upto, a.rows[p], p, q);
      NotAlone(h, lo, w, hi, lo2, w2, from, upto, a.rows[q], p, q);
    }
  }

  lemma NotAlone(h: seq<Volume>, lo: nat, w: Walk, hi: nat, lo2: nat, w2: Walk, from: nat, upto: nat, r: Row, p: Path,
                 q: Path)
    requires Agreeing(h, lo, w, hi, lo2, w2) && hi <= from <= r.statted < upto <= lo2 + 1 <= |h|
    requires p in w.result && q in w.result && p != q && w.result[p].ino == w.result[q].ino == r.ino
    ensures !Alone(h[..upto], r)
  {
    hide Walked, NoReturn, NoLinkAppears, Advancing, Resolve;
    var t := r.statted;
    SteadyWhileArchiving(h, lo, w, hi, lo2, w2, p, t, t);
    SteadyWhileArchiving(h, lo, w, hi, lo2, w2, q, t, t);
    assert LinkCounts(h[t]);
  }

  lemma ArchivedListing(h: seq<Volume>, lo: nat, a: Tar, p: Path)
    requires Archived(h, lo, a)
    ensures p in a.rows && a.rows[p].member.Folder? ==> p in a.listed
    ensures p in a.listed ==> lo <= a.listed[p] < |h| && IsDirectory(h[a.listed[p]], p)
    ensures p in a.listed ==> forall n :: Lists(h[a.listed[p]], p, n) ==> In(p, n) in a.rows
    ensures p.In? && p.parent.Top? && p.name in LABELS ==> p in a.rows
  {
  }

  lemma {:induction false} EverythingArchived(h: seq<Volume>, lo: nat, w: Walk, hi: nat, lo2: nat, w2: Walk,
                                              from: nat, upto: nat, a: Tar, p: Path, t: nat)
    requires Between(h, lo, w, hi, lo2, w2, from, upto, a) && hi <= t <= lo2
    requires p.In? && LabelOf(p) in LABELS && Resolve(h[t], p).Some?
    ensures p in a.rows
  {
    hide Agreeing, Archived;
    ArchivedListing(h[..upto], from, a, p);
    if !p.parent.Top? {
      var d := p.parent;
      EverythingArchived(h, lo, w, hi, lo2, w2, from, upto, a, d, t);
      RowStored(h, lo, w, hi, lo2, w2, from, upto, a, d, t);
      ArchivedListing(h[..upto], from, a, d);
      RowRecorded(h, lo, w, hi, lo2, w2, from, upto, a, d);
      var u := a.listed[d];
      SteadyWhileArchiving(h, lo, w, hi, lo2, w2, d, t, u);
      NothingMissed(h, lo, w, hi, lo2, w2, p, t);
      SteadyWhileArchiving(h, lo, w, hi, lo2, w2, p, t, u);
      assert Lists(h[..upto][u], d, p.name);
    }
  }

  // An archive taken between two equal inventories is the tree of every instant between
  // them, in particular of the one at which the database copy finished.
  lemma ArchiveIsSnapshot(h: seq<Volume>, lo: nat, w: Walk, hi: nat, lo2: nat, w2: Walk, from: nat, upto: nat, a: Tar,
                          t: nat)
    requires Between(h, lo, w, hi, lo2, w2, from, upto, a) && hi <= t <= lo2 < |h|
    ensures SnapshotOf(Members(a), h[t])
  {
    hide Between, Resolve, Stored;
    var members := Members(a);
    forall p | p in members
      ensures p.In? && LabelOf(p) in LABELS && Resolve(h[t], p) == Some(a.rows[p].ino) && Stored(members, h[t], p)
    {
      RowStored(h, lo, w, hi, lo2, w2, from, upto, a, p, t);
    }
    forall p: Path | p.In? && LabelOf(p) in LABELS && Resolve(h[t], p).Some?
      ensures p in members
    {
      EverythingArchived(h, lo, w, hi, lo2, w2, from, upto, a, p, t);
    }
    forall p, q | p in members && q in members && members[p].Blob? && members[q].Blob?
      && Resolve(h[t], p) == Resolve(h[t], q)
      ensures p == q
    {
      ArchivedOnce(h, lo, w, hi, lo2, w2, from, upto, a, p, q);
    }
  }

  // The four roots are in the archive, as directories.
  ghost predicate HasRoots(members: map<Path, Member>) {
    forall l :: l in LABELS ==> In(Top, l) in members && members[In(Top, l)].Folder?
  }

  lemma RootsArchived(h: seq<Volume>, lo: nat, w: Walk, hi: nat, lo2: nat, w2: Walk, from: nat, upto: nat, a: Tar)
    requires Between(h, lo, w, hi, lo2, w2, from, upto, a) && lo2 < |h|
    ensures HasRoots(Members(a))
  {
    hide Walked, Archived, Calm, Resolve, Stored;
    forall l | l in LABELS
      ensures In(Top, l) in a.rows && a.rows[In(Top, l)].member.Folder?
    {
      var p := In(Top, l);
      ArchivedListing(h[..upto], from, a, p);
      RootIsDirectory(h, lo, w, hi, lo2, w2, l);
      RowStored(h, lo, w, hi, lo2, w2, from, upto, a, p, lo2);
      StoredDirectory(Members(a), h[lo2], p);
    }
  }

  lemma StoredDirectory(members: map<Path, Member>, v: Volume, p: Path)
    requires p in members && IsDirectory(v, p) && Stored(members, v, p)
    ensures members[p].Folder?
  {
  }

  lemma RootIsDirectory(h: seq<Volume>, lo: nat, w: Walk, hi: nat, lo2: nat, w2: Walk, l: string)
    requires Agreeing(h, lo, w, hi, lo2, w2) && l in LABELS
    ensures IsDirectory(h[lo2], In(Top, l))
  {
    hide Walked, NoReturn, NoLinkAppears, LinkCounts, Advancing;
    var p := In(Top, l);
    ListingFacts(h, lo2, w2, p);
    FrozenBetweenStats(h, lo, w, hi, lo2, w2, p);
    var u := w2.listed[p];
    TopStays(h, w.at[p], u);
    TopStays(h, w.at[p], lo2);
    ObservedResolves(h[w.at[p]], p, w.result[p]);
    assert Resolve(h[w.at[p]], Top) == Resolve(h[u], Top) == Resolve(h[lo2], Top) == Some(TOP);
    assert Resolve(h[u], p) == Some(w.result[p].ino);
    assert Resolve(h[lo2], p) == Some(w.result[p].ino);
  }

  // ---------------------------------------------------------------------
  // The program, reading a volume that changes between any two reads.
  // ---------------------------------------------------------------------

  // The volume, with what is about to be done to it: any change at all.
  class Live {
    // What a volume that stays as it is would hold below the roots, and the size of its
    // largest file.
    ghost const paths: set<Path>
    ghost const largest: nat
    var now: Volume
    var future: seq<Volume>
    ghost var history: seq<Volume>

    ghost predicate Valid()
      reads this
    {
      history != [] && now == history[|history| - 1]
    }

    // The volume holds only files and directories and is not going to change.
    ghost predicate Still()
      reads this
    {
      future == [] && Orderly(now, paths, largest)
    }

    // Reads that are enough for a whole collect of a volume that stays as it is.
    ghost function Reads(): nat {
      4 * |paths| + ArchiveCost(paths, largest)
    }

    constructor (v: Volume, future: seq<Volume>, ghost paths: set<Path>, ghost largest: nat)
      ensures Valid() && history == [v] && this.future == future && this.paths == paths && this.largest == largest
    {
      this.paths, this.largest := paths, largest;
      now := v;
      this.future := future;
      history := [v];
    }

    // The application runs between two reads: any number of its next steps are taken.
    method Drift()
      requires Valid()
      modifies this
      ensures Valid() && old(history) <= history && history + future == old(history + future)
      ensures old(Still()) ==> Still() && history == old(history)
    {
      hide Orderly;
      var n: nat :| n <= |future|;
      if n > 0 {
        assert history + future[..n] + future[n..] == history + future;
        now := future[n - 1];
        history := history + future[..n];
        future := future[n..];
      }
    }

    // One lookup.  A link above the path would be followed, to wherever it leads.
    method Look(p: Path) returns (i: Option<Ino>, astray: bool)
      requires Valid()
      modifies this
      ensures Valid() && old(history) <= history && (old(Still()) ==> Still() && history == old(history))
      ensures i == Resolve(now, p) && astray == LinkOnWay(now, p)
    {
      hide Orderly;
      Drift();
      i, astray := Resolve(now, p), LinkOnWay(now, p);
    }
  }

  // Above the path there is a link.
  predicate LinkOnWay(v: Volume, p: Path) {
    p.In? && p.parent.In? && (IsOther(v, p.parent) || LinkOnWay(v, p.parent))
  }

  lemma {:induction false} ResolvedIsClear(v: Volume, p: Path)
    requires Resolve(v, p).Some?
    ensures !LinkOnWay(v, p)
  {
    if p.In? {
      ResolvedIsClear(v, p.parent);
    }
  }

  lemma {:induction false} FindLink(v: Volume, p: Path) returns (q: Path)
    requires LinkOnWay(v, p)
    ensures q.In? && Under(p, q) && IsOther(v, q)
  {
    if IsOther(v, p.parent) {
      q := p.parent;
    } else {
      q := FindLink(v, p.parent);
    }
  }

  // Since instant lo, a link has taken the place of something at the path or above it.
  ghost predicate LinkMet(h: seq<Volume>, lo: nat, p: Path) {
    exists q, s, t :: lo <= s && AtOrUnder(p, q) && LinkAppears(h, q, s, t)
  }

  // A directory of the walk had become a link that was followed when this path was reached.
  ghost predicate Strayed(h: seq<Volume>, lo: nat, w: Walk) {
    exists p :: p in w.queue + w.todo && LinkMet(h, lo, p)
  }

  // Everything above a path of the walk was recorded.
  lemma {:induction false} AboveIsRecorded(h: seq<Volume>, lo: nat, w: Walk, p: Path, q: Path)
    requires Walking(h, lo, w) && p in w.at.Keys + w.todo + w.queue && q.In? && Under(p, q)
    ensures q in w.at && q in w.result && lo <= w.at[q] < |h| && Observed(h[w.at[q]], q, w.result[q])
    decreases p
  {
    hide Resolve, Observed, Lists;
    assert Rooted(h, w.listed, p);
    if q != p.parent {
      AboveIsRecorded(h, lo, w, p.parent, q);
    }
  }

  lemma MetOnWay(h: seq<Volume>, h': seq<Volume>, lo: nat, w: Walk, p: Path)
    requires Walking(h, lo, w) && p in w.queue + w.todo && h != [] && h <= h' && LinkOnWay(h'[|h'| - 1], p)
    ensures LinkMet(h', lo, p)
  {
    hide Walking, Resolve;
    var q := FindLink(h'[|h'| - 1], p);
    AboveIsRecorded(h, lo, w, p, q);
    assert h'[w.at[q]] == h[w.at[q]];
    assert LinkAppears(h', q, w.at[q], |h'| - 1);
  }

  lemma MetHere(h: seq<Volume>, lo: nat, p: Path, s: nat)
    requires lo <= s < |h| && p.In? && Resolve(h[s], p).Some? && !IsOther(h[s], p) && IsOther(h[|h| - 1], p)
    ensures LinkMet(h, lo, p)
  {
    assert LinkAppears(h, p, s, |h| - 1);
  }

  ghost predicate Orderly(v: Volume, paths: set<Path>, largest: nat) {
    && (forall p :: p in paths ==> p.In? && LabelOf(p) in LABELS && Resolve(v, p).Some? && !At(v, p).Other?)
    && (forall p: Path :: p.In? && LabelOf(p) in LABELS && Resolve(v, p).Some? ==> p in paths)
    && (forall p :: p in paths && At(v, p).File? ==> |At(v, p).content| <= largest)
    && (forall l :: l in LABELS ==> IsDirectory(v, In(Top, l)))
  }

  lemma OrderlyPath(v: Volume, paths: set<Path>, largest: nat, p: Path)
    requires Orderly(v, paths, largest) && p in paths
    ensures p.In? && LabelOf(p) in LABELS && Resolve(v, p).Some? && !At(v, p).Other?
    ensures At(v, p).File? ==> |At(v, p).content| <= largest
  {
    hide Resolve;
  }

  lemma OrderlyChildren(v: Volume, paths: set<Path>, largest: nat, p: Path)
    requires Orderly(v, paths, largest) && p in paths && IsDirectory(v, p)
    ensures Children(v, p) <= paths
  {
    forall n | n in At(v, p).entries && At(v, p).entries[n] in v.nodes
      ensures In(p, n) in paths
    {
      assert Resolve(v, In(p, n)).Some?;
      assert LabelOf(In(p, n)) == LabelOf(p);
    }
  }

  lemma OrderlyRoots(v: Volume, paths: set<Path>, largest: nat, l: string)
    requires Orderly(v, paths, largest) && l in LABELS
    ensures In(Top, l) in paths && IsDirectory(v, In(Top, l))
  {
    assert LabelOf(In(Top, l)) == l;
  }

  // One lstat, which refuses anything but files and directories.
  method Lstat(live: Live, p: Path) returns (s: Option<Stat>, astray: bool)
    requires live.Valid()
    modifies live
    ensures live.Valid() && old(live.history) <= live.history
    ensures old(live.Still()) ==> live.Still() && live.history == old(live.history)
    ensures astray == LinkOnWay(live.now, p)
    ensures s == if Resolve(live.now, p).None? || At(live.now, p).Other? then None
                 else Some(StatOf(Resolve(live.now, p).value, At(live.now, p)))
  {
    hide Orderly;
    var i;
    i, astray := live.Look(p);
    if i.None? || live.now.nodes[i.value].Other? {
      return None, astray;
    }
    s := Some(StatOf(i.value, live.now.nodes[i.value]));
  }

  // A visit goes on, passes over a link, ends the run, or follows a link.
  datatype Visit = Listed | Passed | Failed | Astray

  // An inventory is a finished walk, unless the walk followed a link before it was finished.
  ghost predicate Inventoried(h: seq<Volume>, lo: nat, w: Walk, found: Inventory) {
    Walking(h, lo, w) && ((w.queue == {} && w.todo == {} && w.result == found) || Strayed(h, lo, w))
  }

  // `budget` is the number of reads before the deadline alarm ends the run.
  method TakeInventory(live: Live, budget: nat) returns (found: Option<Inventory>, left: nat, ghost w: Walk)
    requires live.Valid()
    modifies live
    ensures live.Valid() && old(live.history) <= live.history
    ensures found.Some? ==>
              Inventoried(live.history, |old(live.history)| - 1, w, found.value)
    ensures old(live.Still()) ==> live.Still() && live.history == old(live.history)
    ensures old(live.Still()) && budget >= 2 * |live.paths| ==>
              found.Some? && found.value == Everything(live.now, live.paths) && left + 2 * |live.paths| >= budget
  {
    hide Orderly, Everything, Walking, Bounded, Strayed;
    ghost var still := live.Still() && budget >= 2 * |live.paths|;
    ghost var lo := |live.history| - 1;
    var result: Inventory := map[];
    var queue := set l | l in LABELS :: In(Top, l);
    w := Walk(result, map[], map[], queue, {}, map[]);
    found, left := None, budget;
    NothingWalked(live.history, lo, w);
    if still {
      BoundedAtFirst(live.now, live.paths, live.largest, w, budget);
    }
    while queue != {}
      invariant live.Valid() && old(live.history) <= live.history && left <= budget
      invariant old(live.Still()) ==> live.Still() && live.history == old(live.history)
      invariant still ==> Bounded(live.now, live.paths, w, left, budget)
      invariant Walking(live.history, lo, w) && w.todo == {} && w.result == result && w.queue == queue
      invariant found.None?
      decreases left
    {
      var p :| p in queue;
      if still {
        BoundedDirectory(live.history, live.paths, lo, w, p, left, budget);
      }
      if left == 0 {
        return;
      }
      left := left - 1;
      var outcome;
      outcome, left, result, queue, w := WalkDirectory(live, p, left, result, queue, lo, w, budget);
      if outcome.Failed? {
        return;
      }
      if outcome.Astray? {
        // What is inventoried from here on depends on where the link leads.
        found := *;
        return;
      }
    }
    found := Some(result);
    if still {
      StillInventory(live.history, lo, w, live.paths, live.largest, left, budget);
    }
  }

  lemma NothingWalked(h: seq<Volume>, lo: nat, w: Walk)
    requires w == Walk(map[], map[], map[], set l | l in LABELS :: In(Top, l), {}, map[])
    ensures Walking(h, lo, w)
  {
  }

  lemma BoundedAtFirst(v: Volume, paths: set<Path>, largest: nat, w: Walk, total: nat)
    requires Orderly(v, paths, largest) && total >= 2 * |paths|
    requires w == Walk(map[], map[], map[], set l | l in LABELS :: In(Top, l), {}, map[])
    ensures Bounded(v, paths, w, total, total)
  {
    hide Orderly, IsDirectory;
    forall q | q in w.queue
      ensures q in paths && IsDirectory(v, q)
    {
      OrderlyRoots(v, paths, largest, q.name);
    }
  }

  // A directory still to be walked finds a read left for it.
  lemma BoundedDirectory(h: seq<Volume>, paths: set<Path>, lo: nat, w: Walk, p: Path, left: nat, total: nat)
    requires Walking(h, lo, w) && h != [] && Bounded(h[|h| - 1], paths, w, left, total) && p in w.queue
    ensures left > 0
  {
    hide Walking, IsDirectory;
    QueuedIsNew(h, lo, w);
    KeysCount(w);
    FewerThan(w.listed.Keys, paths, p);
    AtMost(w.at.Keys, paths);
  }

  // The inventory of a volume that stays as it is.
  ghost function Everything(v: Volume, paths: set<Path>): Inventory {
    map p | p in paths && Resolve(v, p).Some? :: StatOf(Resolve(v, p).value, At(v, p))
  }

  lemma StillInventory(h: seq<Volume>, lo: nat, w: Walk, paths: set<Path>, largest: nat, left: nat, total: nat)
    requires Walked(h, lo, w) && lo == |h| - 1 && Orderly(h[lo], paths, largest)
    requires Bounded(h[lo], paths, w, left, total)
    ensures w.result == Everything(h[lo], paths) && left + 2 * |paths| >= total
  {
    hide Walked, Orderly, Resolve, IsDirectory;
    forall p | p in paths
      ensures p in w.result && Resolve(h[lo], p).Some? && w.result[p] == StatOf(Resolve(h[lo], p).value, At(h[lo], p))
    {
      StillReached(h, lo, w, paths, largest, p);
    }
    StillWithin(h, lo, w, paths);
    KeysCount(w);
    AtMost(w.at.Keys, paths);
    AtMost(w.listed.Keys, paths);
  }

  lemma StillWithin(h: seq<Volume>, lo: nat, w: Walk, paths: set<Path>)
    requires Walked(h, lo, w) && w.at.Keys <= paths
    ensures w.result.Keys <= paths
  {
  }

  lemma {:induction false} StillReached(h: seq<Volume>, lo: nat, w: Walk, paths: set<Path>, largest: nat, p: Path)
    requires Walked(h, lo, w) && lo == |h| - 1 && Orderly(h[lo], paths, largest) && p in paths
    ensures p in w.result && Resolve(h[lo], p).Some? && w.result[p] == StatOf(Resolve(h[lo], p).value, At(h[lo], p))
    ensures IsDirectory(h[lo], p) ==> p in w.listed
  {
    hide Walked, Orderly;
    OrderlyPath(h[lo], paths, largest, p);
    if p.parent.Top? {
      ListingFacts(h, lo, w, p);
    } else {
      var d := p.parent;
      ParentOrderly(h[lo], paths, largest, p);
      StillReached(h, lo, w, paths, largest, d);
      ListingFacts(h, lo, w, d);
      FollowFacts(h, lo, w, d, p.name);
      StillNotSkipped(h, lo, w, p);
    }
    StatFacts(h, lo, w, p);
  }

  lemma ParentOrderly(v: Volume, paths: set<Path>, largest: nat, p: Path)
    requires Orderly(v, paths, largest) && p in paths && p.In? && !p.parent.Top?
    ensures p.parent in paths && IsDirectory(v, p.parent) && Lists(v, p.parent, p.name)
  {
  }

  lemma StillNotSkipped(h: seq<Volume>, lo: nat, w: Walk, p: Path)
    requires Walked(h, lo, w) && lo == |h| - 1 && !IsOther(h[lo], p)
    ensures p !in w.skipped
  {
    hide Resolve, IsOther;
  }

  // The walk keeps within the paths, and its reads within twice their number.
  ghost predicate Bounded(v: Volume, paths: set<Path>, w: Walk, left: nat, total: nat) {
    && w.at.Keys <= paths && w.listed.Keys <= paths && w.todo <= paths && w.queue <= paths
    && (forall q :: q in w.queue ==> IsDirectory(v, q))
    && left + |w.listed| + |w.at| >= total >= 2 * |paths|
  }

  // One directory of the walk: its listing, its own stat, and a stat of each name.
  method WalkDirectory(live: Live, p: Path, budget: nat, result: Inventory, queue: set<Path>, ghost lo: nat,
                       ghost w: Walk, ghost total: nat)
    returns (outcome: Visit, left: nat, result': Inventory, queue': set<Path>, ghost w': Walk)
    requires live.Valid() && lo < |live.history|
    requires Walking(live.history, lo, w) && w.todo == {} && w.result == result && w.queue == queue && p in queue
    modifies live
    ensures live.Valid() && old(live.history) <= live.history && left <= budget
    ensures outcome.Listed? || outcome.Passed? ==>
              Walking(live.history, lo, w') && w'.todo == {} && w'.result == result' && w'.queue == queue'
    ensures outcome.Astray? ==> Walking(live.history, lo, w') && Strayed(live.history, lo, w')
    ensures old(live.Still()) ==> live.Still() && live.history == old(live.history)
    ensures old(live.Still()) && Bounded(old(live.now), live.paths, w, budget + 1, total) ==>
              outcome.Listed? && Bounded(live.now, live.paths, w', left, total)
  {
    hide Walking, Strayed, Resolve, Children, Orderly, Bounded;
    ghost var still := live.Still() && Bounded(live.now, live.paths, w, budget + 1, total);
    BoundedQueue(live.now, live.paths, w, budget + 1, total, p);
    left := budget;
    var i, seen;
    ghost var t;
    outcome, i, seen, t, result', w' := OpenDirectory(live, p, result, queue, lo, w);
    queue' := queue - {p};
    if !outcome.Listed? {
      return;
    }
    if still {
      BoundedOpened(live.history, live.paths, live.largest, lo, w, w', p, left, total);
    }
    outcome, left, result', queue', w' := WalkNames(live, p, i, seen, budget, result', queue', lo, w', t, total);
  }

  // The names of a directory listed at instant t.
  method WalkNames(live: Live, p: Path, i: Ino, seen: Volume, budget: nat, result: Inventory, queue: set<Path>,
                   ghost lo: nat, ghost w: Walk, ghost t: nat, ghost total: nat)
    returns (outcome: Visit, left: nat, result': Inventory, queue': set<Path>, ghost w': Walk)
    requires live.Valid() && lo < |live.history|
    requires t < |live.history| && live.history[t] == seen && IsDirectory(seen, p) && Resolve(seen, p) == Some(i)
    requires p in w.listed && w.listed[p] == t && w.todo == Children(seen, p)
    requires Walking(live.history, lo, w) && w.result == result && w.queue == queue
    modifies live
    ensures live.Valid() && old(live.history) <= live.history && left <= budget
    ensures outcome.Listed? ==>
              Walking(live.history, lo, w') && w'.todo == {} && w'.result == result' && w'.queue == queue'
    ensures outcome.Astray? ==> Walking(live.history, lo, w') && Strayed(live.history, lo, w')
    ensures !outcome.Passed?
    ensures old(live.Still()) ==> live.Still() && live.history == old(live.history)
    ensures old(live.Still()) && seen == old(live.now) && Bounded(seen, live.paths, w, budget, total) ==>
              outcome.Listed? && Bounded(live.now, live.paths, w', left, total)
  {
    hide Walking, Strayed, Resolve, Below, Children, Orderly, Bounded;
    ghost var still := live.Still() && seen == live.now && Bounded(seen, live.paths, w, budget, total);
    outcome, left, result', queue', w' := Failed, budget, result, queue, w;
    ListedNames(seen, p, i);
    var names := set n | n in seen.nodes[i].entries && Names(seen, i, n);
    while names != {}
      invariant live.Valid() && old(live.history) <= live.history && left <= budget
      invariant p in w'.listed && w'.listed[p] == t
      invariant forall n :: n in names ==> Names(seen, i, n)
      invariant Walking(live.history, lo, w') && w'.result == result' && w'.queue == queue'
      invariant w'.todo == Below(p, names)
      invariant old(live.Still()) ==> live.Still() && live.history == old(live.history)
      invariant still ==> Bounded(seen, live.paths, w', left, total)
      invariant outcome.Failed?
      decreases names
    {
      var n :| n in names;
      NameBelow(seen, p, i, names, n);
      if still {
        BoundedName(live.history, live.paths, live.largest, lo, w', In(p, n), left, total);
      }
      if left == 0 {
        return;
      }
      left := left - 1;
      ghost var w0 := w';
      var turned: bool := *;
      var target := seen.nodes[Target(seen, i, n)];
      // A link listed as a directory is walked if it has become a directory meanwhile.
      var walk := target.Dir? || (target.Other? && turned);
      outcome, result', w' := NoteChild(live, p, n, walk, result', lo, w');
      if !outcome.Listed? {
        return;
      }
      outcome := Failed;
      if still {
        BoundedNoted(seen, live.paths, w0, w', In(p, n), walk, left, total);
      }
      queue' := if walk then queue' + {In(p, n)} else queue';
      names := names - {n};
    }
    NoneBelow(p);
    outcome := Listed;
  }

  lemma QueuedStat(h: seq<Volume>, lo: nat, w: Walk, p: Path)
    requires Walking(h, lo, w) && p in w.queue && p.In? && !p.parent.Top?
    ensures p in w.at && p in w.result && lo <= w.at[p] < |h| && Observed(h[w.at[p]], p, w.result[p])
  {
    hide Resolve;
  }

  lemma QueuedBelowTop(h: seq<Volume>, lo: nat, w: Walk, p: Path)
    requires Walking(h, lo, w) && p in w.queue
    ensures p.In?
  {
  }

  lemma BoundedQueue(v: Volume, paths: set<Path>, w: Walk, left: nat, total: nat, p: Path)
    ensures Bounded(v, paths, w, left, total) && p in w.queue ==> IsDirectory(v, p) && p in paths
  {
  }

  lemma QueuedIsNew(h: seq<Volume>, lo: nat, w: Walk)
    requires Walking(h, lo, w)
    ensures w.queue !! w.listed.Keys && w.todo !! w.at.Keys
  {
  }

  lemma BoundedOpened(h: seq<Volume>, paths: set<Path>, largest: nat, lo: nat, w: Walk, w': Walk, p: Path, left: nat,
                      total: nat)
    requires Walking(h, lo, w) && h != [] && Orderly(h[|h| - 1], paths, largest) && p in w.queue
    requires Bounded(h[|h| - 1], paths, w, left + 1, total)
    requires w'.at.Keys == w.at.Keys + {p} && w'.listed.Keys == w.listed.Keys + {p} && w'.queue == w.queue - {p}
    requires w'.todo == Children(h[|h| - 1], p)
    ensures Bounded(h[|h| - 1], paths, w', left, total)
  {
    hide Walking, Orderly, IsDirectory, Children;
    QueuedIsNew(h, lo, w);
    OrderlyChildren(h[|h| - 1], paths, largest, p);
    KeysCount(w);
    KeysCount(w');
    MoreKeys(w.at.Keys, p);
    MoreKeys(w.listed.Keys, p);
  }

  lemma KeysCount(w: Walk)
    ensures |w.at| == |w.at.Keys| && |w.listed| == |w.listed.Keys|
  {
  }

  lemma MoreKeys(s: set<Path>, p: Path)
    ensures |s| <= |s + {p}| && (p !in s ==> |s + {p}| == |s| + 1)
  {
    if p in s {
      assert s + {p} == s;
    }
  }

  // A name that still needs a stat finds a read left for it.
  lemma BoundedName(h: seq<Volume>, paths: set<Path>, largest: nat, lo: nat, w: Walk, q: Path, left: nat, total: nat)
    requires Walking(h, lo, w) && h != [] && Bounded(h[|h| - 1], paths, w, left, total) && q in w.todo
    requires Orderly(h[|h| - 1], paths, largest)
    ensures left > 0 && q in paths && q !in w.at && Resolve(h[|h| - 1], q).Some? && !At(h[|h| - 1], q).Other?
  {
    hide Walking, IsDirectory, Orderly, Resolve;
    OrderlyPath(h[|h| - 1], paths, largest, q);
    QueuedIsNew(h, lo, w);
    KeysCount(w);
    FewerThan(w.at.Keys, paths, q);
    AtMost(w.listed.Keys, paths);
  }

  lemma FewerThan(s: set<Path>, t: set<Path>, q: Path)
    requires s <= t && q in t && q !in s
    ensures |s| < |t|
  {
    AtMost(s + {q}, t);
  }

  lemma AtMost(s: set<Path>, t: set<Path>)
    requires s <= t
    ensures |s| <= |t|
  {
    assert t == s + (t - s);
  }

  lemma BoundedNoted(v: Volume, paths: set<Path>, w: Walk, w': Walk, q: Path, walk: bool, left: nat, total: nat)
    requires Bounded(v, paths, w, left + 1, total) && q in paths && q !in w.at && (walk ==> IsDirectory(v, q))
    requires w'.at.Keys == w.at.Keys + {q} && w'.listed == w.listed && w'.todo == w.todo - {q}
    requires w'.queue == if walk then w.queue + {q} else w.queue
    ensures Bounded(v, paths, w', left, total)
  {
    hide IsDirectory;
    KeysCount(w);
    KeysCount(w');
    MoreKeys(w.at.Keys, q);
  }

  ghost function Below(p: Path, names: set<string>): set<Path> {
    set n | n in names :: In(p, n)
  }

  lemma NoneBelow(p: Path)
    ensures Below(p, {}) == {}
  {
  }

  lemma ListedNames(v: Volume, p: Path, i: Ino)
    requires Resolve(v, p) == Some(i) && v.nodes[i].Dir?
    ensures Below(p, set n | n in v.nodes[i].entries && Names(v, i, n)) == Children(v, p)
    ensures (set n | n in v.nodes[i].entries && Names(v, i, n) :: In(p, n)) == Children(v, p)
  {
  }

  lemma NameBelow(v: Volume, p: Path, i: Ino, names: set<string>, n: string)
    requires Resolve(v, p) == Some(i) && n in names && Names(v, i, n)
    ensures In(p, n) in Below(p, names) && Below(p, names - {n}) == Below(p, names) - {In(p, n)}
    ensures Resolve(v, In(p, n)) == Some(Target(v, i, n))
  {
  }

  // The test for links and the listing look at the directory one after the other.
  method OpenDirectory(live: Live, p: Path, result: Inventory, queue: set<Path>, ghost lo: nat, ghost w: Walk)
    returns (outcome: Visit, i: Ino, seen: Volume, ghost t: nat, result': Inventory, ghost w': Walk)
    requires live.Valid() && lo < |live.history|
    requires Walking(live.history, lo, w) && w.todo == {} && w.result == result && w.queue == queue && p in queue
    modifies live
    ensures live.Valid() && old(live.history) <= live.history
    ensures outcome.Listed? ==> OpenedAs(live.history, lo, w, p, i, seen, t, w') && w'.result == result'
    ensures old(live.Still()) ==>
              live.Still() && live.history == old(live.history)
                && (IsDirectory(live.now, p) ==> outcome.Listed? && seen == live.now)
    ensures outcome.Passed? ==>
              Walking(live.history, lo, w') && w'.todo == {} && w'.result == result' && w'.queue == queue - {p}
    ensures outcome.Astray? ==> w' == w && Walking(live.history, lo, w) && Strayed(live.history, lo, w)
  {
    hide Walking, Strayed, LinkMet, LinkOnWay, Resolve, Children, Orderly, OpenedAs;
    QueuedBelowTop(live.history, lo, w, p);
    if live.Still() && IsDirectory(live.now, p) {
      ResolvedIsClear(live.now, p);
    }
    outcome, i, seen, t, result', w' := Failed, TOP, live.now, 0, result, w;
    var tested, astray := live.Look(p);
    StatStrays(old(live.history), live.history, lo, w, p);
    if astray {
      outcome := Astray;
      return;
    }
    if p.parent.Top? && (tested.None? || !live.now.nodes[tested.value].Dir?) {
      return;
    }
    if tested.Some? && live.now.nodes[tested.value].Other? {
      QueuedStat(old(live.history), lo, w, p);
      LinkSkipped(live.history, lo, w, p, |live.history| - 1);
      outcome, w' := Passed, Skipped(w, p, |live.history| - 1);
      return;
    }
    outcome, i, seen, t, result', w' := ListDirectory(live, p, result, queue, lo, w);
  }

  method ListDirectory(live: Live, p: Path, result: Inventory, queue: set<Path>, ghost lo: nat, ghost w: Walk)
    returns (outcome: Visit, i: Ino, seen: Volume, ghost t: nat, result': Inventory, ghost w': Walk)
    requires live.Valid() && lo < |live.history|
    requires Walking(live.history, lo, w) && w.todo == {} && w.result == result && w.queue == queue && p in queue
    requires p.In? && (p.parent.Top? ==> Resolve(live.now, p).Some? && !IsOther(live.now, p))
    modifies live
    ensures live.Valid() && old(live.history) <= live.history
    ensures outcome.Listed? ==> OpenedAs(live.history, lo, w, p, i, seen, t, w') && w'.result == result'
    ensures old(live.Still()) ==>
              live.Still() && live.history == old(live.history)
                && (IsDirectory(live.now, p) ==> outcome.Listed? && seen == live.now)
    ensures outcome.Astray? ==> w' == w && Walking(live.history, lo, w) && Strayed(live.history, lo, w)
    ensures !outcome.Passed?
  {
    hide Walking, Strayed, LinkMet, LinkOnWay, Resolve, Children, Observed, Orderly, Opened, OpenedAs, LinkAppears;
    if live.Still() && IsDirectory(live.now, p) {
      ResolvedIsClear(live.now, p);
    }
    outcome, i, seen, t, result', w' := Failed, TOP, live.now, 0, result, w;
    var found, astray := live.Look(p);
    ListingStrays(old(live.history), live.history, lo, w, p);
    if astray || (found.Some? && live.now.nodes[found.value].Other?) {
      outcome := Astray;
      return;
    }
    if found.None? || live.now.nodes[found.value].File? {
      return;
    }
    t, i, seen := |live.history| - 1, found.value, live.now;
    RecordedBefore(live.history, lo, w);
    ghost var before := live.history;
    var s;
    s, astray := Lstat(live, p);
    StatStrays(before, live.history, lo, w, p);
    if astray || s.None? {
      outcome := if astray then Astray else Failed;
      return;
    }
    StatIsObserved(live.now, p);
    DirectoryOpened(live.history, lo, w, p, t, |live.history| - 1, s.value);
    OpenedFacts(live.history, lo, w, p, t, |live.history| - 1, s.value);
    outcome, result', w' := Listed, result[p := s.value], Opened(live.history, w, p, t, |live.history| - 1, s.value);
  }

  // The directory was listed at instant t, and got its stat; its names are still to be noted.
  ghost predicate OpenedAs(h: seq<Volume>, lo: nat, w: Walk, p: Path, i: Ino, seen: Volume, t: nat, w': Walk) {
    && t < |h| && h[t] == seen && IsDirectory(seen, p) && Resolve(seen, p) == Some(i)
    && Walking(h, lo, w') && w'.at.Keys == w.at.Keys + {p} && w'.listed.Keys == w.listed.Keys + {p}
    && w'.listed[p] == t && w'.queue == w.queue - {p} && w'.todo == Children(seen, p)
  }

  lemma OpenedFacts(h: seq<Volume>, lo: nat, w: Walk, p: Path, t: nat, u: nat, s: Stat)
    requires t < |h| && IsDirectory(h[t], p) && Walking(h, lo, Opened(h, w, p, t, u, s))
    ensures OpenedAs(h, lo, w, p, Resolve(h[t], p).value, h[t], t, Opened(h, w, p, t, u, s))
    ensures Opened(h, w, p, t, u, s).result == w.result[p := s]
  {
    hide Walking, Children;
  }

  lemma NotedFacts(w: Walk, q: Path, u: nat, s: Stat, walk: bool)
    ensures var w' := Noted(w, q, u, s, walk);
            && w'.result == w.result[q := s] && w'.at.Keys == w.at.Keys + {q} && w'.listed == w.listed
            && w'.todo == w.todo - {q} && w'.queue == if walk then w.queue + {q} else w.queue
  {
  }

  lemma StatIsObserved(v: Volume, p: Path)
    ensures Resolve(v, p).Some? && !IsOther(v, p) ==> Observed(v, p, StatOf(Resolve(v, p).value, At(v, p)))
  {
  }

  lemma ReplacedByLink(h: seq<Volume>, h': seq<Volume>, lo: nat, w: Walk, p: Path)
    requires Walking(h, lo, w) && p in w.queue && p.In? && h != [] && lo < |h| && h <= h'
    requires p.parent.Top? ==> Resolve(h[|h| - 1], p).Some? && !IsOther(h[|h| - 1], p)
    requires IsOther(h'[|h'| - 1], p)
    ensures LinkMet(h', lo, p)
  {
    hide Resolve, Walking, LinkMet;
    if p.parent.Top? {
      MetHere(h', lo, p, |h| - 1);
    } else {
      QueuedStat(h, lo, w, p);
      assert h'[w.at[p]] == h[w.at[p]];
      MetHere(h', lo, p, w.at[p]);
    }
  }

  // Listing a directory follows a link above it, or in its own place.
  lemma ListingStrays(h: seq<Volume>, h': seq<Volume>, lo: nat, w: Walk, p: Path)
    requires Walking(h, lo, w) && p in w.queue && p.In? && h != [] && lo < |h| && h <= h'
    requires p.parent.Top? ==> Resolve(h[|h| - 1], p).Some? && !IsOther(h[|h| - 1], p)
    ensures Walking(h', lo, w)
    ensures LinkOnWay(h'[|h'| - 1], p) || IsOther(h'[|h'| - 1], p) ==> Strayed(h', lo, w)
  {
    hide Walking, Strayed, Resolve, LinkMet;
    StatStrays(h, h', lo, w, p);
    if IsOther(h'[|h'| - 1], p) {
      ReplacedByLink(h, h', lo, w, p);
      StraysHere(h', lo, w, p);
    }
  }

  // A stat follows a link above the path.
  lemma StatStrays(h: seq<Volume>, h': seq<Volume>, lo: nat, w: Walk, p: Path)
    requires Walking(h, lo, w) && p in w.queue + w.todo && h != [] && h <= h'
    ensures Walking(h', lo, w) && (LinkOnWay(h'[|h'| - 1], p) ==> Strayed(h', lo, w))
  {
    hide Walking, Strayed, Resolve, LinkMet;
    HistoryExtends(h, h', lo, w);
    if LinkOnWay(h'[|h'| - 1], p) {
      MetOnWay(h, h', lo, w, p);
      StraysHere(h', lo, w, p);
    }
  }

  lemma StraysHere(h: seq<Volume>, lo: nat, w: Walk, p: Path)
    requires p in w.queue + w.todo && LinkMet(h, lo, p)
    ensures Strayed(h, lo, w)
  {
    hide LinkMet;
  }

  method NoteChild(live: Live, p: Path, n: string, walk: bool, result: Inventory, ghost lo: nat, ghost w: Walk)
    returns (outcome: Visit, result': Inventory, ghost w': Walk)
    requires live.Valid() && lo < |live.history|
    requires Walking(live.history, lo, w) && w.result == result && In(p, n) in w.todo
    requires p in w.listed && w.listed[p] < |live.history|
    requires (IsDirectory(live.history[w.listed[p]], In(p, n)) ==> walk)
    modifies live
    ensures live.Valid() && old(live.history) <= live.history
    ensures outcome.Listed? ==> Walking(live.history, lo, w') && w'.result == result' && w'.listed == w.listed
    ensures outcome.Listed? ==>
              w'.todo == w.todo - {In(p, n)} && w'.queue == if walk then w.queue + {In(p, n)} else w.queue
    ensures outcome.Listed? ==> w'.at.Keys == w.at.Keys + {In(p, n)}
    ensures old(live.Still()) ==>
              live.Still() && live.history == old(live.history) && (In(p, n) in live.paths ==> outcome.Listed?)
    ensures outcome.Astray? ==> w' == w && Walking(live.history, lo, w) && Strayed(live.history, lo, w)
    ensures !outcome.Passed?
  {
    hide Walking, Strayed, LinkMet, LinkOnWay, Orderly, Resolve, Noted, Observed, KindOf;
    if live.Still() && In(p, n) in live.paths {
      OrderlyPath(live.now, live.paths, live.largest, In(p, n));
      ResolvedIsClear(live.now, In(p, n));
    }
    outcome, result', w' := Failed, result, w;
    var child, astray := Lstat(live, In(p, n));
    StatStrays(old(live.history), live.history, lo, w, In(p, n));
    if astray || child.None? {
      outcome := if astray then Astray else Failed;
      return;
    }
    RecordedBefore(live.history, lo, w);
    StatIsObserved(live.now, In(p, n));
    ChildNoted(live.history, lo, w, In(p, n), |live.history| - 1, child.value, walk);
    NotedFacts(w, In(p, n), |live.history| - 1, child.value, walk);
    outcome, result', w' := Listed, result[In(p, n) := child.value],
      Noted(w, In(p, n), |live.history| - 1, child.value, walk);
  }

  // A directory of the archive had become a link that was followed when this path was reached,
  // or the path itself had.
  ghost predicate StrayedTar(h: seq<Volume>, lo: nat, a: Tar) {
    exists p :: p in a.queue && LinkMet(h, lo, p)
  }

  // Everything above a path still to be archived was listed.
  lemma {:induction false} AboveIsListed(h: seq<Volume>, lo: nat, a: Tar, p: Path, q: Path)
    requires Archiving(h, lo, a) && p in a.rows.Keys + a.queue && q.In? && Under(p, q)
    ensures q in a.listed && lo <= a.listed[q] < |h| && IsDirectory(h[a.listed[q]], q)
    decreases p
  {
    hide Resolve, RowSeen, Lists, IsDirectory, Alone;
    assert Rooted(h, a.listed, p);
    if q != p.parent {
      AboveIsListed(h, lo, a, p.parent, q);
    }
  }

  lemma TarMetOnWay(h: seq<Volume>, h': seq<Volume>, lo: nat, a: Tar, p: Path)
    requires Archiving(h, lo, a) && p in a.queue && h != [] && h <= h' && LinkOnWay(h'[|h'| - 1], p)
    ensures StrayedTar(h', lo, a)
  {
    hide Archiving, Resolve;
    var q := FindLink(h'[|h'| - 1], p);
    AboveIsListed(h, lo, a, p, q);
    assert h'[a.listed[q]] == h[a.listed[q]];
    assert LinkAppears(h', q, a.listed[q], |h'| - 1);
    assert LinkMet(h', lo, p);
  }

  lemma TarMetHere(h: seq<Volume>, lo: nat, a: Tar, p: Path, t: nat)
    requires p in a.queue && lo <= t < |h| && p.In?
    requires Resolve(h[t], p).Some? && !IsOther(h[t], p) && IsOther(h[|h| - 1], p)
    ensures StrayedTar(h, lo, a)
  {
    hide LinkMet;
    MetHere(h, lo, p, t);
  }

  // Copying an opened file block by block; a file that turns out too short ends the run.
  method ReadFile(live: Live, f: Ino, size: nat, budget: nat) returns (data: Option<Bytes>, left: nat)
    requires live.Valid()
    modifies live
    ensures live.Valid() && old(live.history) <= live.history && left <= budget
    ensures data.Some? ==> |data.value| == size && Copied(live.history, |old(live.history)| - 1, f, data.value)
    ensures old(live.Still()) ==> live.Still() && live.history == old(live.history)
    ensures old(live.Still()) && HasSize(old(live.now), f, size) && budget >= size ==>
              data.Some? && left + size >= budget
  {
    hide Orderly, Copied;
    CopiedNothing(live.history, |live.history| - 1, f);
    ghost var still := live.Still() && HasSize(live.now, f, size) && budget >= size;
    ghost var lo := |live.history| - 1;
    var bytes: Bytes := [];
    data, left := None, budget;
    while |bytes| < size
      invariant live.Valid() && old(live.history) <= live.history && left <= budget
      invariant |bytes| <= size && Copied(live.history, lo, f, bytes) && data.None?
      invariant old(live.Still()) ==> live.Still() && live.history == old(live.history)
      invariant still ==> left + |bytes| >= budget
      decreases size - |bytes|
    {
      if left == 0 {
        return;
      }
      left := left - 1;
      ghost var before := live.history;
      live.Drift();
      CopiedExtends(before, live.history, lo, f, bytes);
      var block :| 0 < block <= size - |bytes|;
      if f !in live.now.nodes || !live.now.nodes[f].File? || |live.now.nodes[f].content| < |bytes| + block {
        return;
      }
      var more := live.now.nodes[f].content[|bytes|..|bytes| + block];
      BlockCopied(live.history, lo, f, bytes, more);
      bytes := bytes + more;
    }
    data := Some(bytes);
  }

  predicate HasSize(v: Volume, f: Ino, size: nat) {
    f in v.nodes && v.nodes[f].File? && |v.nodes[f].content| == size
  }

  lemma CopiedNothing(h: seq<Volume>, lo: nat, f: Ino)
    ensures Copied(h, lo, f, [])
  {
  }

  lemma BlockCopied(h: seq<Volume>, lo: nat, f: Ino, data: Bytes, more: Bytes)
    requires Copied(h, lo, f, data) && lo < |h|
    requires f in h[|h| - 1].nodes && h[|h| - 1].nodes[f].File?
    requires |data| + |more| <= |h[|h| - 1].nodes[f].content|
    requires more == h[|h| - 1].nodes[f].content[|data|..|data| + |more|]
    ensures Copied(h, lo, f, data + more)
  {
    forall k | 0 <= k < |data + more|
      ensures WasRead(h, lo, f, k, (data + more)[k])
    {
      if k < |data| {
        assert WasRead(h, lo, f, k, data[k]);
      } else {
        assert more[k - |data|] == h[|h| - 1].nodes[f].content[k];
        assert ReadAt(h, lo, f, k, (data + more)[k], |h| - 1);
      }
    }
  }

  // The content of one path, with its kind and size taken from an earlier stat.  Opening
  // follows a link at the path itself, too.
  method ReadPath(live: Live, p: Path, size: nat, budget: nat)
    returns (data: Option<Bytes>, astray: bool, left: nat, ghost o: nat)
    requires live.Valid()
    modifies live
    ensures live.Valid() && old(live.history) <= live.history && left <= budget
    ensures data.Some? ==>
              && |data.value| == size && |old(live.history)| - 1 <= o < |live.history|
              && Resolve(live.history[o], p).Some?
              && Copied(live.history, |old(live.history)| - 1, Resolve(live.history[o], p).value, data.value)
    ensures astray ==> LinkOnWay(live.now, p) || IsOther(live.now, p)
    ensures old(live.Still()) ==> live.Still() && live.history == old(live.history)
    ensures old(live.Still()) && Resolve(old(live.now), p).Some? && budget >= size
            && HasSize(old(live.now), Resolve(old(live.now), p).value, size) ==>
              data.Some? && !astray && left + size >= budget
  {
    hide Copied, Orderly, Resolve;
    if live.Still() && Resolve(live.now, p).Some? {
      ResolvedIsClear(live.now, p);
    }
    ghost var lo := |live.history| - 1;
    var f;
    f, astray := live.Look(p);
    o := |live.history| - 1;
    data, left := None, budget;
    if astray || (f.Some? && live.now.nodes[f.value].Other?) {
      astray := true;
      return;
    }
    if f.None? || !live.now.nodes[f.value].File? {
      return;
    }
    ghost var middle := |live.history| - 1;
    data, left := ReadFile(live, f.value, size, budget);
    if data.Some? {
      CopiedFromEarlier(live.history, lo, middle, f.value, data.value);
    }
  }

  lemma CopiedFromEarlier(h: seq<Volume>, lo: nat, lo': nat, f: Ino, data: Bytes)
    requires lo <= lo' && Copied(h, lo', f, data)
    ensures Copied(h, lo, f, data)
  {
    forall k | 0 <= k < |data|
      ensures WasRead(h, lo, f, k, data[k])
    {
      assert WasRead(h, lo', f, k, data[k]);
      var r: nat :| ReadAt(h, lo', f, k, data[k], r);
      assert ReadAt(h, lo, f, k, data[k], r);
    }
  }

  ghost predicate ArchiveMatches(entries: seq<Entry>, queue: set<Path>, inodes: map<Ino, Path>, a: Tar) {
    Members(a) == Table(entries) && Coherent(entries) && a.queue == queue && a.inodes == inodes
  }

  lemma QueuedNotArchived(h: seq<Volume>, lo: nat, a: Tar, p: Path)
    requires Archiving(h, lo, a) && p in a.queue
    ensures p !in a.rows
  {
  }

  lemma RowMatches(entries: seq<Entry>, a: Tar, a': Tar, p: Path, r: Row)
    requires Members(a) == Table(entries) && Coherent(entries) && p !in a.rows && a'.rows == a.rows[p := r]
    ensures Members(a') == Table(entries + [Entry(p, r.member)]) && Coherent(entries + [Entry(p, r.member)])
  {
    hide Coherent;
    assert p !in Members(a);
    TableAppend(entries, Entry(p, r.member));
    CoherentAppend(entries, Entry(p, r.member));
  }

  lemma FolderMatches(h: seq<Volume>, entries: seq<Entry>, queue: set<Path>, inodes: map<Ino, Path>, a: Tar, p: Path,
                      t: nat, u: nat)
    requires ArchiveMatches(entries, queue, inodes, a) && p !in a.rows
    requires t < |h| && u < |h| && IsDirectory(h[t], p) && IsDirectory(h[u], p)
    ensures ArchiveMatches(entries + [Entry(p, Folder)], queue - {p} + Children(h[u], p), inodes,
              FolderAdded(h, a, p, t, u))
  {
    hide Resolve, Members, Coherent;
    RowMatches(entries, a, FolderAdded(h, a, p, t, u), p, Row(Folder, Resolve(h[t], p).value, t, t));
  }

  lemma LeafMatches(entries: seq<Entry>, queue: set<Path>, inodes: map<Ino, Path>, a: Tar, p: Path, r: Row)
    requires ArchiveMatches(entries, queue, inodes, a) && p !in a.rows
    ensures ArchiveMatches(entries + [Entry(p, r.member)], queue - {p},
              if r.member.Blob? then inodes[r.ino := p] else inodes, LeafAdded(a, p, r))
  {
    hide Members, Coherent;
    RowMatches(entries, a, LeafAdded(a, p, r), p, r);
  }

  // One member of the archive.
  method AddMember(live: Live, p: Path, budget: nat, entries: seq<Entry>, queue: set<Path>, inodes: map<Ino, Path>,
                   ghost lo: nat, ghost a: Tar)
    returns (outcome: Visit, left: nat, entries': seq<Entry>, queue': set<Path>, inodes': map<Ino, Path>, ghost a': Tar)
    requires live.Valid() && lo < |live.history| && p in queue
    requires Archiving(live.history, lo, a) && ArchiveMatches(entries, queue, inodes, a)
    modifies live
    ensures live.Valid() && old(live.history) <= live.history && left <= budget
    ensures outcome.Listed? ==> MemberAdded(live.history, lo, a, p, entries', queue', inodes', a')
    ensures outcome.Astray? ==> a' == a && Archiving(live.history, lo, a) && StrayedTar(live.history, lo, a)
    ensures old(live.Still()) ==> live.Still() && live.history == old(live.history)
    ensures old(live.Still()) && queue <= live.paths && budget >= live.largest ==>
              outcome.Listed? && queue' <= live.paths && left + live.largest >= budget
  {
    hide Archiving, ArchiveMatches, MemberAdded, StrayedTar, Orderly, Resolve;
    if live.Still() && p in live.paths {
      OrderlyPath(live.now, live.paths, live.largest, p);
      ResolvedIsClear(live.now, p);
    }
    outcome, left, entries', queue', inodes', a' := Failed, budget, entries, queue, inodes, a;
    QueueIsNew(live.history, lo, entries, queue, inodes, a, p);
    var i, astray := live.Look(p);
    TarExtends(old(live.history), live.history, lo, a);
    if astray {
      TarMetOnWay(old(live.history), live.history, lo, a, p);
      outcome := Astray;
      return;
    }
    if i.None? {
      return;
    }
    if live.now.nodes[i.value].Dir? {
      outcome, entries', queue', a' := AddFolder(live, p, entries, queue, inodes, lo, a);
    } else {
      outcome, left, entries', queue', inodes', a' := AddLeaf(live, p, i.value, budget, entries, queue, inodes, lo, a);
    }
  }

  ghost predicate MemberAdded(h: seq<Volume>, lo: nat, a: Tar, p: Path, entries: seq<Entry>, queue: set<Path>,
                              inodes: map<Ino, Path>, a': Tar) {
    Archiving(h, lo, a') && ArchiveMatches(entries, queue, inodes, a') && a'.rows.Keys == a.rows.Keys + {p}
  }

  // A directory; listing it follows a link that has taken its place.
  method AddFolder(live: Live, p: Path, entries: seq<Entry>, queue: set<Path>, inodes: map<Ino, Path>, ghost lo: nat,
                   ghost a: Tar)
    returns (outcome: Visit, entries': seq<Entry>, queue': set<Path>, ghost a': Tar)
    requires live.Valid() && lo < |live.history| && p in queue && IsDirectory(live.now, p)
    requires Archiving(live.history, lo, a) && ArchiveMatches(entries, queue, inodes, a)
    modifies live
    ensures live.Valid() && old(live.history) <= live.history
    ensures outcome.Listed? ==> MemberAdded(live.history, lo, a, p, entries', queue', inodes, a')
    ensures outcome.Astray? ==> a' == a && Archiving(live.history, lo, a) && StrayedTar(live.history, lo, a)
    ensures old(live.Still()) ==> live.Still() && live.history == old(live.history)
    ensures old(live.Still()) ==> outcome.Listed? && (queue <= live.paths ==> queue' <= live.paths)
  {
    hide Archiving, Resolve, Members, Coherent, Table, Orderly, ArchiveMatches, FolderAdded, Children, StrayedTar;
    QueueIsNew(live.history, lo, entries, queue, inodes, a, p);
    if live.Still() && p in live.paths {
      OrderlyChildren(live.now, live.paths, live.largest, p);
    }
    if live.Still() {
      ResolvedIsClear(live.now, p);
    }
    outcome, entries', queue', a' := Failed, entries, queue, a;
    ghost var t := |live.history| - 1;
    var again, astray := live.Look(p);
    assert live.history[t] == old(live.history)[t];
    TarExtends(old(live.history), live.history, lo, a);
    if astray || (again.Some? && live.now.nodes[again.value].Other?) {
      if astray {
        TarMetOnWay(old(live.history), live.history, lo, a, p);
      } else {
        QueuedInside(live.history, lo, a, p);
        TarMetHere(live.history, lo, a, p, t);
      }
      outcome := Astray;
      return;
    }
    if again.None? || !live.now.nodes[again.value].Dir? {
      return;
    }
    FolderAddedOk(live.history, lo, a, p, t, |live.history| - 1);
    a' := FolderAdded(live.history, a, p, t, |live.history| - 1);
    FolderMatches(live.history, entries, queue, inodes, a, p, t, |live.history| - 1);
    FolderRows(live.history, a, p, t, |live.history| - 1);
    ListedNames(live.now, p, again.value);
    var below := set n | n in live.now.nodes[again.value].entries && Names(live.now, again.value, n) :: In(p, n);
    outcome, entries', queue' := Listed, entries + [Entry(p, Folder)], queue - {p} + below;
  }

  lemma QueuedInside(h: seq<Volume>, lo: nat, a: Tar, p: Path)
    requires Archiving(h, lo, a) && p in a.queue
    ensures p.In?
  {
    assert Rooted(h, a.listed, p);
  }

  // What to store for a path whose lstat showed inode i: a link if the inode was archived
  // before and the stat shows more names.
  method ReadLeaf(live: Live, p: Path, i: Ino, budget: nat, inodes: map<Ino, Path>)
    returns (outcome: Visit, member: Member, left: nat, ghost o: nat)
    requires live.Valid() && Resolve(live.now, p) == Some(i) && !At(live.now, p).Dir?
    modifies live
    ensures live.Valid() && old(live.history) <= live.history && left <= budget
    ensures outcome.Listed? ==>
              LeafRead(live.history, |old(live.history)| - 1, p, Row(member, i, |old(live.history)| - 1, o))
    ensures outcome.Listed? ==> FitsIndex(member, old(live.now).nodes[i], i, inodes)
    ensures outcome.Astray? ==> old(live.now).nodes[i].File? && (LinkOnWay(live.now, p) || IsOther(live.now, p))
    ensures old(live.Still()) ==> live.Still() && live.history == old(live.history)
    ensures old(live.Still()) && p in live.paths && budget >= live.largest ==>
              outcome.Listed? && left + live.largest >= budget
  {
    hide Resolve, Copied, Orderly, LinkOnWay, IsOther;
    if live.Still() && p in live.paths {
      OrderlyPath(live.now, live.paths, live.largest, p);
    }
    outcome, member, left, o := Listed, Odd, budget, 0;
    var node := live.now.nodes[i];
    if node.File? && node.links > 1 && i in inodes {
      member := Hard(inodes[i]);
    } else if node.File? {
      var data, astray;
      data, astray, left, o := ReadPath(live, p, |node.content|, budget);
      outcome := if astray then Astray else if data.None? then Failed else Listed;
      member := if data.Some? then Blob(data.value) else Odd;
    }
  }

  predicate FitsIndex(member: Member, node: Inode, i: Ino, inodes: map<Ino, Path>) {
    && (member.Blob? ==> node.File? && (i !in inodes || node.links <= 1))
    && (member.Hard? ==> i in inodes && inodes[i] == member.link)
  }

  method AddLeaf(live: Live, p: Path, i: Ino, budget: nat, entries: seq<Entry>, queue: set<Path>,
                 inodes: map<Ino, Path>, ghost lo: nat, ghost a: Tar)
    returns (outcome: Visit, left: nat, entries': seq<Entry>, queue': set<Path>, inodes': map<Ino, Path>, ghost a': Tar)
    requires live.Valid() && lo < |live.history| && p in queue && Resolve(live.now, p) == Some(i)
    requires !At(live.now, p).Dir?
    requires Archiving(live.history, lo, a) && ArchiveMatches(entries, queue, inodes, a)
    modifies live
    ensures live.Valid() && old(live.history) <= live.history && left <= budget
    ensures outcome.Listed? ==> MemberAdded(live.history, lo, a, p, entries', queue', inodes', a')
    ensures outcome.Astray? ==> a' == a && Archiving(live.history, lo, a) && StrayedTar(live.history, lo, a)
    ensures old(live.Still()) ==> live.Still() && live.history == old(live.history)
    ensures old(live.Still()) && p in live.paths && budget >= live.largest ==>
              outcome.Listed? && left + live.largest >= budget
    ensures queue' <= queue
  {
    hide Archiving, Resolve, LeafRead, Orderly, LeafAdded, ArchiveMatches, MemberAdded, StrayedTar, LinkOnWay, IsOther;
    entries', queue', inodes', a' := entries, queue, inodes, a;
    ghost var before := live.history;
    var member;
    ghost var o;
    outcome, member, left, o := ReadLeaf(live, p, i, budget, inodes);
    if outcome.Astray? {
      StraysWhileReading(before, live.history, lo, entries, queue, inodes, a, p);
    }
    if !outcome.Listed? {
      return;
    }
    ghost var r := Row(member, i, |before| - 1, o);
    LeafStored(before, live.history, lo, entries, queue, inodes, a, p, r);
    entries', queue', a' := entries + [Entry(p, member)], queue - {p}, LeafAdded(a, p, r);
    inodes' := if member.Blob? then inodes[i := p] else inodes;
  }

  lemma StraysWhileReading(h: seq<Volume>, h': seq<Volume>, lo: nat, entries: seq<Entry>, queue: set<Path>,
                           inodes: map<Ino, Path>, a: Tar, p: Path)
    requires Archiving(h, lo, a) && ArchiveMatches(entries, queue, inodes, a) && p in queue
    requires h != [] && lo < |h| && h <= h' && Resolve(h[|h| - 1], p).Some? && At(h[|h| - 1], p).File?
    requires LinkOnWay(h'[|h'| - 1], p) || IsOther(h'[|h'| - 1], p)
    ensures Archiving(h', lo, a) && StrayedTar(h', lo, a)
  {
    hide Archiving, Resolve, StrayedTar, ArchiveMatches;
    QueueIsNew(h, lo, entries, queue, inodes, a, p);
    QueuedInside(h, lo, a, p);
    TarExtends(h, h', lo, a);
    if LinkOnWay(h'[|h'| - 1], p) {
      TarMetOnWay(h, h', lo, a, p);
    } else {
      assert h'[|h| - 1] == h[|h| - 1];
      TarMetHere(h', lo, a, p, |h| - 1);
    }
  }

  lemma LeafStored(h: seq<Volume>, h': seq<Volume>, lo: nat, entries: seq<Entry>, queue: set<Path>,
                   inodes: map<Ino, Path>, a: Tar, p: Path, r: Row)
    requires Archiving(h, lo, a) && ArchiveMatches(entries, queue, inodes, a) && p in queue && h != [] && h <= h'
    requires r.statted == |h| - 1 && lo < |h| && LeafRead(h', r.statted, p, r)
    requires r.ino in h[|h| - 1].nodes && FitsIndex(r.member, h[|h| - 1].nodes[r.ino], r.ino, inodes)
    ensures var inodes' := if r.member.Blob? then inodes[r.ino := p] else inodes;
            MemberAdded(h', lo, a, p, entries + [Entry(p, r.member)], queue - {p}, inodes', LeafAdded(a, p, r))
  {
    hide Archiving, Resolve, Members, Coherent, RowSeen, LeafAdded, Copied, LeafRead;
    assert h'[|h| - 1] == h[|h| - 1];
    TarExtends(h, h', lo, a);
    LeafSeen(h', lo, p, r);
    QueueIsNew(h, lo, entries, queue, inodes, a, p);
    LeafAddedOk(h', lo, a, p, r);
    LeafMatches(entries, queue, inodes, a, p, r);
    LeafRows(a, p, r);
  }

  lemma LeafRows(a: Tar, p: Path, r: Row)
    ensures LeafAdded(a, p, r).rows.Keys == a.rows.Keys + {p}
    ensures LeafAdded(a, p, r).queue == a.queue - {p}
  {
  }

  lemma FolderRows(h: seq<Volume>, a: Tar, p: Path, t: nat, u: nat)
    requires t < |h| && u < |h| && IsDirectory(h[t], p) && IsDirectory(h[u], p)
    ensures FolderAdded(h, a, p, t, u).rows.Keys == a.rows.Keys + {p}
  {
  }

  // What the reads of a member that is no directory saw.
  ghost predicate LeafRead(h: seq<Volume>, lo: nat, p: Path, r: Row) {
    && r.statted < |h| && Resolve(h[r.statted], p) == Some(r.ino)
    && var node := At(h[r.statted], p);
       match r.member
       case Odd => node.Other?
       case Hard(_) => node.File? && node.links > 1
       case Blob(data) =>
         node.File? && |node.content| == |data| && lo <= r.openedAt < |h| && Resolve(h[r.openedAt], p).Some?
         && Copied(h, lo, Resolve(h[r.openedAt], p).value, data)
       case Folder => false
  }

  lemma LeafSeen(h: seq<Volume>, lo: nat, p: Path, r: Row)
    requires lo <= r.statted && LeafRead(h, r.statted, p, r)
    ensures RowSeen(h, lo, p, r) && !r.member.Folder?
    ensures r.ino in h[r.statted].nodes
    ensures r.member.Blob? && h[r.statted].nodes[r.ino].links <= 1 ==> Alone(h, r)
  {
    hide Copied;
    if r.member.Blob? {
      CopiedFromEarlier(h, lo, r.statted, Resolve(h[r.openedAt], p).value, r.member.data);
    }
  }

  ghost function ArchiveCost(paths: set<Path>, largest: nat): nat {
    |paths| * (largest + 1)
  }

  // Members archived so far and still to be archived are among the paths, and each has cost
  // at most one look and its bytes.
  ghost predicate InBudget(paths: set<Path>, largest: nat, rows: set<Path>, queue: set<Path>, left: nat, total: nat) {
    rows <= paths && queue <= paths && left + |rows| * (largest + 1) >= total >= ArchiveCost(paths, largest)
  }

  lemma NothingArchived(h: seq<Volume>, lo: nat, a: Tar)
    requires a == Tar(map[], set l | l in LABELS :: In(Top, l), map[], map[])
    ensures Archiving(h, lo, a) && ArchiveMatches([], a.queue, map[], a)
  {
    hide RowSeen;
  }

  lemma InBudgetAtFirst(v: Volume, paths: set<Path>, largest: nat, a: Tar, total: nat)
    requires Orderly(v, paths, largest) && total >= ArchiveCost(paths, largest)
    requires a == Tar(map[], set l | l in LABELS :: In(Top, l), map[], map[])
    ensures InBudget(paths, largest, a.rows.Keys, a.queue, total, total)
  {
    hide Orderly;
    forall q | q in a.queue
      ensures q in paths
    {
      OrderlyRoots(v, paths, largest, q.name);
    }
  }

  lemma QueueIsNew(h: seq<Volume>, lo: nat, entries: seq<Entry>, queue: set<Path>, inodes: map<Ino, Path>, a: Tar,
                   p: Path)
    requires Archiving(h, lo, a) && ArchiveMatches(entries, queue, inodes, a) && p in queue
    ensures p !in a.rows && a.queue == queue
  {
    hide Archiving, Coherent;
    QueuedNotArchived(h, lo, a, p);
  }

  lemma EnoughForOne(paths: set<Path>, largest: nat, rows: set<Path>, queue: set<Path>, left: nat, total: nat, p: Path)
    requires InBudget(paths, largest, rows, queue, left, total) && p in queue && p !in rows
    ensures left >= largest + 1 && queue <= paths && rows <= paths
  {
    FewerThan(rows, paths, p);
    assert (|rows| + 1) * (largest + 1) <= ArchiveCost(paths, largest);
  }

  lemma StillInBudget(paths: set<Path>, largest: nat, rows: set<Path>, rows': set<Path>, was: set<Path>,
                      queue: set<Path>, before: nat, left: nat, total: nat, p: Path)
    requires InBudget(paths, largest, rows, was, before + 1, total) && p in was && p !in rows
    requires rows' == rows + {p} && queue <= paths && left + largest >= before
    ensures InBudget(paths, largest, rows', queue, left, total)
  {
    assert (|rows| + 1) * (largest + 1) == |rows| * (largest + 1) + largest + 1;
  }

  lemma WithinBudget(paths: set<Path>, largest: nat, rows: set<Path>, queue: set<Path>, left: nat, total: nat)
    requires InBudget(paths, largest, rows, queue, left, total)
    ensures left + ArchiveCost(paths, largest) >= total
  {
    AtMost(rows, paths);
    assert |rows| * (largest + 1) <= ArchiveCost(paths, largest);
  }

  lemma ArchiveDone(h: seq<Volume>, lo: nat, entries: seq<Entry>, queue: set<Path>, inodes: map<Ino, Path>, a: Tar)
    requires Archiving(h, lo, a) && ArchiveMatches(entries, queue, inodes, a) && queue == {}
    ensures TarTaken(h, lo, a, entries)
  {
    hide Archiving, Coherent;
  }

  // An archive is finished, unless the archiving followed a link before it was.
  ghost predicate TarTaken(h: seq<Volume>, lo: nat, a: Tar, entries: seq<Entry>) {
    || (Archived(h, lo, a) && Members(a) == Table(entries) && Coherent(entries))
    || (Archiving(h, lo, a) && StrayedTar(h, lo, a))
  }

  method TakeArchive(live: Live, budget: nat) returns (found: Option<seq<Entry>>, left: nat, ghost a: Tar)
    requires live.Valid()
    modifies live
    ensures live.Valid() && old(live.history) <= live.history
    ensures found.Some? ==> TarTaken(live.history, |old(live.history)| - 1, a, found.value)
    ensures old(live.Still()) ==> live.Still() && live.history == old(live.history)
    ensures old(live.Still()) && budget >= ArchiveCost(live.paths, live.largest) ==>
              found.Some? && left + ArchiveCost(live.paths, live.largest) >= budget
  {
    hide Resolve, RowSeen, Archiving, ArchiveMatches, Orderly, InBudget, ArchiveCost, TarTaken, StrayedTar;
    ghost var still := live.Still() && budget >= ArchiveCost(live.paths, live.largest);
    ghost var lo := |live.history| - 1;
    var entries: seq<Entry>, inodes: map<Ino, Path> := [], map[];
    var queue := set l | l in LABELS :: In(Top, l);
    a := Tar(map[], queue, map[], map[]);
    found, left := None, budget;
    NothingArchived(live.history, lo, a);
    if still {
      InBudgetAtFirst(live.now, live.paths, live.largest, a, budget);
    }
    while queue != {}
      invariant live.Valid() && old(live.history) <= live.history && left <= budget
      invariant old(live.Still()) ==> live.Still() && live.history == old(live.history)
      invariant still ==> InBudget(live.paths, live.largest, a.rows.Keys, queue, left, budget)
      invariant Archiving(live.history, lo, a) && ArchiveMatches(entries, queue, inodes, a) && found.None?
      decreases left
    {
      var p :| p in queue;
      QueueIsNew(live.history, lo, entries, queue, inodes, a, p);
      if still {
        EnoughForOne(live.paths, live.largest, a.rows.Keys, queue, left, budget, p);
      }
      if left == 0 {
        return;
      }
      left := left - 1;
      var outcome;
      ghost var rows, was, unspent := a.rows.Keys, queue, left;
      outcome, left, entries, queue, inodes, a := AddMember(live, p, left, entries, queue, inodes, lo, a);
      if outcome.Astray? {
        // What is archived from here on depends on where the link leads.
        found := *;
        TarStrayed(live.history, lo, a, if found.Some? then found.value else []);
        return;
      }
      if !outcome.Listed? {
        return;
      }
      if still {
        StillInBudget(live.paths, live.largest, rows, a.rows.Keys, was, queue, unspent, left, budget, p);
      }
    }
    if still {
      WithinBudget(live.paths, live.largest, a.rows.Keys, queue, left, budget);
    }
    ArchiveDone(live.history, lo, entries, queue, inodes, a);
    found := Some(entries);
  }

  lemma TarStrayed(h: seq<Volume>, lo: nat, a: Tar, entries: seq<Entry>)
    requires Archiving(h, lo, a) && StrayedTar(h, lo, a)
    ensures TarTaken(h, lo, a, entries)
  {
    hide Archiving, StrayedTar;
  }

  // ---------------------------------------------------------------------
  // The double collect.
  // ---------------------------------------------------------------------

  datatype Bundle = Bundle(database: Bytes, config: Bytes, state: seq<Entry>)

  // `instant` is when the database copy finished.  The configuration is compared by
  // value only, so it is the one found at a read before that instant and at one after.
  ghost predicate Consistent(b: Bundle, h: seq<Volume>, instant: nat) {
    && instant < |h|
    && b.database == h[instant].database
    && Coherent(b.state) && HasRoots(Table(b.state)) && SnapshotOf(Table(b.state), h[instant])
    && ConfigAround(b.config, h, instant)
  }

  ghost predicate ConfigAround(config: Bytes, h: seq<Volume>, instant: nat) {
    (exists i :: 0 <= i <= instant < |h| && h[i].config == config)
      && (exists j :: instant <= j < |h| && h[j].config == config)
  }

  // How a bundle was collected: a first inventory, the configuration, the database copy, the
  // archive, a second inventory and the configuration again, each reading on from the history
  // that the one before had left, with equal inventories and equal configurations.
  datatype Course = Course(
    lo: nat, w: Walk, early: seq<Volume>, read: seq<Volume>, middle: seq<Volume>, a: Tar, late: seq<Volume>,
    w2: Walk, last: seq<Volume>, closing: seq<Volume>, found: Inventory)

  ghost predicate InTurn(c: Course, h: seq<Volume>) {
    && c.early != [] && c.early <= c.read <= c.middle <= c.late <= c.last <= c.closing <= h
  }

  ghost predicate CollectedBy(b: Bundle, h: seq<Volume>, instant: nat, c: Course) {
    && InTurn(c, h) && instant == |c.middle| - 1
    && Inventoried(c.early, c.lo, c.w, c.found) && Inventoried(c.last, |c.late| - 1, c.w2, c.found)
    && TarTaken(c.late, instant, c.a, b.state)
    && b.database == c.middle[instant].database
    && b.config == c.read[|c.read| - 1].config == c.closing[|c.closing| - 1].config
  }

  // What the program accepts, whatever the application does.
  ghost predicate Collected(b: Bundle, h: seq<Volume>, instant: nat) {
    exists c :: CollectedBy(b, h, instant, c)
  }

  lemma CollectedExtends(b: Bundle, h: seq<Volume>, h': seq<Volume>, instant: nat)
    requires Collected(b, h, instant) && h <= h'
    ensures Collected(b, h', instant)
  {
    hide Inventoried, TarTaken;
    var c :| CollectedBy(b, h, instant, c);
    assert CollectedBy(b, h', instant, c);
  }

  method Collect(live: Live, budget: nat) returns (found: Option<Bundle>, ghost instant: nat)
    requires live.Valid()
    modifies live
    ensures live.Valid() && old(live.history) <= live.history
    ensures found.Some? ==> Collected(found.value, live.history, instant) && |old(live.history)| - 1 <= instant
    ensures old(live.Still()) ==> live.Still() && live.history == old(live.history)
    ensures old(live.Still()) && budget >= live.Reads() ==> found.Some?
  {
    hide Orderly, Everything, ArchiveCost, Inventoried, TarTaken, Resolve, CollectedBy, Collected;
    var before, left, w := TakeInventory(live, budget);
    ghost var early := live.history;
    found, instant := None, |live.history| - 1;
    if before.None? {
      return;
    }
    live.Drift();
    var config := live.now.config;
    ghost var read := live.history;
    live.Drift();
    var database := live.now.database;
    ghost var middle := live.history;
    instant := |middle| - 1;
    var state, a, late, w2, last := ArchiveAndCompare(live, before.value, left);
    live.Drift();
    if state.None? || live.now.config != config {
      return;
    }
    found := Some(Bundle(database, config, state.value));
    ghost var c := Course(|old(live.history)| - 1, w, early, read, middle, a, late, w2, last, live.history,
                          before.value);
    CollectedSo(found.value, live.history, instant, c);
  }

  // The archive, and a second inventory that must be as the first was.
  method ArchiveAndCompare(live: Live, before: Inventory, budget: nat)
    returns (state: Option<seq<Entry>>, ghost a: Tar, ghost late: seq<Volume>, ghost w2: Walk, ghost last: seq<Volume>)
    requires live.Valid()
    modifies live
    ensures live.Valid() && old(live.history) <= late <= last == live.history
    ensures state.Some? ==>
              TarTaken(late, |old(live.history)| - 1, a, state.value) && Inventoried(last, |late| - 1, w2, before)
    ensures old(live.Still()) ==> live.Still() && live.history == old(live.history)
    ensures old(live.Still()) && before == Everything(old(live.now), live.paths) ==>
              budget >= ArchiveCost(live.paths, live.largest) + 2 * |live.paths| ==> state.Some?
  {
    hide Orderly, Everything, ArchiveCost, Inventoried, TarTaken;
    var left, after;
    state, left, a := TakeArchive(live, budget);
    late, last := live.history, live.history;
    if state.None? {
      w2 := Walk(map[], map[], map[], {}, {}, map[]);
      return;
    }
    after, left, w2 := TakeInventory(live, left);
    last := live.history;
    if after != Some(before) {
      state := None;
    }
  }

  lemma CollectedSo(b: Bundle, h: seq<Volume>, instant: nat, c: Course)
    requires InTurn(c, h) && instant == |c.middle| - 1
    requires Inventoried(c.early, c.lo, c.w, c.found) && Inventoried(c.last, |c.late| - 1, c.w2, c.found)
    requires TarTaken(c.late, instant, c.a, b.state)
    requires b.database == c.middle[instant].database
    requires b.config == c.read[|c.read| - 1].config == c.closing[|c.closing| - 1].config
    ensures Collected(b, h, instant)
  {
    hide Inventoried, TarTaken;
    assert CollectedBy(b, h, instant, c);
  }

  lemma NoneMet(h: seq<Volume>, early: seq<Volume>, lo: nat, p: Path)
    requires NoLinkAppears(h) && early <= h
    ensures !LinkMet(early, lo, p)
  {
    hide LinkAppears;
    forall q, s: nat, t: nat
      ensures !LinkAppears(early, q, s, t)
    {
      AppearsLater(early, h, q, s, t);
    }
  }

  lemma AppearsLater(h: seq<Volume>, h': seq<Volume>, p: Path, s: nat, t: nat)
    requires h <= h'
    ensures LinkAppears(h, p, s, t) ==> LinkAppears(h', p, s, t)
  {
    hide Resolve, IsOther;
  }

  // Where no link appears, none is followed.
  lemma NoneFollowed(h: seq<Volume>, early: seq<Volume>, lo: nat, w: Walk, a: Tar)
    requires NoLinkAppears(h) && early <= h
    ensures !Strayed(early, lo, w) && !StrayedTar(early, lo, a)
  {
    hide LinkMet;
    forall p
      ensures !LinkMet(early, lo, p)
    {
      NoneMet(h, early, lo, p);
    }
  }

  lemma WalkedExtends(h: seq<Volume>, h': seq<Volume>, lo: nat, w: Walk)
    requires Walked(h, lo, w) && h <= h'
    ensures Walked(h', lo, w) && forall p :: p in w.at ==> w.at[p] < |h|
  {
    hide Walking;
    HistoryExtends(h, h', lo, w);
    RecordedBefore(h, lo, w);
  }

  lemma CollectIsSnapshot(h: seq<Volume>, c: Course, instant: nat)
    requires Calm(h) && InTurn(c, h) && instant == |c.middle| - 1 && c.w.result == c.w2.result
    requires Walked(c.early, c.lo, c.w) && Archived(c.late, instant, c.a) && Walked(c.last, |c.late| - 1, c.w2)
    ensures SnapshotOf(Members(c.a), h[instant]) && HasRoots(Members(c.a))
  {
    hide SnapshotOf, HasRoots, Walked, Archived, Calm;
    WalkedExtends(c.early, h, c.lo, c.w);
    WalkedExtends(c.last, h, |c.late| - 1, c.w2);
    assert h[..|c.late|] == c.late;
    var hi, lo2 := |c.early| - 1, |c.late| - 1;
    ArchiveIsSnapshot(h, c.lo, c.w, hi, lo2, c.w2, instant, |c.late|, c.a, instant);
    RootsArchived(h, c.lo, c.w, hi, lo2, c.w2, instant, |c.late|, c.a);
  }

  // What the program accepts is consistent when the history is calm, at the instant at which
  // the database copy finished.
  lemma CollectedIsConsistent(b: Bundle, h: seq<Volume>, instant: nat)
    requires Calm(h) && Collected(b, h, instant)
    ensures Consistent(b, h, instant)
  {
    hide CollectedBy, Calm, Consistent;
    var c :| CollectedBy(b, h, instant, c);
    CollectedByIsConsistent(b, h, instant, c);
  }

  lemma CollectedByIsConsistent(b: Bundle, h: seq<Volume>, instant: nat, c: Course)
    requires Calm(h) && CollectedBy(b, h, instant, c)
    ensures Consistent(b, h, instant)
  {
    hide Walking, Archiving, Strayed, StrayedTar, SnapshotOf, HasRoots, Members, Coherent, Table;
    hide Advancing, NoReturn, NoLinkAppears, LinkCounts;
    NoneFollowed(h, c.early, c.lo, c.w, c.a);
    NoneFollowed(h, c.last, |c.late| - 1, c.w2, c.a);
    NoneFollowed(h, c.late, instant, c.w, c.a);
    CollectIsSnapshot(h, c, instant);
    assert h[|c.read| - 1] == c.read[|c.read| - 1] && h[instant] == c.middle[instant];
    assert h[|c.closing| - 1] == c.closing[|c.closing| - 1];
  }
}
