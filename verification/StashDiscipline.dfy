/**
  Why the double collect needs a disciplined application.  A directory is listed before it
  gets its own stat, and its ancestors got theirs earlier still.  A file created between a
  first listing and the stat is seen by the second inventory alone; two ways of hiding it
  there leave two equal inventories around an archive of no instant.

  In the first, a directory with something in it is renamed: an ancestor is exchanged for
  another one just while the second inventory lists the directory, and back before its stat.
  In the second, nothing is renamed: the directory is removed and a link put in its place
  after its stat, just before the second inventory would walk it.
 */
module StashDiscipline {
  import opened Wrappers
  import opened Paths
  import opened StashSnapshot

  // Every changed inode, and every inode under a new name, advances its ctime: all that a
  // writer is held to besides keeping the roots.  Any directory may be renamed, and links may
  // be made.
  ghost predicate TouchingStep(s: Volume, t: Volume) {
    && TOP in s.nodes && TOP in t.nodes && s.nodes[TOP] == t.nodes[TOP]
    && s.nodes.Keys <= t.nodes.Keys
    && (forall i :: i in s.nodes ==> s.nodes[i] == t.nodes[i] || s.nodes[i].ctime < t.nodes[i].ctime)
    && (forall d, n :: Names(t, d, n) && !SameEntry(s, t, d, n) ==>
          Target(t, d, n) in s.nodes ==> s.nodes[Target(t, d, n)] != t.nodes[Target(t, d, n)])
  }

  // Inodes: the roots 1 to 4, a directory 5 with a directory 6 in it, and a file 9.  Outside
  // the roots, 7 and 8 bear the same names again, or 7 is a link.
  function DirOf(entries: map<string, Ino>, ctime: int): Inode {
    Dir(entries, ctime, 0)
  }

  // How often the two outer directories had been exchanged.
  function Swaps(l: bool, k: nat): nat {
    if l || k < 3 then 0 else k - 2
  }

  function Swapped(l: bool, k: nat): Ino {
    if !l && k == 3 then 7 else 5
  }

  // The file appears in 6 at instant 1 and changes at instant 2.  With a link (`l`), 6 is
  // removed at instant 3 and 7 takes its place; otherwise 5 and 7 are exchanged at instant 3
  // and back at instant 4.
  function Node(l: bool, i: Ino, k: nat): Inode {
    match i
    case 0 => DirOf(map["blobs" := 1, "metadata" := 2, "plugins" := 3, "scrapers" := 4], 0)
    case 1 => DirOf(map["a" := Swapped(l, k)], Swaps(l, k))
    case 5 => if l && k >= 3 then DirOf(map["d" := 7], 1) else DirOf(map["d" := 6], Swaps(l, k))
    case 6 => if k == 0 then DirOf(map[], 0) else if l && k >= 3 then DirOf(map[], 2) else DirOf(map["f" := 9], 1)
    case 7 => if l then Other(if k < 3 then 0 else 1, 0) else DirOf(map["d" := 8], Swaps(l, k))
    case 9 => if k < 2 then File([0, 0], k, 0, 1) else File([1, 1], if l && k >= 3 then 3 else 2, 0, 1)
    case _ => DirOf(map[], 0)
  }

  function Moment(l: bool, k: nat): Volume {
    Volume(map i: Ino | i < 10 :: Node(l, i, k), [], [])
  }

  const ROOT := In(Top, "blobs")
  const OUTER := In(ROOT, "a")
  const INNER := In(OUTER, "d")
  const FILE := In(INNER, "f")

  lemma Lookups(l: bool, k: nat)
    ensures Resolve(Moment(l, k), ROOT) == Some(1)
    ensures Resolve(Moment(l, k), OUTER) == Some(Swapped(l, k))
    ensures Resolve(Moment(l, k), INNER) == Some(if l && k >= 3 then 7 else if !l && k == 3 then 8 else 6)
    ensures Resolve(Moment(l, k), FILE) == if k == 0 || k == 3 || (l && k > 3) then None else Some(9)
    ensures Resolve(Moment(l, k), In(Top, "metadata")) == Some(2)
    ensures Resolve(Moment(l, k), In(Top, "plugins")) == Some(3)
    ensures Resolve(Moment(l, k), In(Top, "scrapers")) == Some(4)
  {
    assert Resolve(Moment(l, k), Top) == Some(0);
  }

  function History(l: bool): seq<Volume> {
    [Moment(l, 0), Moment(l, 1), Moment(l, 2), Moment(l, 3), Moment(l, 4)]
  }

  lemma NodeTouched(l: bool, i: Ino, k: nat)
    requires i < 10 && k < 4
    ensures Node(l, i, k) == Node(l, i, k + 1) || Node(l, i, k).ctime < Node(l, i, k + 1).ctime
  {
  }

  lemma Touching(l: bool, k: nat)
    requires k < 4
    ensures TouchingStep(Moment(l, k), Moment(l, k + 1))
  {
    var s, t := Moment(l, k), Moment(l, k + 1);
    forall d, n | Names(t, d, n) && !SameEntry(s, t, d, n)
      ensures s.nodes[Target(t, d, n)] != t.nodes[Target(t, d, n)]
    {
      assert Node(l, d, k) != Node(l, d, k + 1);
    }
    TouchedNodes(l, k);
  }

  lemma TouchedNodes(l: bool, k: nat)
    requires k < 4
    ensures var s, t := Moment(l, k), Moment(l, k + 1);
            forall i :: i in s.nodes ==> s.nodes[i] == t.nodes[i] || s.nodes[i].ctime < t.nodes[i].ctime
  {
    hide Node;
    forall i: Ino | i < 10
      ensures Node(l, i, k) == Node(l, i, k + 1) || Node(l, i, k).ctime < Node(l, i, k + 1).ctime
    {
      NodeTouched(l, i, k);
    }
  }

  // The roots with nothing in them.
  const METADATA := In(Top, "metadata")
  const PLUGINS := In(Top, "plugins")
  const SCRAPERS := In(Top, "scrapers")

  function FoundTwice(l: bool): Inventory {
    map[ROOT := StatOf(1, Node(l, 1, 0)), OUTER := StatOf(5, Node(l, 5, 0)), INNER := StatOf(6, Node(l, 6, 1)),
        METADATA := StatOf(2, Node(l, 2, 0)), PLUGINS := StatOf(3, Node(l, 3, 0)), SCRAPERS := StatOf(4, Node(l, 4, 0))]
  }

  // The reads of the two inventories, on a volume with this course.  The first tests and lists
  // all directories at instant 0, when the inner one is empty, takes all stats but one then,
  // and the inner directory's own stat, which replaces the one it got as a name, at instant 1.
  // The second takes its stats at instant 2, those of all names included.  It then tests and
  // lists the inner directory at instant 3 and takes its own stat at instant 4; or the test at
  // instant 3 finds a link, and the directory is passed over with the stat it got as a name.
  function WalkOf(l: bool, second: bool): Walk {
    var t := Start(second);
    var listed: map<Path, nat> := map[ROOT := t, OUTER := t, METADATA := t, PLUGINS := t, SCRAPERS := t];
    Walk(FoundTwice(l),
         map[ROOT := t, OUTER := t, INNER := InnerStat(l, second), METADATA := t, PLUGINS := t, SCRAPERS := t],
         if l && second then listed else listed[INNER := InnerListing(second)],
         {}, {},
         if l && second then map[INNER := 3] else map[])
  }

  function InnerStat(l: bool, second: bool): nat {
    if !second then 1 else if l then 2 else 4
  }

  function InnerListing(second: bool): nat {
    if second then 3 else 0
  }

  function Start(second: bool): nat {
    if second then 2 else 0
  }

  lemma WalkIsWalked(l: bool, second: bool)
    ensures Walked(History(l), Start(second), WalkOf(l, second))
  {
    hide Recorded, AllRooted, ListedAt, AllFollowed, AllSkipped;
    StatsRecorded(l, second);
    NamesRooted(l, second);
    DirectoriesListed(l, second);
    NamesFollowed(l, second);
    LinksSkipped(l, second);
  }

  // What the walks saw: the inner directory when its stat was taken, the others before.
  lemma Seen(l: bool, k: nat)
    requires k != 3
    ensures k == 0 || k == 2 ==>
              Observed(Moment(l, k), ROOT, StatOf(1, Node(l, 1, 0)))
                && Observed(Moment(l, k), OUTER, StatOf(5, Node(l, 5, 0)))
    ensures k == 1 || k == 2 || (!l && k == 4) ==> Observed(Moment(l, k), INNER, StatOf(6, Node(l, 6, 1)))
    ensures Observed(Moment(l, k), METADATA, StatOf(2, Node(l, 2, 0)))
    ensures Observed(Moment(l, k), PLUGINS, StatOf(3, Node(l, 3, 0)))
    ensures Observed(Moment(l, k), SCRAPERS, StatOf(4, Node(l, 4, 0)))
  {
    hide Resolve;
    Lookups(l, k);
  }

  lemma StatsRecorded(l: bool, second: bool)
    ensures Recorded(History(l), Start(second), WalkOf(l, second))
  {
    hide Observed, StatOf, Moment, Node, History;
    forall p | p in WalkOf(l, second).result
      ensures StatRecorded(l, second, p)
    {
      PathRecorded(l, second, p);
    }
  }

  ghost predicate StatRecorded(l: bool, second: bool, p: Path) {
    var w := WalkOf(l, second);
    p in w.result && p in w.at && Start(second) <= w.at[p] < |History(l)|
      && Observed(History(l)[w.at[p]], p, w.result[p])
  }

  lemma PathRecorded(l: bool, second: bool, p: Path)
    requires p in FoundTwice(l)
    ensures StatRecorded(l, second, p)
  {
    hide Observed, StatOf, Moment, Node;
    Seen(l, Start(second));
    Seen(l, InnerStat(l, second));
  }

  // What was listed: nothing in the inner directory.
  lemma Listings(l: bool, k: nat, p: Path, n: string)
    requires p in {ROOT, OUTER, INNER, METADATA, PLUGINS, SCRAPERS} && !(l && p == INNER && k >= 3)
    ensures IsDirectory(Moment(l, k), p)
    ensures Lists(Moment(l, k), p, n) <==>
            (p == ROOT && n == "a") || (p == OUTER && n == "d") || (p == INNER && n == "f" && k != 0 && k != 3)
  {
    hide Resolve;
    Lookups(l, k);
  }

  lemma NamesRooted(l: bool, second: bool)
    ensures AllRooted(History(l), WalkOf(l, second))
  {
    hide Rooted, FoundTwice, History;
    var h, w := History(l), WalkOf(l, second);
    forall p | p in w.at
      ensures Rooted(h, w.listed, p)
    {
      PathRooted(l, second, p);
    }
    assert w.at.Keys + w.todo + w.queue == w.at.Keys;
  }

  lemma PathRooted(l: bool, second: bool, p: Path)
    requires p in WalkOf(l, second).at
    ensures Rooted(History(l), WalkOf(l, second).listed, p)
  {
    hide Lists, Moment, Node, FoundTwice;
    if p == OUTER {
      Listings(l, Start(second), ROOT, "a");
    } else if p == INNER {
      Listings(l, Start(second), OUTER, "d");
    }
  }

  lemma DirectoriesListed(l: bool, second: bool)
    ensures ListedAt(History(l), Start(second), WalkOf(l, second))
  {
    hide IsDirectory, Moment, FoundTwice, History;
    var h, w := History(l), WalkOf(l, second);
    forall p | p in w.listed
      ensures p in w.at && p.In? && Start(second) <= w.listed[p] <= w.at[p] < |h| && IsDirectory(h[w.listed[p]], p)
    {
      PathListed(l, second, p);
    }
    assert LABELS[0] == ROOT.name && LABELS[1] == METADATA.name && LABELS[2] == PLUGINS.name
      && LABELS[3] == SCRAPERS.name;
  }

  lemma PathListed(l: bool, second: bool, p: Path)
    requires p in WalkOf(l, second).listed
    ensures var w := WalkOf(l, second);
            && p in w.at && p.In? && Start(second) <= w.listed[p] <= w.at[p] < |History(l)|
            && IsDirectory(History(l)[w.listed[p]], p)
  {
    hide IsDirectory, Moment, Node, FoundTwice;
    Listings(l, WalkOf(l, second).listed[p], p, "");
  }

  lemma NamesFollowed(l: bool, second: bool)
    ensures AllFollowed(History(l), WalkOf(l, second))
  {
    hide Lists, IsDirectory, Moment, Node, FoundTwice;
    var h, w := History(l), WalkOf(l, second);
    forall p, n | p in w.listed && Lists(h[w.listed[p]], p, n)
      ensures In(p, n) in w.todo || Followed(h, w, p, n)
    {
      Listings(l, w.listed[p], p, n);
    }
  }

  lemma LinksSkipped(l: bool, second: bool)
    ensures AllSkipped(History(l), WalkOf(l, second))
  {
    hide Resolve, FoundTwice;
    Lookups(l, 3);
  }

  ghost predicate TouchingHistory(h: seq<Volume>) {
    h != [] && TOP in h[0].nodes && forall i :: 0 < i < |h| ==> TouchingStep(h[i - 1], h[i])
  }

  // Between them the archive looks at every member and lists every directory at instant 1, and
  // reads the file's first byte then and its second at instant 2.
  function Torn(): Tar {
    var folder := (i: Ino) => Row(Member.Folder, i, 1, 1);
    Tar(map[ROOT := folder(1), OUTER := folder(5), INNER := folder(6), FILE := Row(Blob([0, 1]), 9, 1, 1),
            METADATA := folder(2), PLUGINS := folder(3), SCRAPERS := folder(4)],
        {}, map[ROOT := 1, OUTER := 1, INNER := 1, METADATA := 1, PLUGINS := 1, SCRAPERS := 1], map[9 := FILE])
  }

  lemma TornIsArchived(l: bool)
    ensures Archived(History(l)[..3], 1, Torn())
  {
    hide TarSeen, TarIndexed, TarRooted, TarListed;
    TornIsSeen(l);
    TornIsIndexed(History(l)[..3]);
    TornIsRooted(l);
    TornIsListed(l);
  }

  lemma TornIsIndexed(h: seq<Volume>)
    ensures TarIndexed(h, Torn())
  {
    hide Alone, Torn;
    TornFile();
    forall p | p in Torn().rows
      ensures !Torn().rows[p].member.Hard? && (Torn().rows[p].member.Blob? ==> p == FILE)
    {
      TornRow(p);
    }
  }

  lemma TornFile()
    ensures FILE in Torn().rows && Torn().rows[FILE] == Row(Blob([0, 1]), 9, 1, 1) && Torn().inodes == map[9 := FILE]
  {
  }

  lemma TornRow(p: Path)
    requires p in Torn().rows
    ensures !Torn().rows[p].member.Hard? && (Torn().rows[p].member.Blob? ==> p == FILE)
  {
  }

  lemma TornFileIsSeen(l: bool, h: seq<Volume>)
    requires h == History(l)[..3]
    ensures BlobSeen(h, 1, FILE, [0, 1], 1, 1)
  {
    hide Resolve;
    Lookups(l, 1);
    assert h[1] == Moment(l, 1) && h[2] == Moment(l, 2);
    assert ReadAt(h, 1, 9, 0, 0, 1);
    assert ReadAt(h, 1, 9, 1, 1, 2);
  }

  lemma TornIsSeen(l: bool)
    ensures TarSeen(History(l)[..3], 1, Torn())
  {
    hide RowSeen;
    forall p | p in Torn().rows
      ensures RowSeen(History(l)[..3], 1, p, Torn().rows[p])
    {
      TornRowIsSeen(l, p);
    }
  }

  lemma TornRowIsSeen(l: bool, p: Path)
    requires p in Torn().rows
    ensures RowSeen(History(l)[..3], 1, p, Torn().rows[p])
  {
    hide Resolve, BlobSeen, Moment, Node, IsDirectory;
    var h := History(l)[..3];
    assert h[1] == Moment(l, 1);
    Lookups(l, 1);
    if p == FILE {
      TornFileIsSeen(l, h);
    } else {
      Listings(l, 1, p, "");
      FolderIsSeen(h, p, Torn().rows[p].ino);
    }
  }

  lemma FolderIsSeen(h: seq<Volume>, p: Path, i: Ino)
    requires |h| == 3 && Resolve(h[1], p) == Some(i) && IsDirectory(h[1], p)
    ensures RowSeen(h, 1, p, Row(Member.Folder, i, 1, 1))
  {
    hide Resolve;
  }

  lemma TornIsRooted(l: bool)
    ensures TarRooted(History(l)[..3], Torn())
  {
    hide Lists, StatOf, Moment, Node, Rooted;
    var h, a := History(l)[..3], Torn();
    forall p | p in a.rows
      ensures Rooted(h, a.listed, p)
    {
      RowIsRooted(l, h, a.listed, p);
    }
    assert a.rows.Keys + a.queue == a.rows.Keys;
  }

  lemma RowIsRooted(l: bool, h: seq<Volume>, listed: map<Path, nat>, p: Path)
    requires h == History(l)[..3] && listed == Torn().listed && p in Torn().rows
    ensures Rooted(h, listed, p)
  {
    hide Lists, StatOf, Moment, Node;
    assert h[1] == Moment(l, 1);
    if p == OUTER {
      Listings(l, 1, ROOT, "a");
    } else if p == INNER {
      Listings(l, 1, OUTER, "d");
    } else if p == FILE {
      Listings(l, 1, INNER, "f");
    }
  }

  lemma TornIsListed(l: bool)
    ensures TarListed(History(l)[..3], 1, Torn())
  {
    hide Lists, IsDirectory, Moment, Node;
    var h, a := History(l)[..3], Torn();
    forall p | p in {ROOT, OUTER, INNER, METADATA, PLUGINS, SCRAPERS}
      ensures IsDirectory(Moment(l, 1), p)
    {
      Listings(l, 1, p, "");
    }
    forall p, n | p in a.listed && Lists(h[a.listed[p]], p, n)
      ensures In(p, n) in a.rows || In(p, n) in a.queue
    {
      Listings(l, 1, p, n);
    }
  }

  lemma TornIsNoSnapshot(l: bool, k: nat)
    ensures !SnapshotOf(Members(Torn()), Moment(l, k))
  {
    hide Resolve, StatOf;
    var members := Members(Torn());
    Lookups(l, k);
    assert FILE in members && members[FILE] == Blob([0, 1]);
    assert Node(l, 9, k).content[0] == Node(l, 9, k).content[1];
  }

  // Where every path leads.
  function Where(l: bool, k: nat, p: Path): Option<Ino> {
    if p == Top then Some(0) else if p == ROOT then Some(1)
    else if p == METADATA then Some(2) else if p == PLUGINS then Some(3) else if p == SCRAPERS then Some(4)
    else if p == OUTER then Some(Swapped(l, k))
    else if p == INNER then Some(if l && k >= 3 then 7 else if !l && k == 3 then 8 else 6)
    else if p == FILE then (if k == 0 || k == 3 || (l && k > 3) then None else Some(9))
    else None
  }

  // The inode under a name of a directory.
  function Child(l: bool, k: nat, i: Ino, n: string): Option<Ino> {
    if i == 0 && n == "blobs" then Some(1) else if i == 0 && n == "metadata" then Some(2)
    else if i == 0 && n == "plugins" then Some(3) else if i == 0 && n == "scrapers" then Some(4)
    else if i == 1 && n == "a" then Some(Swapped(l, k))
    else if i == 5 && n == "d" then Some(if l && k >= 3 then 7 else 6)
    else if i == 7 && !l && n == "d" then Some(8)
    else if i == 6 && n == "f" && k != 0 && !(l && k >= 3) then Some(9)
    else None
  }

  lemma NamesThere(l: bool, k: nat, i: Ino, n: string)
    ensures Names(Moment(l, k), i, n) <==> Child(l, k, i, n).Some?
    ensures Names(Moment(l, k), i, n) ==> Child(l, k, i, n) == Some(Target(Moment(l, k), i, n))
  {
  }

  lemma WhereBelow(l: bool, k: nat, p: Path)
    requires p.In?
    ensures var d := Where(l, k, p.parent);
            Where(l, k, p) == if d.Some? then Child(l, k, d.value, p.name) else None
  {
  }

  lemma {:induction false} Everywhere(l: bool, k: nat, p: Path)
    ensures Resolve(Moment(l, k), p) == Where(l, k, p)
  {
    hide Moment, Where, Child, Names, Target;
    if p.In? {
      Everywhere(l, k, p.parent);
      WhereBelow(l, k, p);
      var d := Where(l, k, p.parent);
      if d.Some? {
        NamesThere(l, k, d.value, p.name);
      }
    } else {
      TopLeadsTo0(l, k);
    }
  }

  lemma TopLeadsTo0(l: bool, k: nat)
    ensures Resolve(Moment(l, k), Top) == Some(0) == Where(l, k, Top)
  {
  }

  lemma OneNameEach(l: bool, k: nat)
    ensures LinkCounts(Moment(l, k))
  {
    hide Resolve;
    forall p, q | Resolve(Moment(l, k), p).Some? && Resolve(Moment(l, k), p) == Resolve(Moment(l, k), q) && p != q
      ensures !At(Moment(l, k), p).File?
    {
      Everywhere(l, k, p);
      Everywhere(l, k, q);
    }
  }

  // Two inventories agree and an archive was read between them, yet it is not the tree of any
  // instant: a file below the roots is in neither inventory, and was read while it changed.
  ghost predicate Defeated(h: seq<Volume>, w: Walk, hi: nat, lo2: nat, w2: Walk, from: nat, a: Tar) {
    && TouchingHistory(h) && hi <= from <= lo2 < |h|
    && Walked(h, 0, w) && Walked(h, lo2, w2) && w.result == w2.result
    && (forall p :: p in w.at ==> w.at[p] <= hi)
    && Archived(h[..lo2 + 1], from, a)
    && forall t :: 0 <= t < |h| ==> !SnapshotOf(Members(a), h[t])
  }

  lemma Defeat(l: bool)
    ensures Defeated(History(l), WalkOf(l, false), 1, 2, WalkOf(l, true), 1, Torn())
  {
    hide Walked, Archived, TouchingStep, SnapshotOf, Moment, Members, Torn, FoundTwice;
    WalkIsWalked(l, false);
    WalkIsWalked(l, true);
    TornIsArchived(l);
    forall k: nat | k < 4
      ensures TouchingStep(Moment(l, k), Moment(l, k + 1))
    {
      Touching(l, k);
    }
    forall k: nat
      ensures !SnapshotOf(Members(Torn()), Moment(l, k)) && TOP in Moment(l, k).nodes
    {
      TornIsNoSnapshot(l, k);
      AlwaysTop(l, k);
    }
    assert forall k :: 0 <= k < 5 ==> History(l)[k] == Moment(l, k);
  }

  lemma AlwaysTop(l: bool, k: nat)
    ensures TOP in Moment(l, k).nodes
  {
  }

  // All that a calm history needs but one clause.
  ghost predicate AllButOne(h: seq<Volume>) {
    Advancing(h) && forall t :: 0 <= t < |h| ==> LinkCounts(h[t])
  }

  lemma TouchingAdvances(l: bool)
    requires TouchingHistory(History(l))
    ensures AllButOne(History(l))
  {
    hide LinkCounts, Moment;
    var h := History(l);
    forall i | 0 < i < |h|
      ensures AdvancingStep(h[i - 1], h[i])
    {
      assert TouchingStep(h[i - 1], h[i]);
    }
    forall t | 0 <= t < |h|
      ensures LinkCounts(h[t])
    {
      assert h[t] == Moment(l, t);
      OneNameEach(l, t);
    }
  }

  lemma NeverALink(k: nat, p: Path)
    ensures !IsOther(Moment(false, k), p)
  {
    hide Resolve;
    Everywhere(false, k, p);
  }

  // Renaming a directory with something in it defeats the collect: a path is led back to an
  // unchanged directory, though no link ever appears.
  lemma RenamesDefeatTheCollect() returns (h: seq<Volume>, w: Walk, hi: nat, lo2: nat, w2: Walk, from: nat, a: Tar)
    ensures Defeated(h, w, hi, lo2, w2, from, a)
    ensures AllButOne(h) && NoLinkAppears(h)
  {
    hide Torn, WalkOf, Moment, IsOther, Walked, Archived, SnapshotOf, TouchingHistory, AllButOne;
    Defeat(false);
    TouchingAdvances(false);
    h, w, hi, lo2, w2, from, a := History(false), WalkOf(false, false), 1, 2, WalkOf(false, true), 1, Torn();
    forall p, s: nat, t: nat
      ensures !LinkAppears(h, p, s, t)
    {
      if t < |h| {
        assert h[t] == Moment(false, t);
        NeverALink(t, p);
      }
    }
  }

  lemma NeverBack(h: seq<Volume>, p: Path, a: nat, c: nat)
    requires h == History(true) && LeadsBack(h, p, a, c)
    ensures StaysPut(h, p, a, c)
  {
    hide Resolve, Where, Moment;
    assert h[a] == Moment(true, a) && h[c] == Moment(true, c);
    Everywhere(true, a, p);
    Everywhere(true, c, p);
    NoDirectories(a);
    forall b | a <= b <= c
      ensures Resolve(h[b], p) == Resolve(h[a], p)
    {
      assert h[b] == Moment(true, b);
      Everywhere(true, b, p);
      WhereStays(p, a, b, c);
    }
  }

  lemma NoDirectories(k: nat)
    ensures 7 in Moment(true, k).nodes && Moment(true, k).nodes[7].Other?
    ensures 9 in Moment(true, k).nodes && Moment(true, k).nodes[9].File?
  {
  }

  lemma WhereStays(p: Path, a: nat, b: nat, c: nat)
    requires a <= b <= c && Where(true, a, p) == Where(true, c, p)
    requires Where(true, a, p).Some? && Where(true, a, p).value != 7 && Where(true, a, p).value != 9
    ensures Where(true, b, p) == Where(true, a, p)
  {
  }

  // A link in the place of a removed directory defeats it, though no path is ever led back.
  lemma LinksDefeatTheCollect() returns (h: seq<Volume>, w: Walk, hi: nat, lo2: nat, w2: Walk, from: nat, a: Tar)
    ensures Defeated(h, w, hi, lo2, w2, from, a)
    ensures AllButOne(h) && NoReturn(h)
  {
    hide Torn, WalkOf, Moment, IsOther, Walked, Archived, SnapshotOf, TouchingHistory, AllButOne, StaysPut, Resolve;
    Defeat(true);
    TouchingAdvances(true);
    h, w, hi, lo2, w2, from, a := History(true), WalkOf(true, false), 1, 2, WalkOf(true, true), 1, Torn();
    forall p, b: nat, c: nat | LeadsBack(h, p, b, c)
      ensures StaysPut(h, p, b, c)
    {
      NeverBack(h, p, b, c);
    }
  }
}
