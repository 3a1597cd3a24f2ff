/**
  A capture that cannot be restored: one file with two names.
 */
module StashSharedFile {
  import opened Wrappers
  import opened Paths
  import opened StashSnapshot
  import opened StashRestore
  import Published = StashPublish

  const BLOBS := In(Top, "blobs")
  const FIRST := In(BLOBS, "a")
  const SECOND := In(BLOBS, "b")

  // Inode 0 leads to the roots 1 to 4; the root 1 holds two names of the file 5.
  function Node(i: Ino): Inode {
    match i
    case 0 => Dir(map["blobs" := 1, "metadata" := 2, "plugins" := 3, "scrapers" := 4], 0, 0)
    case 1 => Dir(map["a" := 5, "b" := 5], 0, 0)
    case 5 => File([7], 0, 0, 2)
    case _ => Dir(map[], 0, 0)
  }

  function Shared(): Volume {
    Volume(map i: Ino | i < 6 :: Node(i), [1], [2])
  }

  function State(): seq<Entry> {
    [Entry(BLOBS, Folder), Entry(FIRST, Blob([7])), Entry(SECOND, Hard(FIRST)),
     Entry(In(Top, "metadata"), Folder), Entry(In(Top, "plugins"), Folder), Entry(In(Top, "scrapers"), Folder)]
  }

  function Members(): map<Path, Member> {
    map[BLOBS := Folder, FIRST := Blob([7]), SECOND := Hard(FIRST),
        In(Top, "metadata") := Folder, In(Top, "plugins") := Folder, In(Top, "scrapers") := Folder]
  }

  function Captured(): Bundle {
    Bundle([1], [2], State())
  }

  lemma TableOfState()
    ensures Table(State()) == Members()
  {
    hide Table;
    var s := State();
    TableOf2(s[0], s[1]);
    TableOf2More([s[0], s[1]], s[2], s[3]);
    TableOf2More([s[0], s[1], s[2], s[3]], s[4], s[5]);
    assert [s[0], s[1]] + [s[2], s[3]] == [s[0], s[1], s[2], s[3]];
    assert [s[0], s[1], s[2], s[3]] + [s[4], s[5]] == s;
  }

  lemma TableOf2(a: Entry, b: Entry)
    ensures Table([a, b]) == map[a.path := a.member][b.path := b.member]
  {
    hide Table;
    TableOf2More([], a, b);
    assert [] + [a, b] == [a, b];
    NoTable();
  }

  lemma TableOf2More(entries: seq<Entry>, a: Entry, b: Entry)
    ensures Table(entries + [a, b]) == Table(entries)[a.path := a.member][b.path := b.member]
  {
    hide Table;
    TableAppend(entries, a);
    TableAppend(entries + [a], b);
    assert entries + [a] + [b] == entries + [a, b];
  }

  lemma NoTable()
    ensures Table([]) == map[]
  {
  }

  lemma StateIsCoherent()
    ensures Coherent(State())
  {
    hide Table;
    TableOfState();
  }

  // Where every path of the volume leads.
  lemma {:induction false} Lookup(p: Path)
    ensures Resolve(Shared(), p) ==
            if p == Top then Some(0) else if p == BLOBS then Some(1)
            else if p == In(Top, "metadata") then Some(2) else if p == In(Top, "plugins") then Some(3)
            else if p == In(Top, "scrapers") then Some(4)
            else if p == FIRST || p == SECOND then Some(5) else None
  {
    if p.In? {
      Lookup(p.parent);
    }
  }

  lemma MembersAreSnapshot()
    ensures SnapshotOf(Members(), Shared())
  {
    hide Resolve, Stored, LabelOf;
    forall p: Path
      ensures p in Members() <==> p.In? && LabelOf(p) in LABELS && Resolve(Shared(), p).Some?
      ensures p in Members() ==> Stored(Members(), Shared(), p)
      ensures p in Members() && Members()[p].Blob? ==> p == FIRST
    {
      Lookup(p);
      if p in Members() {
        MemberIsStored(p);
        MemberLabel(p);
      }
    }
  }

  lemma MemberIsStored(p: Path)
    requires p in Members()
    ensures Resolve(Shared(), p).Some? && Stored(Members(), Shared(), p)
  {
    hide Resolve;
    Lookup(p);
    Lookup(FIRST);
  }

  lemma MemberLabel(p: Path)
    requires p in Members()
    ensures p.In? && LabelOf(p) in LABELS
  {
    RootLabels();
    assert LabelOf(FIRST) == LabelOf(SECOND) == LabelOf(BLOBS) == "blobs";
  }

  lemma RootLabels()
    ensures forall l :: l in LABELS <==> l == "blobs" || l == "metadata" || l == "plugins" || l == "scrapers"
  {
    assert LABELS[0] == "blobs" && LABELS[1] == "metadata" && LABELS[2] == "plugins" && LABELS[3] == "scrapers";
  }

  lemma CaptureIsConsistent()
    ensures Consistent(Captured(), [Shared()], 0)
  {
    hide SnapshotOf, Table, Resolve, Coherent;
    TableOfState();
    StateIsCoherent();
    MembersAreSnapshot();
    RootLabels();
    assert [Shared()][0] == Shared();
  }

  // ---------------------------------------------------------------------
  // It is what a collect of that volume accepts.
  // ---------------------------------------------------------------------

  const METADATA := In(Top, "metadata")
  const PLUGINS := In(Top, "plugins")
  const SCRAPERS := In(Top, "scrapers")

  function History(): seq<Volume> {
    [Shared()]
  }

  function Seen(): Inventory {
    map[BLOBS := StatOf(1, Node(1)), FIRST := StatOf(5, Node(5)), SECOND := StatOf(5, Node(5)),
        METADATA := StatOf(2, Node(2)), PLUGINS := StatOf(3, Node(3)), SCRAPERS := StatOf(4, Node(4))]
  }

  function WalkOf(): Walk {
    Walk(Seen(),
         map[BLOBS := 0, FIRST := 0, SECOND := 0, METADATA := 0, PLUGINS := 0, SCRAPERS := 0],
         map[BLOBS := 0, METADATA := 0, PLUGINS := 0, SCRAPERS := 0], {}, {}, map[])
  }

  function TarOf(): Tar {
    var folder := (i: Ino) => Row(Folder, i, 0, 0);
    Tar(map[BLOBS := folder(1), FIRST := Row(Blob([7]), 5, 0, 0), SECOND := Row(Hard(FIRST), 5, 0, 0),
            METADATA := folder(2), PLUGINS := folder(3), SCRAPERS := folder(4)],
        {}, map[BLOBS := 0, METADATA := 0, PLUGINS := 0, SCRAPERS := 0], map[5 := FIRST])
  }

  lemma PathSeen(p: Path)
    requires p in Members()
    ensures p in Seen() && p in WalkOf().at && WalkOf().at[p] == 0 && Observed(Shared(), p, Seen()[p])
    ensures Rooted(History(), WalkOf().listed, p)
  {
    hide Resolve;
    Lookup(p);
    Lookup(p.parent);
    RootLabels();
  }

  lemma NamesListed(p: Path, n: string)
    requires p in WalkOf().listed
    ensures p in Seen() && WalkOf().listed[p] == 0 && IsDirectory(Shared(), p)
    ensures Lists(Shared(), p, n) ==> In(p, n) in Members() && !IsDirectory(Shared(), In(p, n))
  {
    hide Resolve;
    Lookup(p);
    Lookup(In(p, n));
  }

  lemma WalkKeys()
    ensures var w := WalkOf();
            && w.result == Seen() && w.at.Keys == Seen().Keys == Members().Keys && w.queue == {} && w.todo == {}
                 && w.skipped == map[]
    ensures forall p :: p in WalkOf().at ==> p.In? && WalkOf().at[p] == 0
    ensures forall l :: l in LABELS ==> In(Top, l) in WalkOf().listed
  {
    RootLabels();
  }

  lemma WalkIsWalked()
    ensures Walked(History(), 0, WalkOf())
  {
    hide Recorded, AllRooted, ListedAt, AllFollowed;
    WalkKeys();
    WalkIsRecorded();
    WalkIsListed();
  }

  lemma WalkIsRecorded()
    ensures Recorded(History(), 0, WalkOf()) && AllRooted(History(), WalkOf())
  {
    hide Observed, Rooted, Shared, Seen, WalkOf, Members;
    WalkKeys();
    var h, w := History(), WalkOf();
    forall p | p in w.at
      ensures Observed(h[w.at[p]], p, w.result[p]) && Rooted(h, w.listed, p)
    {
      PathSeen(p);
    }
    assert w.at.Keys + w.todo + w.queue == w.at.Keys;
  }

  lemma WalkIsListed()
    ensures ListedAt(History(), 0, WalkOf()) && AllFollowed(History(), WalkOf())
  {
    hide IsDirectory, Lists, Shared, Seen, WalkOf, Members;
    WalkKeys();
    var h, w := History(), WalkOf();
    forall p | p in w.listed
      ensures p in w.at && w.listed[p] == 0 && IsDirectory(h[0], p)
    {
      NamesListed(p, "");
    }
    forall p, n | p in w.listed && Lists(h[w.listed[p]], p, n)
      ensures In(p, n) in w.todo || Followed(h, w, p, n)
    {
      NamesListed(p, n);
    }
  }

  lemma RowIsSeen(p: Path)
    requires p in TarOf().rows
    ensures RowSeen(History(), 0, p, TarOf().rows[p]) && p in Members() && TarOf().rows[p].member == Members()[p]
  {
    hide Resolve;
    Lookup(p);
    if p == FIRST {
      assert ReadAt(History(), 0, 5, 0, 7, 0);
    }
  }

  lemma TarKeys()
    ensures TarOf().rows.Keys == Members().Keys && TarOf().queue == {}
    ensures TarOf().listed == WalkOf().listed && TarOf().inodes == map[5 := FIRST]
    ensures forall p :: p in TarOf().rows && TarOf().rows[p].member.Blob? ==> p == FIRST
    ensures forall p :: p in TarOf().rows && TarOf().rows[p].member.Folder? ==> p in TarOf().listed
    ensures FIRST in TarOf().rows && TarOf().rows[FIRST] == Row(Blob([7]), 5, 0, 0)
    ensures forall p :: p in TarOf().rows && TarOf().rows[p].member.Hard? ==> LinkRow(TarOf().rows, p)
  {
  }

  lemma TarIsArchived()
    ensures Archived(History(), 0, TarOf())
  {
    hide TarSeen, TarIndexed, TarRooted, TarListed;
    TarKeys();
    TarIsSeen();
    TarIsIndexed();
    TarIsRooted();
    TarIsListed();
  }

  lemma TarIsSeen()
    ensures TarSeen(History(), 0, TarOf())
  {
    hide RowSeen, TarOf;
    forall p | p in TarOf().rows
      ensures RowSeen(History(), 0, p, TarOf().rows[p])
    {
      RowIsSeen(p);
    }
  }

  lemma TarIsIndexed()
    ensures TarIndexed(History(), TarOf())
  {
    hide Alone, LinkRow, TarOf;
    TarKeys();
  }

  lemma TarIsRooted()
    ensures TarRooted(History(), TarOf())
  {
    hide Rooted, TarOf, WalkOf, Members;
    TarKeys();
    WalkKeys();
    var a := TarOf();
    forall p | p in a.rows
      ensures Rooted(History(), a.listed, p)
    {
      PathSeen(p);
    }
    assert a.rows.Keys + a.queue == a.rows.Keys;
    forall l | l in LABELS
      ensures In(Top, l) in a.rows
    {
      NamesListed(In(Top, l), "");
    }
  }

  lemma TarIsListed()
    ensures TarListed(History(), 0, TarOf())
  {
    hide IsDirectory, Lists, TarOf, WalkOf, Members, Shared, Seen;
    TarKeys();
    WalkKeys();
    var h, a := History(), TarOf();
    forall p | p in a.listed
      ensures a.listed[p] == 0 && IsDirectory(h[0], p) && p in a.rows
    {
      NamesListed(p, "");
    }
    forall p, n | p in a.listed && Lists(h[a.listed[p]], p, n)
      ensures In(p, n) in a.rows
    {
      NamesListed(p, n);
    }
  }

  lemma CaptureIsCollected()
    ensures Collected(Captured(), [Shared()], 0)
  {
    hide Walking, Archived, Table, Coherent, Shared, Strayed, StrayedTar;
    WalkIsWalked();
    TarIsArchived();
    TableOfState();
    StateIsCoherent();
    var h := History();
    forall p | p in TarOf().rows
      ensures p in Members() && TarOf().rows[p].member == Members()[p]
    {
      RowIsSeen(p);
    }
    assert StashSnapshot.Members(TarOf()) == Members();
    SharedHolds();
    var c := Course(0, WalkOf(), h, h, h, TarOf(), h, WalkOf(), h, h, Seen());
    CollectedSo(Captured(), h, 0, c);
  }

  lemma SharedHolds()
    ensures Shared().database == [1] && Shared().config == [2]
  {
  }

  /**
    A consistent capture, published as it should be, that no recovery host accepts.
   */
  lemma SharedFileIsNotRestored(completedAt: int, host: Host, r: Recovery)
    ensures Consistent(Captured(), [Shared()], 0) && SharedFile(Shared(), FIRST, SECOND)
    ensures var f := Published.Generation(Captured(), completedAt);
            Published.Genuine(f, [Shared()]) && Published.Accepted(f) && !Restorable(Some(f), true, host, r)
  {
    hide Resolve, Consistent, Collected, Published.Generation;
    CaptureIsConsistent();
    CaptureIsCollected();
    Published.GenerationIsGenuine([Shared()], Captured(), completedAt, 0);
    Published.GenerationAccepted(Captured(), completedAt);
    Lookup(FIRST);
    Lookup(SECOND);
    RootLabels();
    assert !Safe(State()[2]);
  }
}
