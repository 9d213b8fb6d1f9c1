/** Whole runs: loading the trees, scrub and backup, saving the metadata files. */
module Sessions {
  import opened Elements
  import opened Catalogs
  import opened Shapes
  import opened Disks
  import opened Trees
  import opened Diffs
  import opened Ranks
  import opened Repairs
  import opened Manager
  import opened Listings
  import opened Lines
  import Metadata
  import Writer
  import Scan
  import Scrub
  import Votes
  import Replay
  import Hashes
  import Backup
  import opened Users

  // ---------- the metadata files ----------

  class MetadataFiles {
    var text1: string
    var text2: string
    var bak1: Option<string>
    var bak2: Option<string>
  }

  /** Symbolic links have the permissions that the file system reports for links. */
  ghost predicate UsualLinks(l: Listing) {
    forall d, e :: d in l && e in l[d] && e.ty.Symlink? ==> e.per == LINK_PERM
  }

  ghost predicate DirsLead(g: seq<Element>) {
    forall i, j :: 0 <= i < j < |g| && g[j].ty.Directory? ==> g[i].ty.Directory?
  }

  /** In every list the directories come first. */
  ghost predicate InOrder(l: Listing) {
    forall d :: d in l ==> DirsLead(l[d])
  }

  ghost predicate ListPrintable(g: seq<Element>) {
    forall e :: e in g ==> Printable(e)
  }

  ghost predicate ListsPrintable(l: Listing) {
    forall d :: d in l ==> ListPrintable(l[d])
  }

  /** Everything that has been read is an element that a line can hold. */
  lemma {:induction false} FeedPrintable(cal: Calendar, lines: seq<string>)
    ensures Metadata.FeedAll(cal, lines).Some? ==>
              ListsPrintable(Metadata.FeedAll(cal, lines).value.lists)
                  && ListPrintable(Metadata.FeedAll(cal, lines).value.cur)
  {
    hide Printable, ReadElement, Metadata.Acceptable;
    if lines != [] {
      FeedPrintable(cal, lines[..|lines| - 1]);
      ReadElementPrintable(cal, lines[|lines| - 1]);
    }
  }

  lemma LoadPrintable(cal: Calendar, text: string)
    ensures Metadata.LoadText(cal, text).Some? ==> ListsPrintable(Metadata.LoadText(cal, text).value)
  {
    hide Printable, Metadata.Acceptable, Metadata.FeedAll;
    FeedPrintable(cal, Metadata.GetLines(text));
  }

  /** A file with the usual links makes a tree with sane links. */
  lemma UsualTree(s: Shape)
    requires Linked(s) && ListsPrintable(ListsOf(s))
    ensures UsualLinks(ListsOf(s)) ==> SaneLinks(s.Contents())
    ensures InOrder(ListsOf(s)) ==> Ordered(s)
  {
    hide Linked, ListsOf, Shape.Contents, Ordered;
    if UsualLinks(ListsOf(s)) {
      forall p | p in s.Contents() && s.Contents()[p].ty.Symlink? ensures Sane(s.Contents()[p]) {
        ElementListed(s, p);
        LinkSane(s.Contents()[p]);
      }
    }
    if InOrder(ListsOf(s)) { InOrderOrdered(s); }
  }

  lemma LinkSane(e: Element)
    requires Printable(e) && e.ty.Symlink? && e.per == LINK_PERM
    ensures Sane(e)
  {
  }

  lemma InOrderOrdered(s: Shape)
    requires Linked(s) && InOrder(ListsOf(s))
    ensures Ordered(s)
  {
    hide ListsOf, Ordered;
    forall b | s.Has(b) ensures DirsFirst(s.Kids(b), s.store) {
      InLists(s, b);
      if b in ListsOf(s) { assert DirsLead(KidElems(s, b)); }
    }
    OrderedByKids(s);
  }

  /** The tree holds what a metadata file says. */
  ghost predicate LoadedFrom(t: DirectoryTree, l: Listing)
    reads t
  {
    && t.Valid() && t.Unindexed() == {} && (UsualLinks(l) ==> SaneLinks(t.Contents()))
    && Linked(t.State()) && ListsOf(t.State()) == l && t.ordered == InOrder(l)
  }

  /** Load one metadata file. */
  method LoadTree(cal: Calendar, text: string) returns (ok: bool, t: DirectoryTree)
    ensures fresh(t) && (ok <==> Metadata.LoadText(cal, text).Some?)
    ensures ok ==> LoadedFrom(t, Metadata.LoadText(cal, text).value)
  {
    hide Linked, ListsOf, Shape.Contents, Ordered, Metadata.LoadText, UsualLinks, InOrder, Shape.Wired, Indexed;
    ghost var order := Metadata.LoadText(cal, text).Some? && InOrder(Metadata.LoadText(cal, text).value);
    t := new DirectoryTree(order);
    ok := Metadata.ReadFrom(t, cal, text);
    if ok {
      LoadPrintable(cal, text);
      UsualTree(t.State());
    }
  }

  /** What a scan finds. */
  ghost function ScanOf(files: Catalog, opt: Scan.ScanOpt): Catalog {
    map p | p in files :: Scan.Stripped(files[p], opt)
  }

  /** The tree holds what a scan finds. */
  ghost predicate ScannedFrom(t: DirectoryTree, disk: Disk, opt: Scan.ScanOpt)
    reads t, disk
  {
    && t.Valid() && t.Unindexed() == {} && t.disk == disk && disk.Valid() && Mirrors(t.Contents(), disk.files)
    && SaneLinks(t.Contents()) && t.Contents() == ScanOf(disk.files, opt) && t.ordered
  }

  method ScanTree(disk: Disk, opt: Scan.ScanOpt) returns (t: DirectoryTree)
    requires disk.Valid()
    ensures fresh(t) && ScannedFrom(t, disk, opt)
  {
    hide DirectoryTree.Valid, DirectoryTree.Contents, Disk.Valid;
    t := new DirectoryTree(true);
    Scan.ScanDirectory(t, disk, opt);
    ScannedLinks(disk, opt);
  }

  lemma ScannedLinks(disk: Disk, opt: Scan.ScanOpt)
    requires disk.Valid()
    ensures SaneLinks(ScanOf(disk.files, opt)) && (NoUnknown(disk.files) ==> NoUnknown(ScanOf(disk.files, opt)))
  {
    hide WellFormed;
    forall p | p in disk.files ensures Sane(disk.files[p]) {}
  }

  /** Load the metadata files and scan the directories. */
  method OpenSession(cal: Calendar, files: MetadataFiles, src: Disk?, dst: Disk, opt: Scan.ScanOpt)
      returns (ok: bool, tm: TreeManager?)
    requires dst.Valid() && (src != null ==> src.Valid()) && src != dst
    ensures ok <==> Metadata.LoadText(cal, files.text1).Some? && Metadata.LoadText(cal, files.text2).Some?
    ensures ok ==> tm != null && fresh(tm) && fresh(tm.src) && fresh(tm.dst) && fresh(tm.meta1) && fresh(tm.meta2)
    ensures ok ==> tm.srcTreePresent == (src != null) && tm.meta2TreePresent && !tm.save && !tm.meta1NeedsBackup
    ensures ok ==> !tm.meta2NeedsBackup
    ensures ok && (src != null ==> NoUnknown(src.files)) ==> tm.Fit()
    ensures ok && UsualLinks(Metadata.LoadText(cal, files.text1).value)
            && UsualLinks(Metadata.LoadText(cal, files.text2).value) ==>
              (src != null ==> NoUnknown(src.files)) ==> tm.Sound()
    ensures ok ==> ScannedFrom(tm.dst, dst, opt) && (src != null ==> ScannedFrom(tm.src, src, opt))
    ensures ok && src == null ==> tm.Source() == map[]
    ensures ok ==> LoadedFrom(tm.meta1, Metadata.LoadText(cal, files.text1).value)
    ensures ok ==> LoadedFrom(tm.meta2, Metadata.LoadText(cal, files.text2).value)
  {
    hide Metadata.LoadText, UsualLinks, LoadedFrom, ScannedFrom, TreeManager.Sound, TreeManager.Fit, Disk.Valid;
    tm := null;
    var meta1, meta2;
    ok, meta1 := LoadTree(cal, files.text1);
    if !ok { return; }
    ok, meta2 := LoadTree(cal, files.text2);
    if !ok { return; }
    var d := ScanTree(dst, opt);
    var s: DirectoryTree;
    if src == null {
      s := new DirectoryTree(true);
    } else {
      s := ScanTree(src, opt);
    }
    tm := new TreeManager(s, d, meta1, meta2, src != null);
    SoundSession(tm, Metadata.LoadText(cal, files.text1).value, Metadata.LoadText(cal, files.text2).value, src, dst,
        opt);
  }

  lemma SoundSession(tm: TreeManager, l1: Listing, l2: Listing, src: Disk?, dst: Disk, opt: Scan.ScanOpt)
    requires tm.src != tm.dst && tm.src != tm.meta1 && tm.src != tm.meta2 && tm.dst != tm.meta1 && tm.dst != tm.meta2
    requires tm.meta1 != tm.meta2
    requires LoadedFrom(tm.meta1, l1) && LoadedFrom(tm.meta2, l2) && ScannedFrom(tm.dst, dst, opt) && src != dst
    requires tm.srcTreePresent == (src != null)
    requires if src == null then tm.src.Valid() && tm.src.Unindexed() == {} && tm.src.Contents() == map[]
             else ScannedFrom(tm.src, src, opt)
    ensures (src != null ==> NoUnknown(src.files)) ==> tm.Fit() && (UsualLinks(l1) && UsualLinks(l2) ==> tm.Sound())
  {
    hide DirectoryTree.Valid, DirectoryTree.Contents, Disk.Valid, Mirrors, SaneLinks, NoUnknown, Linked, ListsOf,
         InOrder, ScanOf, UsualLinks;
    if src == null { NoEntries(); } else { ScannedLinks(src, opt); }
  }

  lemma NoEntries()
    ensures SaneLinks(map[]) && NoUnknown(map[])
  {
  }

  // ---------- the backup with metadata ----------

  /** After a scrub that settled everything, the metadata describe the backup. */
  lemma SettledTracks(t: Trio, s: Catalog, half: set<Path>)
    requires Scrub.OnlyHalf(t, s, half)
    ensures Replay.Alike(t.a, t.b) && (half == {} ==> Replay.Tracks(t.a, t.b))
  {
    forall q ensures (q in t.a <==> q in t.b) && (q in t.a ==> t.a[q].ty == t.b[q].ty)
        && (q !in half ==> SameOpt(Look(t.a, q), Look(t.b, q))) {
      assert t.WeightAt(q) == 0 <==> q !in half;
    }
  }

  lemma SoundReady(tm: TreeManager)
    requires tm.Sound() && tm.srcTreePresent
    ensures Backup.Ready(tm.src, tm.dst, tm.meta1)
  {
  }

  /** Every hash that is missing can be computed from the backup. */
  lemma BackupHashable(t: Catalog, m: Catalog, files: Catalog)
    requires Replay.Alike(t, m) && Mirrors(t, files)
    ensures Hashes.Hashable(m, files, m.Keys)
  {
  }

  /** Filling in hashes from the backup does not upset the agreement. */
  lemma FilledTracks(t: Catalog, m: Catalog, m': Catalog, files: Catalog)
    requires Replay.Alike(t, m) && Mirrors(t, files) && Hashes.Completed(m, m', files, m'.Keys) && WellFormed(m)
    ensures Replay.Alike(t, m') && (Replay.Tracks(t, m) ==> Replay.Tracks(t, m'))
  {
    hide WellFormed;
    forall q ensures (q in t <==> q in m') && (q in t ==> t[q].ty == m'[q].ty)
                     && (Replay.Tracks(t, m) ==> SameOpt(Look(t, q), Look(m', q))) {
      assert (q in t <==> q in m) && (q in t ==> t[q].ty == m[q].ty);
      if q in m { OwnPath(m, q); }
      if Replay.Tracks(t, m) { assert SameOpt(Look(t, q), Look(m, q)); }
    }
  }

  lemma OwnPath(m: Catalog, q: Path)
    requires WellFormed(m) && q in m
    ensures m[q].rp == q
  {
  }

  ghost predicate Unhashed(m: Catalog) {
    forall p :: p in m ==> m[p].hash == ""
  }

  /**
   * The hash of `p` in the metadata at the end: what came from the source has the hash of the backup,
   * a hash that was known is kept, one that was missing has been computed from the backup.
   */
  ghost predicate HashAt(s: Catalog, t0: Catalog, m0: Catalog, done: set<Path>, m: Catalog, files: Catalog, p: Path)
    requires p in m
  {
    m[p].ty.Regular? ==>
      m[p].hash != "" && p in files &&
      if !Replay.Overwritten(s, t0, done, p) && p in m0 && m0[p].hash != "" then m[p].hash == m0[p].hash
      else Unhashed(s) ==> m[p].hash == files[p].hash
  }

  lemma HashOutcome(s: Catalog, t0: Catalog, m0: Catalog, done: set<Path>, m1: Catalog, m: Catalog, t: Catalog,
                    files: Catalog, p: Path)
    requires Replay.Replayed(s, m0, t0, done, m1) && Hashes.Completed(m1, m, files, m.Keys) && WellFormed(m1)
    requires Replay.Alike(t, m1) && Mirrors(t, files) && AllSane(files) && p in m
    ensures HashAt(s, t0, m0, done, m, files, p)
  {
    hide WellFormed, Replay.Overwritten, Replay.Replayed;
    OwnPath(m1, p);
    assert p in t && t[p].ty == m1[p].ty && p in files && Reflects(t[p], files[p]) && Sane(files[p]);
    if Replay.Overwritten(s, t0, done, p) {
      OverwrittenHash(s, t0, m0, done, m1, p);
    } else {
      Replay.ReplayHash(s, m0, t0, done, m1, p);
    }
  }

  lemma OverwrittenHash(s: Catalog, t0: Catalog, m0: Catalog, done: set<Path>, m1: Catalog, p: Path)
    requires Replay.Replayed(s, m0, t0, done, m1) && Replay.Overwritten(s, t0, done, p) && p in m1
    ensures p in s && m1[p] == s[p]
  {
    assert Look(m1, p) == Replay.EntryAfter(s, s, m0, t0, done, p);
  }

  /** Every hash that the metadata have is that of the file in the backup directory. */
  ghost predicate KnownRight(m: Catalog, files: Catalog) {
    forall p :: p in m && m[p].hash != "" ==> p in files && m[p].hash == files[p].hash
  }

  /**
   * A backup keeps the hashes right: what was replaced came with its hash, and nothing else has changed its content.
   */
  lemma HashesStayRight(from: Catalog, s: Catalog, t0: Catalog, m0: Catalog, files0: Catalog, done: set<Path>,
                        m: Catalog, files: Catalog)
    requires Replay.Replayed(s, m0, t0, done, m) && Replay.Delivered(from, s, files0, t0, done, files)
    requires Mirrors(s, from)
    ensures KnownRight(m0, files0) ==> KnownRight(m, files)
  {
    hide Replay.Overwritten, Merge;
    if KnownRight(m0, files0) {
      forall p | p in m && m[p].hash != "" ensures p in files && m[p].hash == files[p].hash {
        RightAt(from, s, t0, m0, files0, done, m, files, p);
      }
    }
  }

  lemma RightAt(from: Catalog, s: Catalog, t0: Catalog, m0: Catalog, files0: Catalog, done: set<Path>, m: Catalog,
                files: Catalog, p: Path)
    requires Replay.Replayed(s, m0, t0, done, m) && Replay.Delivered(from, s, files0, t0, done, files)
    requires Mirrors(s, from)
    requires KnownRight(m0, files0) && p in m && m[p].hash != ""
    ensures p in files && m[p].hash == files[p].hash
  {
    hide Replay.Overwritten;
    assert Look(m, p) == Replay.EntryAfter(s, s, m0, t0, done, p);
    assert Look(files, p) == Replay.EntryAfter(from, s, files0, t0, done, p);
  }

  lemma FilledRight(m: Catalog, m': Catalog, files: Catalog)
    requires Hashes.Completed(m, m', files, m'.Keys) && KnownRight(m, files) && WellFormed(m)
    ensures KnownRight(m', files)
  {
    hide WellFormed;
    forall p | p in m' && m'[p].hash != "" ensures p in files && m'[p].hash == files[p].hash { OwnPath(m, p); }
  }

  /** With all hashes known, agreement is equality. */
  lemma ReplayedHashed(s: Catalog, base: Catalog, ref: Catalog, done: set<Path>, now: Catalog)
    requires Replay.Replayed(s, base, ref, done, now) && AllHashed(s) && AllHashed(base)
    ensures AllHashed(now)
  {
    hide Replay.Overwritten;
    forall q | q in now ensures Hashed(now[q]) {
      assert Look(now, q) == Replay.EntryAfter(s, s, base, ref, done, q);
    }
  }

  lemma HashedTracks(t: Catalog, m: Catalog)
    requires Replay.Tracks(t, m) && AllHashed(t) && AllHashed(m)
    ensures t == m
  {
    forall q ensures Look(t, q) == Look(m, q) { assert SameOpt(Look(t, q), Look(m, q)); }
    assert forall q :: q in t <==> Look(t, q).Some?;
    assert forall q :: q in m <==> Look(m, q).Some?;
  }

  /** The questions of a backup: the lines they are about, the answers, and how many had been asked before. */
  datatype Talk = Talk(asked: seq<Path>, answers: nat -> bool, n: nat)

  /**
   * What a backup has made of the backup `t0` and the metadata `m0`: source and backup differ just in the lines that
   * were skipped, which are those that have rotted and those that the user has declined, and the result tells whether
   * the source has rotted; the metadata describe the backup.
   */
  ghost predicate BackedUp(s: Catalog, t0: Catalog, m0: Catalog, t: Catalog, m: Catalog, done: set<Path>,
                           skip: set<Path>, k: Talk, code: int) {
    && (forall p :: Reported2(s, t, ALL, p) <==> p in skip) && (skip == {} ==> Replay.Tracks(s, t))
    && Backup.Answered(s, t0, done, skip, k.asked, k.answers, k.n, code) && Backup.Plainly(s, t0, done, skip, code)
    && (forall p :: p in skip ==> Look(t, p) == Look(t0, p))
    && Replay.Replayed(s, t0, t0, done, t)
    && Replay.Alike(t, m) && (Replay.Tracks(t0, m0) ==> Replay.Tracks(t, m))
  }

  /** The metadata have followed the backup; without scanning for hashes, the missing ones have been computed then. */
  ghost predicate Followed(s: Catalog, t0: Catalog, m0: Catalog, done: set<Path>, m: Catalog, files: Catalog,
                           hashAll: bool) {
    if hashAll then Replay.Replayed(s, m0, t0, done, m)
    else exists m1 :: Replay.Replayed(s, m0, t0, done, m1) && Hashes.Completed(m1, m, files, m.Keys)
  }

  /** The backup proper, after the scrub. */
  method RunBackup(tm: TreeManager, hashAll: bool, user: User)
      returns (ok: bool, code: int, ghost done: set<Path>, ghost skip: set<Path>, ghost k: Talk)
    requires Backup.Ready(tm.src, tm.dst, tm.meta1) && Replay.Alike(tm.dst.Contents(), tm.meta1.Contents())
    modifies tm.dst, tm.meta1, tm.dst.disk, user
    ensures tm.dst.disk == old(tm.dst.disk) && (old(tm.dst.Unindexed()) == {} ==> ok)
    ensures ok ==> k.answers == user.answers && k.n == old(user.asked) && user.asked == k.n + |k.asked|
    ensures ok ==> Backup.Ready(tm.src, tm.dst, tm.meta1) && tm.src.disk != null && tm.dst.disk != null
    ensures ok ==> Backup.AllBelow(old(tm.dst.Unindexed()), skip)
    ensures ok ==>
              BackedUp(tm.Source(), old(tm.dst.Contents()), old(tm.meta1.Contents()), tm.dst.Contents(),
                  tm.meta1.Contents(), done, skip, k, code)
    ensures ok ==>
              Replay.Delivered(tm.src.disk.files, tm.Source(), old(tm.dst.disk.files), old(tm.dst.Contents()), done,
                  tm.dst.disk.files)
    ensures ok && KnownRight(old(tm.meta1.Contents()), old(tm.dst.disk.files)) ==>
              KnownRight(tm.meta1.Contents(), tm.dst.disk.files)
    ensures ok ==>
              Followed(tm.Source(), old(tm.dst.Contents()), old(tm.meta1.Contents()), done, tm.meta1.Contents(),
                  tm.dst.disk.files, hashAll)
    ensures ok && !hashAll ==> forall p :: p in tm.meta1.Contents() ==>
              HashAt(tm.Source(), old(tm.dst.Contents()), old(tm.meta1.Contents()), done, tm.meta1.Contents(),
                  tm.dst.disk.files, p)
  {
    hide Backup.Ready, Replay.Delivered, Replay.Alike, Replay.Tracks, Reported2, Backup.Answered, Backup.Plainly,
         DirectoryTree.Contents, Replay.Overwritten, HashAt, KnownRight, Backup.AllBelow;
    Backup.Separate(tm.src, tm.dst, tm.meta1);
    ghost var s, t0, m0, files0 := tm.Source(), tm.dst.Contents(), tm.meta1.Contents(), tm.dst.disk.files;
    ghost var asked;
    k := Talk([], user.answers, user.asked);
    ok, code, done, skip, asked := Backup.BackupImpl(tm.src, tm.dst, tm.meta1, user);
    if !ok { return; }
    k := k.(asked := asked);
    ghost var t, m := tm.dst.Contents(), tm.meta1.Contents();
    ReadyDisk(tm.src, tm.dst, tm.meta1);
    HashesStayRight(tm.src.disk.files, s, t0, m0, files0, done, m, tm.dst.disk.files);
    assert BackedUp(s, t0, m0, t, m, done, skip, k, code);
    if !hashAll {
      ok := FillHashes(tm.src, tm.dst, tm.meta1);
      AfterFilling(s, t0, m0, done, skip, k, code, t, m, tm.meta1.Contents(), tm.dst.disk.files);
    }
  }

  /** The missing hashes have been computed. */
  lemma AfterFilling(s: Catalog, t0: Catalog, m0: Catalog, done: set<Path>, skip: set<Path>, k: Talk, code: int,
                     t: Catalog, m: Catalog, m': Catalog, files: Catalog)
    requires BackedUp(s, t0, m0, t, m, done, skip, k, code) && Replay.Replayed(s, m0, t0, done, m)
    requires Hashes.Completed(m, m', files, m'.Keys)
    requires WellFormed(m) && Mirrors(t, files) && AllSane(files)
    ensures BackedUp(s, t0, m0, t, m', done, skip, k, code) && (KnownRight(m, files) ==> KnownRight(m', files))
    ensures forall p :: p in m' ==> HashAt(s, t0, m0, done, m', files, p)
  {
    hide Reported2, Replay.Delivered, Replay.Alike, Replay.Tracks, Backup.Answered, Backup.Plainly, WellFormed,
         Mirrors, AllSane, HashAt, KnownRight, Hashes.Completed;
    FilledTracks(t, m, m', files);
    if KnownRight(m, files) { FilledRight(m, m', files); }
    forall p | p in m' ensures HashAt(s, t0, m0, done, m', files, p) {
      HashOutcome(s, t0, m0, done, m, m', t, files, p);
    }
  }

  lemma ReadyDisk(src: DirectoryTree, dst: DirectoryTree, meta: DirectoryTree)
    requires Backup.Ready(src, dst, meta)
    ensures dst.disk != null && dst.disk.Valid() && Mirrors(dst.Contents(), dst.disk.files) && AllSane(dst.disk.files)
    ensures src.disk != null && Mirrors(src.Contents(), src.disk.files) && WellFormed(meta.Contents())
  {
    meta.Facts();
  }

  /** Compute the missing hashes of the metadata from the backup directory. */
  method FillHashes(src: DirectoryTree, dst: DirectoryTree, meta: DirectoryTree) returns (ok: bool)
    requires Backup.Ready(src, dst, meta) && Replay.Alike(dst.Contents(), meta.Contents())
    modifies meta
    ensures ok && Backup.Ready(src, dst, meta) && dst.disk != null
    ensures Hashes.Completed(old(meta.Contents()), meta.Contents(), dst.disk.files, meta.Contents().Keys)
  {
    hide DirectoryTree.Valid, DirectoryTree.Contents, Disk.Valid, Mirrors, NoUnknown, Replay.Alike, Hashes.Hashable,
         Hashes.Completed;
    meta.BindToTopPath(dst.disk);
    BackupHashable(dst.Contents(), meta.Contents(), dst.disk.files);
    ok := Hashes.ComputeMissingHashes(meta);
  }

  /**
   * How a session ends that got to the backup: `n` is the result of the scrub, `half` are the paths that it left half
   * updated, `t0`, `m0` and `files0` are backup, metadata and the backup directory after it. The metadata describe the
   * backup, except where it is half updated. On disk, what was replaced is what the source is, and nothing else has
   * changed its content. Without scanning for hashes every hash is kept or computed; either way right hashes stay
   * right. With hashes throughout, metadata and backup are equal, and so are source and backup directory, if nothing
   * was skipped.
   */
  ghost predicate Finished(tm: TreeManager, hashAll: bool, hashed: bool, n: nat, half: set<Path>, t0: Catalog,
                           m0: Catalog, files0: Catalog, done: set<Path>, skip: set<Path>, k: Talk,
                           r: Scrub.Outcome)
    reads tm.src, tm.dst, tm.meta1, tm.src.disk, tm.dst.disk
  {
    && Backup.Ready(tm.src, tm.dst, tm.meta1) && tm.src.disk != null && tm.dst.disk != null
    && (exists code :: BackedUp(tm.Source(), t0, m0, tm.dst.Contents(), tm.meta1.Contents(), done, skip, k, code)
                       && r == Scrub.Code(if code == 2 then 2 else n))
    && (half == {} ==> Replay.Tracks(tm.dst.Contents(), tm.meta1.Contents()))
    && Replay.Delivered(tm.src.disk.files, tm.Source(), files0, t0, done, tm.dst.disk.files)
    && Followed(tm.Source(), t0, m0, done, tm.meta1.Contents(), tm.dst.disk.files, hashAll)
    && (KnownRight(m0, files0) ==> KnownRight(tm.meta1.Contents(), tm.dst.disk.files))
    && (!hashAll ==> forall p :: p in tm.meta1.Contents() ==>
          HashAt(tm.Source(), t0, m0, done, tm.meta1.Contents(), tm.dst.disk.files, p))
    && (hashed && hashAll && half == {} ==> tm.dst.Contents() == tm.meta1.Contents())
    && (hashed && skip == {} ==> tm.dst.disk.files == tm.src.disk.files)
  }

  /** What a scrub within a session has done: all that it tells, and the trees `mid` that it has left. */
  datatype Scrubbing = Scrubbing(n: nat, mid: Trio, log: seq<Votes.Event>, looks: seq<nat>, half: set<Path>,
                                 stale: set<Path>)

  ghost predicate Scrubbed(t0: Trio, g: Votes.Setting, w: Scrubbing) {
    Scrub.ScrubDone(t0, g, w.log, w.looks, w.mid, w.half, w.stale, w.n)
  }

  /**
   * The questions of a session, from question `n` to question `m`: those of the scrub, one between scrub and backup if
   * there were repairs, which decides whether there is a backup, and those of the backup.
   */
  ghost predicate Obeyed(answers: nat -> bool, n: nat, m: nat, w: Scrubbing, performed: bool, k: Talk) {
    var q := n + |Votes.Answers(w.log)|;
    var q' := if w.n == 1 then q + 1 else q;
    && Votes.Heeded(w.log, answers, n, q) && performed == (w.n == 0 || (w.n == 1 && answers(q)))
    && if performed then k.answers == answers && k.n == q' && m == q' + |k.asked| else m == q'
  }

  /**
   * Scrub, and then back up unless the scrub failed or the user stops after repairs. `w` is what the scrub has done,
   * `files0` the backup directory after it; `links` are recreated links in the way.
   */
  method BackupSession(tm: TreeManager, fixup: bool, hashAll: bool, user: User)
      returns (r: Scrub.Outcome, performed: bool, ghost w: Scrubbing, ghost links: set<Path>, ghost done: set<Path>,
               ghost skip: set<Path>, ghost k: Talk, ghost files0: Catalog)
    requires tm.Sound() && tm.srcTreePresent && tm.dst.Unindexed() == {}
    modifies tm, tm.dst, tm.meta1, tm.meta2, tm.dst.disk, user
    ensures tm.dst.disk == old(tm.dst.disk)
    ensures r.Code? ==> Obeyed(user.answers, old(user.asked), user.asked, w, performed, k)
    ensures r.Code? ==>
              tm.meta1NeedsBackup ==
                  (old(tm.meta1NeedsBackup) || (w.n == 1 && Votes.Wrote1(old(tm.Now()), Scrub.Of(tm, fixup), w.log)))
    ensures r.Code? ==>
              tm.meta2NeedsBackup ==
                  (old(tm.meta2NeedsBackup) || (w.n == 1 && Votes.Wrote2(old(tm.Now()), Scrub.Of(tm, fixup), w.log)))
    ensures performed ==>
              Finished(tm, hashAll, AllHashed(tm.Source()) && Scrub.Hashed3(old(tm.Now())), w.n, w.half, w.mid.a,
                  w.mid.b, files0, done, skip, k, r)
    ensures performed || r.Code? ==> Scrubbed(old(tm.Now()), Scrub.Of(tm, fixup), w)
    ensures (performed || r.Code?) && AllHashed(tm.Source()) && Scrub.Hashed3(old(tm.Now())) ==> Scrub.Hashed3(w.mid)
    ensures performed ==> w.n <= 1 && tm.save && !tm.meta2TreePresent && Backup.AllBelow(links, skip)
    ensures performed ==> Mirrors(w.mid.a, files0) && AllSane(files0) && SaneLinks(w.mid.b)
    ensures performed && (w.n == 0 || !fixup) ==> links == {} && files0 == old(tm.dst.disk.files)
    ensures performed && w.n == 0 ==> w.half == {} && w.mid == old(tm.Now())
    ensures !performed && r.Code? ==> tm.Sound() && r == Scrub.Code(w.n) && 1 <= w.n <= 2 && tm.Now() == w.mid
    ensures !performed && r.Code? ==> tm.save == (old(tm.save) || r.n == 1)
    ensures !performed && r.Code? ==> tm.meta2TreePresent == old(tm.meta2TreePresent)
    ensures r.Aborted? ==> !performed && (links != {} || Scrub.AnySkew(tm.Now()) || Scrub.AnySplit(tm.Now()))
    ensures links != {} ==> fixup
    ensures AllHashed(tm.Source()) && Scrub.Hashed3(old(tm.Now())) ==> !r.Aborted? || links != {}
    ensures Scrub.Hashed3(old(tm.Now())) || !Scrub.AnySkew(old(tm.Now())) ==>
              (forall p :: old(tm.Now()).WeightAt(p) == 0) ==> performed && w.n == 0
  {
    hide TreeManager.Sound, TreeManager.Source, Finished, Backup.Ready, Replay.Alike, Replay.Tracks, AllHashed,
         Scrub.Hashed3, Trio.WeightAt, Scrub.Of, Scrub.AnySkew, Scrub.AnySplit, DirectoryTree.Contents, Backup.AllBelow,
         Mirrors, SaneLinks, AllSane, Scrubbed, DirectoryTree.Unindexed, TreeManager.Now, Votes.Answers,
         Votes.Wrote1, Votes.Wrote2;
    performed, done, skip, k, files0 := false, {}, {}, Talk([], user.answers, 0), map[];
    ghost var hashed := AllHashed(tm.Source()) && Scrub.Hashed3(tm.Now());
    r, w, links := ScrubFirst(tm, fixup, user);
    if !r.Code? || r.n == 2 { return; }
    if r.n == 1 {
      var go := user.Ask();
      if !go { return; }
    }
    links := tm.dst.Unindexed();
    performed, r, done, skip, k, files0 := BackUpAfter(tm, hashAll, r.n, w, hashed, user);
  }

  /** The second half of a session: the second metadata tree is discarded, and the first follows the backup. */
  method BackUpAfter(tm: TreeManager, hashAll: bool, n: nat, ghost w: Scrubbing, ghost hashed: bool, user: User)
      returns (performed: bool, r: Scrub.Outcome, ghost done: set<Path>, ghost skip: set<Path>, ghost k: Talk,
               ghost files0: Catalog)
    requires Backup.Ready(tm.src, tm.dst, tm.meta1) && n == w.n <= 1 && w.mid == tm.Now()
    requires hashed ==> AllHashed(tm.Source()) && Scrub.Hashed3(tm.Now())
    requires Replay.Alike(w.mid.a, w.mid.b) && (w.half == {} ==> Replay.Tracks(w.mid.a, w.mid.b))
    modifies tm, tm.dst, tm.meta1, tm.dst.disk, user
    ensures tm.dst.disk == old(tm.dst.disk) && (old(tm.dst.Unindexed()) == {} ==> performed)
    ensures performed ==> k.answers == user.answers && k.n == old(user.asked) && user.asked == k.n + |k.asked|
    ensures tm.save && !tm.meta2TreePresent && (r.Aborted? <==> !performed)
    ensures tm.meta1NeedsBackup == old(tm.meta1NeedsBackup) && tm.meta2NeedsBackup == old(tm.meta2NeedsBackup)
    ensures performed ==>
              Finished(tm, hashAll, hashed, w.n, w.half, w.mid.a, w.mid.b, files0, done, skip, k, r)
                  && Backup.AllBelow(old(tm.dst.Unindexed()), skip)
    ensures old(tm.dst.disk) != null && files0 == old(tm.dst.disk.files) && Mirrors(w.mid.a, files0) && AllSane(files0)
  {
    hide TreeManager.Source, Finished, Backup.Ready, Replay.Alike, Replay.Tracks, AllHashed, Scrub.Hashed3,
         DirectoryTree.Contents, Backup.AllBelow, Mirrors, AllSane, DirectoryTree.Unindexed;
    ReadyDisk(tm.src, tm.dst, tm.meta1);
    Backup.Separate(tm.src, tm.dst, tm.meta1);
    files0 := tm.dst.disk.files;
    tm.meta2TreePresent, tm.save := false, true;
    performed, r, done, skip, k := AfterScrub(tm, hashAll, n, w.half, hashed, user);
  }

  /** The scrub of a session; if it has settled everything, the backup is ready. */
  method ScrubFirst(tm: TreeManager, fixup: bool, user: User)
      returns (r: Scrub.Outcome, ghost w: Scrubbing, ghost links: set<Path>)
    requires tm.Sound() && tm.dst.Unindexed() == {}
    modifies tm, tm.dst, tm.meta1, tm.meta2, tm.dst.disk, user
    ensures tm.dst.disk == old(tm.dst.disk) && tm.meta2TreePresent == old(tm.meta2TreePresent)
    ensures r.Code? ==> Votes.Heeded(w.log, user.answers, old(user.asked), user.asked)
    ensures tm.meta1NeedsBackup ==
            (old(tm.meta1NeedsBackup)
             || (r == Scrub.Code(1) && Votes.Wrote1(old(tm.Now()), Scrub.Of(tm, fixup), w.log)))
    ensures tm.meta2NeedsBackup ==
            (old(tm.meta2NeedsBackup)
             || (r == Scrub.Code(1) && Votes.Wrote2(old(tm.Now()), Scrub.Of(tm, fixup), w.log)))
    ensures tm.src != tm.dst && tm.src != tm.meta1 && tm.src != tm.meta2
    ensures r.Code? ==> tm.Sound() && r.n == w.n <= 2 && w.mid == tm.Now() && w.stale == links
    ensures r.Code? ==> Scrubbed(old(tm.Now()), Scrub.Of(tm, fixup), w) && tm.save == (old(tm.save) || r.n == 1)
    ensures r.Code? && AllHashed(tm.Source()) && Scrub.Hashed3(old(tm.Now())) ==> Scrub.Hashed3(w.mid)
    ensures r.Code? && r.n <= 1 ==>
              Replay.Alike(w.mid.a, w.mid.b) && (w.half == {} ==> Replay.Tracks(w.mid.a, w.mid.b)) && SaneLinks(w.mid.b)
    ensures r.Code? && r.n <= 1 && tm.srcTreePresent ==> Backup.Ready(tm.src, tm.dst, tm.meta1)
    ensures r == Scrub.Code(0) ==> w.half == {} && w.mid == old(tm.Now())
    ensures r == Scrub.Code(0) || !fixup ==>
              (tm.dst.disk != null ==> tm.dst.disk.files == old(tm.dst.disk.files))
                  && (r.Code? ==> tm.dst.Unindexed() == {})
    ensures r.Aborted? ==> links != {} || Scrub.AnySkew(tm.Now()) || Scrub.AnySplit(tm.Now())
    ensures links != {} ==> fixup
    ensures AllHashed(tm.Source()) && Scrub.Hashed3(old(tm.Now())) ==> !r.Aborted? || links != {}
    ensures Scrub.Hashed3(old(tm.Now())) || !Scrub.AnySkew(old(tm.Now())) ==>
              (forall p :: old(tm.Now()).WeightAt(p) == 0) ==> r == Scrub.Code(0)
  {
    hide TreeManager.Sound, TreeManager.Source, Backup.Ready, Replay.Alike, Replay.Tracks, Scrub.OnlyHalf, AllHashed,
         Scrub.Hashed3, Trio.WeightAt, Scrub.Keys, Scrub.Majority, Scrub.NoDirVote, Scrub.HasUndecided, Scrub.Of,
         Scrub.AnySkew, Scrub.AnySplit, Formed, WellFormed, DirectoryTree.Contents, HalfUpdate, Votes.Remade,
         Scrub.ScrubDone, SaneLinks, DirectoryTree.Unindexed, Votes.Heeded, Votes.Wrote1, Votes.Wrote2;
    Scrub.SoundFormed(tm);
    var half;
    ghost var log, looks;
    r, half, log, looks, links := Scrub.ScrubImpl(tm, fixup, user);
    w := Scrubbing(if r.Code? then r.n else 0, tm.Now(), log, looks, half, links);
    if r.Code? && r.n <= 1 {
      if tm.srcTreePresent { SoundReady(tm); }
      SoundLinks(tm);
      ScrubSettled(tm.Now(), tm.Source(), half, r.n);
    }
  }

  lemma SoundLinks(tm: TreeManager)
    requires tm.Sound()
    ensures SaneLinks(tm.Now().b) && SaneLinks(tm.Now().c)
  {
  }

  method AfterScrub(tm: TreeManager, hashAll: bool, n: nat, ghost half: set<Path>, ghost hashed: bool, user: User)
      returns (ok: bool, r: Scrub.Outcome, ghost done: set<Path>, ghost skip: set<Path>, ghost k: Talk)
    requires Backup.Ready(tm.src, tm.dst, tm.meta1) && n <= 1
    requires hashed ==> AllHashed(tm.Source()) && Scrub.Hashed3(tm.Now())
    requires Replay.Alike(tm.Now().a, tm.Now().b) && (half == {} ==> Replay.Tracks(tm.Now().a, tm.Now().b))
    requires tm.dst.disk != null
    modifies tm.dst, tm.meta1, tm.dst.disk, user
    ensures tm.dst.disk == old(tm.dst.disk) && (old(tm.dst.Unindexed()) == {} ==> ok) && (r.Aborted? <==> !ok)
    ensures ok ==> k.answers == user.answers && k.n == old(user.asked) && user.asked == k.n + |k.asked|
    ensures ok ==>
              Finished(tm, hashAll, hashed, n, half, old(tm.dst.Contents()), old(tm.meta1.Contents()),
                  old(tm.dst.disk.files), done, skip, k, r)
    ensures ok ==> Backup.AllBelow(old(tm.dst.Unindexed()), skip)
  {
    hide BackedUp, Backup.Ready, Replay.Alike, Replay.Tracks, AllHashed, HashAt, DirectoryTree.Contents,
         Replay.Delivered, KnownRight, Replay.Replayed;
    Backup.Separate(tm.src, tm.dst, tm.meta1);
    ghost var t0, m0 := tm.dst.Contents(), tm.meta1.Contents();
    var code;
    ok, code, done, skip, k := RunBackup(tm, hashAll, user);
    if !ok { return false, Scrub.Aborted, done, skip, k; }
    BackedUpFacts(tm.Source(), t0, m0, tm.dst.Contents(), tm.meta1.Contents(), done, skip, k, code);
    if hashed {
      ReplayedHashed(tm.Source(), t0, t0, done, tm.dst.Contents());
      if hashAll && half == {} {
        ReplayedHashed(tm.Source(), m0, t0, done, tm.meta1.Contents());
        HashedTracks(tm.dst.Contents(), tm.meta1.Contents());
      }
      if skip == {} { SameDisks(tm.src, tm.dst, tm.meta1); }
    }
    r := Scrub.Code(if code != 0 then 2 else n);
  }

  lemma ScrubSettled(t: Trio, s: Catalog, half: set<Path>, n: nat)
    requires n <= 1 && (n == 0 ==> half == {} && forall p :: t.WeightAt(p) == 0)
    requires n == 1 ==> Scrub.OnlyHalf(t, s, half)
    ensures Replay.Alike(t.a, t.b) && (half == {} ==> Replay.Tracks(t.a, t.b))
  {
    hide Trio.WeightAt, Replay.Alike, Replay.Tracks;
    SettledTracks(t, s, half);
  }

  lemma BackedUpFacts(s: Catalog, t0: Catalog, m0: Catalog, t: Catalog, m: Catalog, done: set<Path>, skip: set<Path>,
                      k: Talk, code: int)
    requires BackedUp(s, t0, m0, t, m, done, skip, k, code)
    ensures (code == 0 || code == 2) && (Replay.Tracks(t0, m0) ==> Replay.Tracks(t, m))
    ensures Replay.Replayed(s, t0, t0, done, t)
    ensures skip == {} ==> Replay.Tracks(s, t)
  {
  }

  /** A tree with all hashes is what is on disk. */
  lemma HashedMirror(t: Catalog, files: Catalog)
    requires Mirrors(t, files) && AllHashed(t) && AllSane(files)
    ensures t == files
  {
    forall p | p in t ensures t[p] == files[p] { assert Reflects(t[p], files[p]) && Hashed(t[p]) && Sane(files[p]); }
  }

  /** Source and backup are the same on disk. */
  lemma SameDisks(src: DirectoryTree, dst: DirectoryTree, meta: DirectoryTree?)
    requires Backup.Ready(src, dst, meta) && Replay.Tracks(src.Contents(), dst.Contents()) && AllHashed(src.Contents())
    requires AllHashed(dst.Contents())
    ensures src.disk != null && dst.disk != null && src.disk.files == dst.disk.files
  {
    hide DirectoryTree.Valid, DirectoryTree.Contents, WellFormed, AllHashed, Replay.Tracks, Mirrors, AllSane, NoUnknown;
    HashedTracks(src.Contents(), dst.Contents());
    HashedMirror(src.Contents(), src.disk.files);
    HashedMirror(dst.Contents(), dst.disk.files);
  }

  /** Everything but the content is the same on disk. */
  ghost predicate SameButContent(a: Catalog, b: Catalog) {
    a.Keys == b.Keys && forall p :: p in a ==> a[p].(hash := "") == b[p].(hash := "")
  }

  lemma AlikeOnDisk(s: Catalog, t: Catalog, a: Catalog, b: Catalog)
    requires Replay.Tracks(s, t) && Mirrors(s, a) && Mirrors(t, b)
    ensures SameButContent(a, b)
  {
    forall p ensures (p in a <==> p in b) && (p in a ==> a[p].(hash := "") == b[p].(hash := "")) {
      assert SameOpt(Look(s, p), Look(t, p));
    }
  }

  /**
   * The file of `q` may have other permissions, owner or modified time, but it is the same file with the same content.
   */
  predicate ContentKept(files: Catalog, files': Catalog, q: Path) {
    && (q in files <==> q in files')
    && (q in files ==>
        files'[q] == files[q].(per := files'[q].per, us := files'[q].us, gs := files'[q].gs, mt := files'[q].mt))
  }

  /**
   * Whole subtrees have come from the source directory, with everything in them; nothing else has changed its content.
   */
  ghost predicate CopiedOrKept(from: Catalog, s: Catalog, t0: Catalog, files0: Catalog, done: set<Path>,
                               files: Catalog) {
    forall q :: if Replay.Overwritten(s, t0, done, q) then Look(files, q) == Look(from, q)
        else ContentKept(files0, files, q)
  }

  lemma DeliveredContent(from: Catalog, s: Catalog, t0: Catalog, files0: Catalog, done: set<Path>, files: Catalog)
    requires Replay.Delivered(from, s, files0, t0, done, files)
    ensures CopiedOrKept(from, s, t0, files0, done, files)
  {
    hide Replay.Overwritten;
    forall q ensures if Replay.Overwritten(s, t0, done, q) then Look(files, q) == Look(from, q)
        else ContentKept(files0, files, q) {
      assert Look(files, q) == Replay.EntryAfter(from, s, files0, t0, done, q);
    }
  }

  /**
   * Without hashes a file is copied if its size or its modified time has changed: if its content is not that of the
   * source in the end, it had the size and the modified time of the source before.
   */
  lemma CopiedIfChanged(src: Catalog, s: Catalog, t0: Catalog, files0: Catalog, done: set<Path>, t: Catalog,
                        files: Catalog, q: Path)
    requires Replay.Replayed(s, t0, t0, done, t) && Replay.Delivered(src, s, files0, t0, done, files) && Mirrors(s, src)
    requires Mirrors(t0, files0)
    requires WellFormed(s) && WellFormed(t) && Replay.Tracks(s, t) && Unhashed(s) && Unhashed(t0)
    requires forall p :: Reported2(s, t0, ALL, p) ==> p in done
    requires q in files && q in src && src[q].ty.Regular? && files[q].hash != src[q].hash
    ensures q in files0 && files0[q].sz == src[q].sz && files0[q].mt == src[q].mt
  {
    assert Look(files, q) == Replay.EntryAfter(src, s, files0, t0, done, q);
    assert Look(t, q) == Replay.EntryAfter(s, s, t0, t0, done, q);
    assert q in s && Reflects(s[q], src[q]) && q in t0 && Reflects(t0[q], files0[q]);
    assert SameOpt(Look(s, q), Look(t, q));
    CommonDir(s, t0, done, t, q);
    if t0[q].sz != s[q].sz || t0[q].mt != s[q].mt {
      assert Reported2(s, t0, ALL, q) && Under(q, q);
      assert Replay.Structural(Look(s, q), Look(t0, q));
    }
  }

  /** The directory of an entry that was not overwritten has been there before. */
  lemma CommonDir(s: Catalog, t0: Catalog, done: set<Path>, t: Catalog, q: Path)
    requires Replay.Replayed(s, t0, t0, done, t) && WellFormed(s) && WellFormed(t) && Replay.Tracks(s, t) && q in s
    requires q in t
    requires !Replay.Overwritten(s, t0, done, q)
    ensures q.In? && IsDir(s, q.dir) && IsDir(t0, q.dir)
  {
    hide Merge;
    assert Look(t, q.dir) == Replay.EntryAfter(s, s, t0, t0, done, q.dir);
  }

  /** The backup without metadata: scan both directories without hashes and make the backup what the source is. */
  method SimpleBackup(src: Disk, dst: Disk, user: User)
      returns (code: int, ghost done: set<Path>, ghost skip: set<Path>, ghost asked: seq<Path>)
    requires src.Valid() && dst.Valid() && src != dst && NoUnknown(src.files)
    modifies dst, user
    ensures dst.Valid() && (code == 0 || code == 2)
    ensures forall p :: Reported2(ScanOf(src.files, Scan.OmitHash), ScanOf(dst.files, Scan.OmitHash), ALL, p) <==>
            p in skip
    ensures Backup.Answered(ScanOf(src.files, Scan.OmitHash), ScanOf(old(dst.files), Scan.OmitHash), done, skip, asked,
            user.answers, old(user.asked), code)
    ensures Backup.Plainly(ScanOf(src.files, Scan.OmitHash), ScanOf(old(dst.files), Scan.OmitHash), done, skip, code)
    ensures user.asked == old(user.asked) + |asked|
    ensures CopiedOrKept(src.files, ScanOf(src.files, Scan.OmitHash), ScanOf(old(dst.files), Scan.OmitHash),
            old(dst.files), done, dst.files)
    ensures done == {} ==> dst.files == old(dst.files)
    ensures skip == {} ==> SameButContent(src.files, dst.files)
    ensures skip == {} ==>
            forall q :: q in src.files && src.files[q].ty.Regular? && dst.files[q].hash != src.files[q].hash ==>
              q in old(dst.files) && old(dst.files)[q].sz == src.files[q].sz && old(dst.files)[q].mt == src.files[q].mt
  {
    hide Disk.Valid, NoUnknown, ScannedFrom, Backup.Ready, Reported2, Backup.Plainly, Backup.Answered,
         Replay.Delivered, SameButContent, Replay.Tracks, ScanOf, DirectoryTree.Contents, CopiedOrKept, Backup.AllBelow;
    var s := ScanTree(src, Scan.OmitHash);
    var d := ScanTree(dst, Scan.OmitHash);
    ScannedReady(s, d, src, dst);
    ghost var d0, files0 := d.Contents(), dst.files;
    var ok;
    ok, code, done, skip, asked := Backup.BackupImpl(s, d, null, user);
    ReadyDisks(s, d);
    Backup.Partition(s.Contents(), d0, done, skip, asked, user.answers, old(user.asked), code);
    ReplayedUnhashed(s.Contents(), d0, done, d.Contents());
    UnhashedMirror(s.Contents(), src.files);
    UnhashedMirror(d.Contents(), dst.files);
    UnhashedMirror(d0, files0);
    DeliveredContent(src.files, s.Contents(), d0, files0, done, dst.files);
    if done == {} { Replay.NothingDelivered(src.files, s.Contents(), files0, d0, dst.files); }
    if skip == {} { NothingSkipped(s, d, src.files, d0, files0, done, dst.files); }
  }

  lemma NothingSkipped(s: DirectoryTree, d: DirectoryTree, from: Catalog, d0: Catalog, files0: Catalog, done: set<Path>,
                       files: Catalog)
    requires Backup.Ready(s, d, null) && Replay.Replayed(s.Contents(), d0, d0, done, d.Contents())
    requires Replay.Tracks(s.Contents(), d.Contents())
    requires Mirrors(s.Contents(), from) && Mirrors(d.Contents(), files) && Mirrors(d0, files0)
    requires Unhashed(s.Contents()) && Unhashed(d0)
    requires Replay.Delivered(from, s.Contents(), files0, d0, done, files)
    requires forall p :: Reported2(s.Contents(), d0, ALL, p) ==> p in done
    ensures SameButContent(from, files)
    ensures forall q :: q in from && from[q].ty.Regular? && files[q].hash != from[q].hash ==>
              q in files0 && files0[q].sz == from[q].sz && files0[q].mt == from[q].mt
  {
    hide Backup.Ready, Replay.Delivered, Replay.Tracks, Mirrors, Unhashed, Reported2, DirectoryTree.Contents,
         WellFormed;
    Backup.ReadyFormed(s, d, null);
    AlikeOnDisk(s.Contents(), d.Contents(), from, files);
    forall q | q in from && from[q].ty.Regular? && files[q].hash != from[q].hash
      ensures q in files0 && files0[q].sz == from[q].sz && files0[q].mt == from[q].mt
    {
      CopiedIfChanged(from, s.Contents(), d0, files0, done, d.Contents(), files, q);
    }
  }

  lemma ScannedReady(s: DirectoryTree, d: DirectoryTree, src: Disk, dst: Disk)
    requires ScannedFrom(s, src, Scan.OmitHash) && ScannedFrom(d, dst, Scan.OmitHash) && s != d && src != dst
    requires NoUnknown(src.files)
    ensures Backup.Ready(s, d, null) && s.disk == src && d.disk == dst && Unhashed(s.Contents())
    ensures Unhashed(d.Contents())
    ensures d.Unindexed() == {} && Mirrors(d.Contents(), dst.files)
  {
    hide DirectoryTree.Valid, DirectoryTree.Contents, Mirrors, SaneLinks, NoUnknown, Disk.Valid;
    ScannedLinks(src, Scan.OmitHash);
  }

  lemma ReplayedUnhashed(s: Catalog, base: Catalog, done: set<Path>, now: Catalog)
    requires Replay.Replayed(s, base, base, done, now) && Unhashed(s) && Unhashed(base)
    ensures Unhashed(now)
  {
    hide Replay.Overwritten;
    forall q | q in now ensures now[q].hash == "" {
      assert Look(now, q) == Replay.EntryAfter(s, s, base, base, done, q);
    }
  }

  /** A tree without hashes is what a scan without hashes finds. */
  lemma UnhashedMirror(t: Catalog, files: Catalog)
    requires Mirrors(t, files) && Unhashed(t)
    ensures t == ScanOf(files, Scan.OmitHash)
  {
    forall p | p in t ensures t[p] == Scan.Stripped(files[p], Scan.OmitHash) { assert Reflects(t[p], files[p]); }
  }

  lemma ReadyDisks(s: DirectoryTree, d: DirectoryTree)
    requires Backup.Ready(s, d, null)
    ensures s.disk != null && d.disk != null && d.disk.Valid() && Mirrors(s.Contents(), s.disk.files)
    ensures Mirrors(d.Contents(), d.disk.files)
  {
  }

  // ---------- saving, and the next run ----------

  /**
   * The text was written from a tree: it reads as the lists that the writer does not lose, which are all if the
   * directories come first everywhere.
   */
  ghost predicate SavedFrom(cal: Calendar, text: string, s: Shape, dirsFirst: bool) {
    && Linked(s) && Metadata.LoadText(cal, text) == Some(Writer.Written(s))
    && (dirsFirst ==> Writer.Written(s) == ListsOf(s))
  }

  /** Write one tree. */
  method SaveTree(t: DirectoryTree, cal: Calendar) returns (text: string)
    requires t.Valid()
    ensures Writer.AllLegible(cal, t.Contents()) ==> SavedFrom(cal, text, t.State(), t.ordered)
  {
    hide Linked, ListsOf, Writer.AllLegible, Metadata.LoadText, Shape.Wired, Indexed, Ordered, Shape.Contents,
         Writer.Written;
    text := Writer.WriteTo(t, cal);
    if t.ordered { Writer.DirsFirstWritten(t.State()); }
  }

  /** The tree that the second file is written from. */
  function Second(tm: TreeManager): DirectoryTree
    reads tm
  {
    if tm.meta2TreePresent then tm.meta2 else tm.meta1
  }

  /**
   * What happens when the tree manager goes: both files are written, from the first tree alone if the second was
   * discarded. They hold what can be read back, which is everything if the directories come first in every list.
   */
  method SaveMetadata(tm: TreeManager, cal: Calendar, files: MetadataFiles)
    requires tm.meta1.Valid() && Second(tm).Valid()
    modifies files
    ensures !tm.save ==> unchanged(files)
    ensures files.bak1 == if tm.save && tm.meta1NeedsBackup then Some(old(files.text1)) else old(files.bak1)
    ensures files.bak2 == if tm.save && tm.meta2NeedsBackup then Some(old(files.text2)) else old(files.bak2)
    ensures tm.save && Writer.AllLegible(cal, tm.meta1.Contents()) ==>
              SavedFrom(cal, files.text1, tm.meta1.State(), tm.meta1.ordered)
    ensures tm.save && Writer.AllLegible(cal, Second(tm).Contents()) ==>
              SavedFrom(cal, files.text2, Second(tm).State(), Second(tm).ordered)
  {
    hide SavedFrom, Writer.AllLegible, DirectoryTree.Valid, DirectoryTree.Contents, DirectoryTree.State;
    if !tm.save { return; }
    if tm.meta1NeedsBackup { files.bak1 := Some(files.text1); }
    files.text1 := SaveTree(tm.meta1, cal);
    if tm.meta2NeedsBackup { files.bak2 := Some(files.text2); }
    files.text2 := SaveTree(Second(tm), cal);
  }

  /** The same lists, loaded again, are the same entries. */
  lemma LoadedAgain(t: DirectoryTree, u: DirectoryTree, l: Listing)
    requires LoadedFrom(u, l) && t.Valid() && Linked(t.State()) && ListsOf(t.State()) == l
    ensures u.Contents() == t.Contents()
  {
    hide Linked, ListsOf, Shape.Contents, Shape.Wired, Indexed, Ordered, InOrder;
    ListsTell(u.State(), t.State());
  }

  /**
   * The next scrub, if nothing has touched the backup since. Where the metadata described the backup `t`, they agree
   * with what the scan finds, unless the scan computes a hash other than the one they have.
   */
  lemma NextScan(t: Catalog, m: Catalog, files: Catalog, opt: Scan.ScanOpt, p: Path)
    requires Replay.Tracks(t, m) && Mirrors(t, files)
    ensures SameOpt(Look(ScanOf(files, opt), p), Look(m, p)) <==>
              opt.OmitHash? || p !in m || m[p].hash == "" || files[p].hash == "" || m[p].hash == files[p].hash
  {
    assert SameOpt(Look(t, p), Look(m, p));
  }

  /**
   * If nothing has touched the backup, the next scan agrees with the metadata everywhere, unless it computes hashes and
   * a hash of the metadata is wrong.
   */
  lemma NextScrubClean(t: Catalog, m: Catalog, files: Catalog, opt: Scan.ScanOpt)
    requires Replay.Tracks(t, m) && Mirrors(t, files) && (opt.OmitHash? || KnownRight(m, files))
    ensures forall p :: Trio(ScanOf(files, opt), m, m).WeightAt(p) == 0
    ensures !Scrub.AnySkew(Trio(ScanOf(files, opt), m, m))
  {
    hide ScanOf, Mirrors, Replay.Tracks;
    var v := Trio(ScanOf(files, opt), m, m);
    forall p ensures v.WeightAt(p) == 0 && !Skewed(Look(v.a, p), Look(v.b, p), Look(v.c, p), ALL) {
      NextScan(t, m, files, opt, p);
      Votes.SkewedExactly(Look(v.a, p), Look(v.b, p), Look(v.c, p));
    }
  }
}
