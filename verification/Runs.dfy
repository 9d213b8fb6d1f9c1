/** Sequences of backups: what every run keeps, from the metadata files it loads to those it saves. */
module Runs {
  import opened Elements
  import opened Catalogs
  import opened Shapes
  import opened Disks
  import opened Trees
  import opened Diffs
  import opened Ranks
  import opened Repairs
  import opened Manager
  import opened Listings
  import opened Texts
  import opened Lines
  import opened Legibility
  import opened Sessions
  import opened Users
  import Metadata
  import Writer
  import Scan
  import Scrub
  import Replay
  import Votes
  import Backup

  /** A listing holds exactly the entries of a catalog. */
  ghost predicate ListingIs(l: Listing, m: Catalog) {
    && (forall d, e :: d in l && e in l[d] ==> e.rp in m && m[e.rp] == e)
    && (forall p :: p in m ==> p.In? && p.dir in l && m[p] in l[p.dir])
  }

  lemma ListsAre(s: Shape)
    requires Linked(s)
    ensures ListingIs(ListsOf(s), s.Contents())
  {
    hide Linked, ListsOf, Shape.Contents;
    forall d, e | d in ListsOf(s) && e in ListsOf(s)[d]
      ensures e.rp in s.Contents() && s.Contents()[e.rp] == e { ListedElement(s, d, e); }
    forall p | p in s.Contents()
      ensures p.In? && p.dir in ListsOf(s) && s.Contents()[p] in ListsOf(s)[p.dir] { ElementListed(s, p); }
  }

  /** A listing holds one catalog. */
  lemma OneCatalog(l: Listing, m: Catalog, m': Catalog)
    requires ListingIs(l, m) && ListingIs(l, m') && WellFormed(m) && WellFormed(m')
    ensures m == m'
  {
    forall p | p in m ensures p in m' && m'[p] == m[p] { assert m[p] in l[p.dir] && m[p].rp == p; }
    forall p | p in m' ensures p in m { assert m'[p] in l[p.dir] && m'[p].rp == p; }
  }

  /** The file lists exactly the entries of a catalog, the directories of every list first. */
  ghost predicate Holds(cal: Calendar, text: string, m: Catalog) {
    var l := Metadata.LoadText(cal, text);
    l.Some? && InOrder(l.value) && ListingIs(l.value, m)
  }

  /** Both metadata files hold what is in the backup directory, with its hashes. */
  ghost predicate Healthy(cal: Calendar, x: string, y: string, files: Catalog) {
    Holds(cal, x, files) && Holds(cal, y, files)
  }

  /** What is loaded from a healthy file. */
  lemma HeldTree(t: DirectoryTree, cal: Calendar, text: string, files: Catalog)
    requires Holds(cal, text, files) && LoadedFrom(t, Metadata.LoadText(cal, text).value) && WellFormed(files)
    ensures t.Contents() == files && t.ordered
  {
    hide Metadata.LoadText, ListingIs, WellFormed, Linked, ListsOf, InOrder, DirectoryTree.Valid, UsualLinks;
    ListsAre(t.State());
    t.Facts();
    OneCatalog(Metadata.LoadText(cal, text).value, t.Contents(), files);
  }

  lemma HealthyLinks(l: Listing, files: Catalog)
    requires ListingIs(l, files) && AllSane(files)
    ensures UsualLinks(l)
  {
    forall d, e | d in l && e in l[d] && e.ty.Symlink? ensures e.per == LINK_PERM { assert Sane(files[e.rp]); }
  }

  lemma OrderedLists(s: Shape)
    requires Linked(s) && Ordered(s)
    ensures InOrder(ListsOf(s))
  {
    hide ListsOf;
    forall d | d in ListsOf(s) ensures DirsLead(ListsOf(s)[d]) {
      InLists(s, d);
      assert Lists(s.Kids(d), s.nodes, s.store, d);
    }
  }

  /** What is saved from a tree whose directories come first holds what the tree holds. */
  lemma SavedHolds(t: DirectoryTree, cal: Calendar, text: string)
    requires t.Valid() && t.ordered && SavedFrom(cal, text, t.State(), true)
    ensures Holds(cal, text, t.Contents())
  {
    hide Metadata.LoadText, ListingIs, Linked, ListsOf, Shape.Wired, Indexed, Ordered, InOrder, Writer.Written;
    ListsAre(t.State());
    OrderedLists(t.State());
  }

  /** What a scan finds agrees with what is on disk. */
  lemma CleanScan(files: Catalog, opt: Scan.ScanOpt)
    ensures Replay.Tracks(ScanOf(files, opt), files) && Mirrors(ScanOf(files, opt), files) && KnownRight(files, files)
    ensures opt.ComputeHash? ==> ScanOf(files, opt) == files
  {
  }

  lemma SaneHashed(files: Catalog)
    requires AllSane(files)
    ensures AllHashed(files)
  {
    forall p | p in files ensures Hashed(files[p]) { assert Sane(files[p]); }
  }

  /** Metadata that describe the backup, with all hashes and only right ones, are what is on disk. */
  lemma MetaIsDisk(t: Catalog, m: Catalog, files: Catalog)
    requires Replay.Tracks(t, m) && Mirrors(t, files) && AllSane(files) && KnownRight(m, files)
    requires forall p :: p in m && m[p].ty.Regular? ==> m[p].hash != ""
    ensures m == files
  {
    forall p ensures Look(m, p) == Look(files, p) {
      assert SameOpt(Look(t, p), Look(m, p));
      if p in m { assert p in t && p in files && Reflects(t[p], files[p]) && Sane(files[p]); }
    }
    assert forall p :: p in m <==> Look(m, p).Some?;
    assert forall p :: p in files <==> Look(files, p).Some?;
  }

  function OptOf(hashAll: bool): Scan.ScanOpt {
    if hashAll then Scan.ComputeHash else Scan.OmitHash
  }

  lemma NoHashes(files: Catalog)
    ensures Unhashed(ScanOf(files, Scan.OmitHash))
  {
  }

  lemma FilledHashes(s: Catalog, t0: Catalog, m0: Catalog, done: set<Path>, m: Catalog, files: Catalog)
    requires forall p :: p in m ==> HashAt(s, t0, m0, done, m, files, p)
    ensures forall p :: p in m && m[p].ty.Regular? ==> m[p].hash != ""
  {
    forall p | p in m && m[p].ty.Regular? ensures m[p].hash != "" { assert HashAt(s, t0, m0, done, m, files, p); }
  }

  // ---------- what can be used ----------

  ghost predicate Loads(cal: Calendar, x: string, y: string) {
    Metadata.LoadText(cal, x).Some? && Metadata.LoadText(cal, y).Some?
  }

  /** If the files can be loaded, the links they list are as usual. */
  ghost predicate Fits(cal: Calendar, x: string, y: string) {
    Loads(cal, x, y) ==> UsualLinks(Metadata.LoadText(cal, x).value) && UsualLinks(Metadata.LoadText(cal, y).value)
  }

  /** The trees that a run starts from: what a scan finds, and what the files list. */
  ghost predicate Opened(cal: Calendar, x: string, y: string, files: Catalog, opt: Scan.ScanOpt, t: Trio) {
    && Loads(cal, x, y) && Formed(t) && t.a == ScanOf(files, opt)
    && ListingIs(Metadata.LoadText(cal, x).value, t.b) && ListingIs(Metadata.LoadText(cal, y).value, t.c)
  }

  ghost predicate DirsFirstIn(cal: Calendar, text: string) {
    Metadata.LoadText(cal, text).Some? && InOrder(Metadata.LoadText(cal, text).value)
  }

  ghost predicate ListsLegible(cal: Calendar, l: Listing) {
    forall d, e :: d in l && e in l[d] ==> Writer.Legible(cal, e)
  }

  ghost predicate LinksUsual(m: Catalog) {
    forall p :: p in m && m[p].ty.Symlink? ==> m[p].per == LINK_PERM
  }

  /** Whatever the lists take from a catalog is as fit as the catalog. */
  lemma FitLists(cal: Calendar, l: Listing, m: Catalog)
    requires forall d, e :: d in l && e in l[d] ==> e.rp in m && m[e.rp] == e
    requires Writer.AllLegible(cal, m) && LinksUsual(m)
    ensures ListsLegible(cal, l) && UsualLinks(l)
  {
    hide Writer.Legible;
    forall d, e | d in l && e in l[d] ensures Writer.Legible(cal, e) && (e.ty.Symlink? ==> e.per == LINK_PERM) {
      assert m[e.rp] == e;
    }
  }

  /** The file can be loaded, its links are as usual, and everything in it could be written again. */
  ghost predicate UsableText(cal: Calendar, text: string) {
    var l := Metadata.LoadText(cal, text);
    l.Some? && UsualLinks(l.value) && ListsLegible(cal, l.value)
  }

  /** Metadata files and backup directory are fit for another run, which need not find that they agree. */
  ghost predicate Usable(cal: Calendar, x: string, y: string, files: Catalog) {
    UsableText(cal, x) && UsableText(cal, y) && Writer.AllLegible(cal, files)
  }

  lemma UsableFits(cal: Calendar, x: string, y: string, files: Catalog)
    requires Usable(cal, x, y, files)
    ensures Loads(cal, x, y) && Fits(cal, x, y)
  {
    hide Metadata.LoadText, UsualLinks;
  }

  /** A healthy backup is usable if what is in the backup directory can be written. */
  lemma HealthyUsable(cal: Calendar, x: string, y: string, files: Catalog)
    requires Healthy(cal, x, y, files) && AllSane(files) && Writer.AllLegible(cal, files)
    ensures Usable(cal, x, y, files)
  {
    hide Metadata.LoadText, UsualLinks, InOrder, Writer.AllLegible, ListsLegible, LinksUsual;
    SaneUsual(files);
    FitLists(cal, Metadata.LoadText(cal, x).value, files);
    FitLists(cal, Metadata.LoadText(cal, y).value, files);
  }

  lemma UsableStart(cal: Calendar, x: string, y: string, files: Catalog, opt: Scan.ScanOpt, t: Trio)
    requires Usable(cal, x, y, files) && Opened(cal, x, y, files, opt, t)
    ensures Legible3(cal, t)
  {
    hide Metadata.LoadText, UsualLinks, Writer.Legible, ScanOf, WellFormed;
    LegibleScan(cal, files, opt);
  }

  lemma ScrubLegible(cal: Calendar, t0: Trio, g: Votes.Setting, w: Scrubbing)
    requires Scrubbed(t0, g, w) && Legible3(cal, t0) && Writer.AllLegible(cal, g.s)
    ensures Legible3(cal, w.mid)
  {
    hide Legible3, Writer.AllLegible, Scrub.Settled, Scrub.Spared, Scrub.MajorityAside, Scrub.OnlyHalf, Scrub.HalfFrom,
         Votes.Lawful, Votes.After, Votes.Calm;
    LegibleRun(cal, t0, g, w.log);
  }

  lemma LoadedStart(tm: TreeManager, cal: Calendar, x: string, y: string, dst: Disk, opt: Scan.ScanOpt)
    requires ScannedFrom(tm.dst, dst, opt) && Loads(cal, x, y)
    requires LoadedFrom(tm.meta1, Metadata.LoadText(cal, x).value)
    requires LoadedFrom(tm.meta2, Metadata.LoadText(cal, y).value)
    ensures Opened(cal, x, y, dst.files, opt, tm.Now()) && tm.dst.disk == dst && tm.dst.Unindexed() == {}
    ensures tm.meta1.ordered == DirsFirstIn(cal, x) && tm.meta2.ordered == DirsFirstIn(cal, y)
  {
    hide Metadata.LoadText, ListingIs, WellFormed, Linked, ListsOf, InOrder, DirectoryTree.Valid, UsualLinks,
         Disk.Valid, Mirrors, SaneLinks, ScanOf;
    ListsAre(tm.meta1.State());
    ListsAre(tm.meta2.State());
    tm.meta1.Facts();
    tm.meta2.Facts();
    tm.dst.Facts();
  }

  lemma SaneUsual(files: Catalog)
    requires AllSane(files)
    ensures LinksUsual(files)
  {
    forall p | p in files ensures files[p].ty.Symlink? ==> files[p].per == LINK_PERM { assert Sane(files[p]); }
  }

  /** What is saved from a tree can be used again, if the tree can be written and its links are as usual. */
  lemma SavedUsable(t: DirectoryTree, cal: Calendar, text: string)
    requires t.Valid() && SavedFrom(cal, text, t.State(), t.ordered) && Writer.AllLegible(cal, t.Contents())
    requires LinksUsual(t.Contents())
    ensures UsableText(cal, text)
  {
    hide Metadata.LoadText, Linked, ListsOf, Shape.Wired, Indexed, Ordered, Writer.AllLegible, Shape.Contents,
         Writer.Written, LinksUsual, UsualLinks, ListsLegible;
    ListsAre(t.State());
    WrittenLess(t.State());
    FitLists(cal, Writer.Written(t.State()), t.Contents());
  }

  lemma WrittenLess(s: Shape)
    requires Linked(s)
    ensures forall d :: d in Writer.Written(s) ==> d in ListsOf(s) && Writer.Written(s)[d] == ListsOf(s)[d]
  {
    hide ListsOf, Linked;
  }

  /** The text was written from a tree that held the entries `m`. */
  ghost predicate WrittenFrom(cal: Calendar, text: string, m: Catalog, dirsFirst: bool) {
    exists s: Shape :: s.Contents() == m && SavedFrom(cal, text, s, dirsFirst)
  }

  /** What the text says that was written from a tree with the entries `m`. */
  ghost predicate Saved(cal: Calendar, text: string, m: Catalog, dirsFirst: bool) {
    WrittenFrom(cal, text, m, dirsFirst) && UsableText(cal, text) && (dirsFirst ==> Holds(cal, text, m))
  }

  lemma TreeSaved(t: DirectoryTree, cal: Calendar, text: string)
    requires t.Valid() && Writer.AllLegible(cal, t.Contents()) && SavedFrom(cal, text, t.State(), t.ordered)
    requires LinksUsual(t.Contents())
    ensures Saved(cal, text, t.Contents(), t.ordered)
  {
    hide SavedFrom, Holds, UsableText, Shape.Wired, Indexed, Ordered, Shape.Contents, Writer.AllLegible, LinksUsual;
    SavedUsable(t, cal, text);
    if t.ordered { SavedHolds(t, cal, text); }
  }

  // ---------- scrubs ----------

  ghost function SourceOf(src: Disk?, opt: Scan.ScanOpt): Catalog
    reads src
  {
    if src == null then map[] else ScanOf(src.files, opt)
  }

  lemma SourceLegible(cal: Calendar, src: Disk?, opt: Scan.ScanOpt)
    requires src != null ==> Writer.AllLegible(cal, src.files)
    ensures Writer.AllLegible(cal, SourceOf(src, opt))
  {
    hide Writer.Legible;
    if src != null { LegibleScan(cal, src.files, opt); }
  }

  /** All hashes are known: those of the source, and those of the trees. */
  ghost predicate Throughout(s: Catalog, t: Trio) {
    AllHashed(s) && Scrub.Hashed3(t)
  }

  /** A scan that computes hashes and files that have all of them are enough. */
  lemma HashedOpen(cal: Calendar, x: string, y: string, src: Disk?, dst: Disk, opt: Scan.ScanOpt, t: Trio)
    requires Opened(cal, x, y, dst.files, opt, t) && dst.Valid() && (src != null ==> src.Valid())
    requires opt.ComputeHash? && AllHashed(t.b) && AllHashed(t.c)
    ensures Throughout(SourceOf(src, opt), t)
  {
    hide Metadata.LoadText, ListingIs, WellFormed, AllSane, ScanOf, AllHashed;
    CleanScan(dst.files, opt);
    SaneHashed(dst.files);
    if src != null {
      CleanScan(src.files, opt);
      SaneHashed(src.files);
    } else {
      NoneHashed();
    }
  }

  lemma NoneHashed()
    ensures AllHashed(map[])
  {
  }

  /** A scrub with all hashes that has settled everything: all three trees are what is in the backup directory. */
  lemma SettledHashed(t0: Trio, g: Votes.Setting, w: Scrubbing, files: Catalog)
    requires Scrubbed(t0, g, w) && w.n <= 1 && w.half == {} && Scrub.Hashed3(w.mid) && Mirrors(w.mid.a, files)
    requires AllSane(files)
    ensures w.mid == Trio(files, files, files)
  {
    hide Votes.History, Scrub.Settled, Scrub.Spared, Scrub.MajorityAside, Scrub.HalfFrom, Votes.Calm, Trio.WeightAt,
         AllHashed, Mirrors, AllSane;
    Scrub.HashedAgree(w.mid);
    HashedMirror(w.mid.a, files);
  }

  lemma SoundDisk(tm: TreeManager)
    requires tm.Sound() && tm.dst.disk != null
    ensures tm.dst.disk.Valid() && AllSane(tm.dst.disk.files) && Mirrors(tm.Now().a, tm.dst.disk.files)
    ensures tm.meta1.Valid() && tm.meta2.Valid() && LinksUsual(tm.Now().b) && LinksUsual(tm.Now().c)
  {
    hide WellFormed, Shape.Wired, Indexed, Ordered, Shape.Contents, Mirrors;
    Scrub.SoundFormed(tm);
  }

  /**
   * What the files say after a scrub that returned a value; `first1` and `first2` tell whether the directories came
   * first in the files, `hashed` whether all hashes were known.
   */
  ghost predicate ScrubSaved(cal: Calendar, x: string, y: string, files: Catalog, w: Scrubbing, first1: bool,
                             first2: bool, hashed: bool) {
    && Usable(cal, x, y, files)
    && (w.n == 1 ==> WrittenFrom(cal, x, w.mid.b, first1) && WrittenFrom(cal, y, w.mid.c, first2))
    && (w.n <= 1 && first1 ==> Holds(cal, x, w.mid.b)) && (w.n <= 1 && first2 ==> Holds(cal, y, w.mid.c))
    && (w.n <= 1 && first1 && first2 && w.half == {} && hashed ==> Healthy(cal, x, y, files))
  }

  /** Nothing was found: the trees are those of the start. */
  lemma NothingFound(t0: Trio, g: Votes.Setting, w: Scrubbing)
    requires Scrubbed(t0, g, w) && w.n == 0
    ensures w.mid == t0
  {
    hide Scrub.Settled, Scrub.Spared, Scrub.MajorityAside, Scrub.OnlyHalf, Scrub.HalfFrom, Votes.Lawful, Votes.Calm;
  }

  lemma ScrubKept(cal: Calendar, x0: string, y0: string, files0: Catalog, opt: Scan.ScanOpt, t0: Trio, g: Votes.Setting,
                  w: Scrubbing, x: string, y: string, files: Catalog, hashed: bool)
    requires Usable(cal, x0, y0, files0) && Opened(cal, x0, y0, files0, opt, t0) && Scrubbed(t0, g, w)
    requires Legible3(cal, w.mid) && Mirrors(w.mid.a, files) && AllSane(files)
    requires w.n == 1 ==> Saved(cal, x, w.mid.b, DirsFirstIn(cal, x0)) && Saved(cal, y, w.mid.c, DirsFirstIn(cal, y0))
    requires w.n != 1 ==> x == x0 && y == y0
    requires hashed ==> Scrub.Hashed3(w.mid)
    ensures ScrubSaved(cal, x, y, files, w, DirsFirstIn(cal, x0), DirsFirstIn(cal, y0), hashed)
  {
    hide Metadata.LoadText, ListingIs, UsualLinks, InOrder, WellFormed, Writer.AllLegible, UsableText, Scrubbed,
         Mirrors, AllSane, Scrub.Hashed3, WrittenFrom, ScanOf, Formed;
    LegibleDisk(cal, w.mid.a, files);
    if w.n == 0 { NothingFound(t0, g, w); }
    if w.n <= 1 && w.half == {} && hashed { SettledHashed(t0, g, w, files); }
  }

  /** Loading a healthy backup finds the same in the files and in the directory. */
  lemma HealthyStart(tm: TreeManager, cal: Calendar, x: string, y: string, src: Disk?, dst: Disk, opt: Scan.ScanOpt)
    requires Healthy(cal, x, y, dst.files) && dst.Valid() && ScannedFrom(tm.dst, dst, opt)
    requires src != null ==> src.Valid() && ScannedFrom(tm.src, src, opt)
    requires Metadata.LoadText(cal, x).Some? && LoadedFrom(tm.meta1, Metadata.LoadText(cal, x).value)
    requires Metadata.LoadText(cal, y).Some? && LoadedFrom(tm.meta2, Metadata.LoadText(cal, y).value)
    ensures tm.dst.disk == dst && tm.dst.Unindexed() == {} && tm.meta1.ordered && AllSane(dst.files)
    ensures tm.dst.Contents() == ScanOf(dst.files, opt) && tm.meta1.Contents() == dst.files
    ensures tm.meta2.Contents() == dst.files
    ensures (forall p :: tm.Now().WeightAt(p) == 0) && !Scrub.AnySkew(tm.Now())
    ensures src != null ==> tm.src.disk == src && tm.Source() == ScanOf(src.files, opt)
    ensures src != null && opt.ComputeHash? ==> AllHashed(tm.Source()) && Scrub.Hashed3(tm.Now())
    ensures src != null && opt.OmitHash? ==> Unhashed(tm.Source())
  {
    hide DirectoryTree.Valid, DirectoryTree.Contents, WellFormed, AllSane, LoadedFrom, Metadata.LoadText, Holds,
         Mirrors, SaneLinks, ScanOf, Trio.WeightAt, AllHashed, Scrub.AnySkew, KnownRight, Replay.Tracks;
    HeldTree(tm.meta1, cal, x, dst.files);
    HeldTree(tm.meta2, cal, y, dst.files);
    CleanScan(dst.files, opt);
    NextScrubClean(ScanOf(dst.files, opt), dst.files, dst.files, opt);
    if src != null && opt.OmitHash? { NoHashes(src.files); }
    if src != null && opt.ComputeHash? {
      CleanScan(src.files, opt);
      SaneHashed(src.files);
      SaneHashed(dst.files);
    }
  }

  lemma HealthyLoads(cal: Calendar, x: string, y: string, dst: Disk)
    requires Healthy(cal, x, y, dst.files) && dst.Valid()
    ensures Loads(cal, x, y) && Fits(cal, x, y)
  {
    hide Metadata.LoadText, ListingIs, InOrder, UsualLinks, WellFormed, AllSane;
    HealthyLinks(Metadata.LoadText(cal, x).value, dst.files);
    HealthyLinks(Metadata.LoadText(cal, y).value, dst.files);
  }

  /** How every run starts. */
  method OpenRun(cal: Calendar, files: MetadataFiles, src: Disk?, dst: Disk, opt: Scan.ScanOpt)
      returns (tm: TreeManager?)
    requires dst.Valid() && (src != null ==> src.Valid() && NoUnknown(src.files)) && src != dst
    requires Fits(cal, files.text1, files.text2)
    ensures tm == null <==> !Loads(cal, files.text1, files.text2)
    ensures tm != null ==> fresh(tm) && fresh(tm.src) && fresh(tm.dst) && fresh(tm.meta1) && fresh(tm.meta2)
    ensures tm != null ==> tm.Sound() && tm.dst.Unindexed() == {} && tm.srcTreePresent == (src != null)
    ensures tm != null ==> tm.meta2TreePresent && !tm.save && tm.dst.disk == dst && tm.Source() == SourceOf(src, opt)
    ensures tm != null ==> !tm.meta1NeedsBackup && !tm.meta2NeedsBackup
    ensures tm != null && src != null ==> tm.src.disk == src
    ensures tm != null ==> Opened(cal, files.text1, files.text2, dst.files, opt, tm.Now())
    ensures tm != null ==>
              tm.meta1.ordered == DirsFirstIn(cal, files.text1) && tm.meta2.ordered == DirsFirstIn(cal, files.text2)
    ensures Healthy(cal, files.text1, files.text2, dst.files) ==>
              tm != null && (forall p :: tm.Now().WeightAt(p) == 0) && !Scrub.AnySkew(tm.Now())
    ensures Healthy(cal, files.text1, files.text2, dst.files) ==>
              tm.Now() == Trio(ScanOf(dst.files, opt), dst.files, dst.files)
  {
    hide Opened, Healthy, Scrub.AnySkew, TreeManager.Sound, TreeManager.Fit, Trio.WeightAt, Disk.Valid, NoUnknown,
         ScannedFrom, LoadedFrom, Metadata.LoadText, DirectoryTree.Contents, DirsFirstIn, UsualLinks, ScanOf;
    var ok;
    ok, tm := OpenSession(cal, files, src, dst, opt);
    if !ok { tm := null; }
    if Healthy(cal, files.text1, files.text2, dst.files) {
      HealthyLoads(cal, files.text1, files.text2, dst);
      HealthyStart(tm, cal, files.text1, files.text2, src, dst, opt);
    }
    if tm != null {
      LoadedStart(tm, cal, files.text1, files.text2, dst, opt);
      if src != null { ScannedSource(tm.src, src, opt); }
    }
  }

  lemma ScannedSource(t: DirectoryTree, src: Disk, opt: Scan.ScanOpt)
    requires ScannedFrom(t, src, opt)
    ensures t.disk == src && t.Contents() == ScanOf(src.files, opt)
  {
  }

  /** The end of a scrub. */
  lemma ScrubOver(tm: TreeManager, cal: Calendar, x: string, y: string, files0: Catalog, src: Disk?, opt: Scan.ScanOpt,
                  fixup: bool, t0: Trio, w: Scrubbing, x': string, y': string)
    requires tm.Sound() && tm.dst.disk != null && tm.Now() == w.mid
    requires Usable(cal, x, y, files0) && Opened(cal, x, y, files0, opt, t0)
    requires Scrubbed(t0, Votes.Setting(SourceOf(src, opt), src != null, fixup), w)
    requires src != null ==> Writer.AllLegible(cal, src.files)
    requires tm.meta1.ordered == DirsFirstIn(cal, x) && tm.meta2.ordered == DirsFirstIn(cal, y)
    requires w.n == 1 && Writer.AllLegible(cal, tm.meta1.Contents()) ==>
               SavedFrom(cal, x', tm.meta1.State(), tm.meta1.ordered)
    requires w.n == 1 && Writer.AllLegible(cal, tm.meta2.Contents()) ==>
               SavedFrom(cal, y', tm.meta2.State(), tm.meta2.ordered)
    requires w.n != 1 ==> x' == x && y' == y
    requires Throughout(SourceOf(src, opt), t0) ==> Scrub.Hashed3(w.mid)
    ensures ScrubSaved(cal, x', y', tm.dst.disk.files, w, DirsFirstIn(cal, x), DirsFirstIn(cal, y),
                       Throughout(SourceOf(src, opt), t0))
  {
    hide Usable, Opened, Scrubbed, Throughout, SourceOf, DirsFirstIn, SavedFrom, Saved, Writer.AllLegible,
         TreeManager.Sound, DirectoryTree.Contents, DirectoryTree.Valid, DirectoryTree.State, Mirrors, AllSane,
         LinksUsual, ScrubSaved, Scrub.Hashed3;
    var g := Votes.Setting(SourceOf(src, opt), src != null, fixup);
    SoundDisk(tm);
    SourceLegible(cal, src, opt);
    UsableStart(cal, x, y, files0, opt, t0);
    ScrubLegible(cal, t0, g, w);
    if w.n == 1 {
      TreeSaved(tm.meta1, cal, x');
      TreeSaved(tm.meta2, cal, y');
    }
    ScrubKept(cal, x, y, files0, opt, t0, g, w, x', y', tm.dst.disk.files, Throughout(SourceOf(src, opt), t0));
  }

  /**
   * One scrub, from loading the metadata files to saving them, whatever the files say. It saves them just when it has
   * settled something, and they list what the scrub has left in the trees, apart from what the writer loses; with all
   * hashes known that is what is in the backup directory. What agrees it does not touch.
   */
  method ScrubRun(cal: Calendar, files: MetadataFiles, src: Disk?, dst: Disk, opt: Scan.ScanOpt, fixup: bool,
                  user: User)
      returns (r: Scrub.Outcome, ghost start: Trio, ghost w: Scrubbing)
    requires dst.Valid() && (src != null ==> src.Valid() && NoUnknown(src.files)) && src != dst
    requires Fits(cal, files.text1, files.text2)
    modifies files, dst, user
    ensures if Loads(cal, old(files.text1), old(files.text2))
            then Opened(cal, old(files.text1), old(files.text2), old(dst.files), opt, start)
            else r.Aborted? && dst.files == old(dst.files)
    ensures r.Code? ==> dst.Valid() && Mirrors(w.mid.a, dst.files) && Formed(w.mid) && r.n == w.n <= 2
    ensures r.Code? ==> Scrubbed(start, Votes.Setting(SourceOf(src, opt), src != null, fixup), w)
    ensures r == Scrub.Code(0) || !fixup ==> dst.files == old(dst.files)
    ensures r != Scrub.Code(1) ==> unchanged(files)
    ensures r.Code? ==> Votes.Heeded(w.log, user.answers, old(user.asked), user.asked)
    ensures var g := Votes.Setting(SourceOf(src, opt), src != null, fixup);
            r == Scrub.Code(1) ==>
              && files.bak1 == (if Votes.Wrote1(start, g, w.log) then Some(old(files.text1)) else old(files.bak1))
              && files.bak2 == (if Votes.Wrote2(start, g, w.log) then Some(old(files.text2)) else old(files.bak2))
    ensures Loads(cal, old(files.text1), old(files.text2)) && (forall p :: start.WeightAt(p) == 0)
            && !Scrub.AnySkew(start) ==>
              r == Scrub.Code(0)
    ensures Healthy(cal, old(files.text1), old(files.text2), old(dst.files)) ==> r == Scrub.Code(0)
    ensures Usable(cal, old(files.text1), old(files.text2), old(dst.files))
            && (src != null ==> Writer.AllLegible(cal, src.files)) && r.Code? ==>
              ScrubSaved(cal, files.text1, files.text2, dst.files, w, DirsFirstIn(cal, old(files.text1)),
                  DirsFirstIn(cal, old(files.text2)), Throughout(SourceOf(src, opt), start))
  {
    hide Loads, Fits, Opened, Healthy, Usable, ScrubSaved, Scrubbed, Mirrors, Scrub.AnySkew, Scrub.AnySplit,
         TreeManager.Sound, TreeManager.Source, TreeManager.Now, Trio.WeightAt, Disk.Valid, NoUnknown, ScannedFrom,
         LoadedFrom, Metadata.LoadText, DirectoryTree.Contents, SourceOf, DirsFirstIn, Writer.AllLegible,
         Replay.Alike, Replay.Tracks, SaneLinks, Backup.Ready, SavedFrom, AllHashed, Scrub.Hashed3, Legible3, Formed,
         Votes.Heeded, Votes.Wrote1, Votes.Wrote2;
    ghost var x, y, files0 := files.text1, files.text2, dst.files;
    start, w := Trio(map[], map[], map[]), Scrubbing(0, Trio(map[], map[], map[]), [], [0], {}, {});
    r := Scrub.Aborted;
    var tm := OpenRun(cal, files, src, dst, opt);
    if tm == null { return; }
    start := tm.Now();
    ghost var links;
    r, w, links := ScrubFirst(tm, fixup, user);
    if r.Aborted? { return; }
    CloseScrub(tm, cal, files, src, dst, opt, fixup, x, y, files0, start, w);
  }

  /** How every scrub ends that has not failed. */
  method CloseScrub(tm: TreeManager, cal: Calendar, files: MetadataFiles, ghost src: Disk?, ghost dst: Disk,
                    ghost opt: Scan.ScanOpt, ghost fixup: bool, ghost x: string, ghost y: string, ghost files0: Catalog,
                    ghost t0: Trio, ghost w: Scrubbing)
    requires tm.Sound() && tm.Now() == w.mid && tm.save == (w.n == 1) && tm.meta2TreePresent && tm.dst.disk == dst
    requires x == files.text1 && y == files.text2 && Opened(cal, x, y, files0, opt, t0)
    requires tm.meta1.ordered == DirsFirstIn(cal, x) && tm.meta2.ordered == DirsFirstIn(cal, y)
    requires Scrubbed(t0, Votes.Setting(SourceOf(src, opt), src != null, fixup), w)
    requires Throughout(SourceOf(src, opt), t0) ==> Scrub.Hashed3(w.mid)
    modifies files
    ensures dst.Valid() && Mirrors(w.mid.a, dst.files) && Formed(w.mid) && (w.n != 1 ==> unchanged(files))
    ensures files.bak1 == (if w.n == 1 && tm.meta1NeedsBackup then Some(x) else old(files.bak1))
    ensures files.bak2 == (if w.n == 1 && tm.meta2NeedsBackup then Some(y) else old(files.bak2))
    ensures Usable(cal, x, y, files0) && (src != null ==> Writer.AllLegible(cal, src.files)) ==>
              ScrubSaved(cal, files.text1, files.text2, dst.files, w, DirsFirstIn(cal, x), DirsFirstIn(cal, y),
                  Throughout(SourceOf(src, opt), t0))
  {
    hide Opened, Usable, ScrubSaved, Scrubbed, Mirrors, TreeManager.Sound, TreeManager.Now, Disk.Valid,
         DirectoryTree.Contents, SourceOf, DirsFirstIn, Writer.AllLegible, SavedFrom, Scrub.Hashed3, Throughout,
         LinksUsual, AllSane, DirectoryTree.Valid, DirectoryTree.State, Formed;
    Scrub.SoundFormed(tm);
    SoundDisk(tm);
    SaveMetadata(tm, cal, files);
    if Usable(cal, x, y, files0) && (src != null ==> Writer.AllLegible(cal, src.files)) {
      ScrubOver(tm, cal, x, y, files0, src, opt, fixup, t0, w, files.text1, files.text2);
    }
  }

  /** What a scrub has settled agrees with what the next scan finds without hashes. */
  lemma AgreedScan(t: Trio, s: Catalog, files: Catalog)
    requires Scrub.OnlyHalf(t, s, {}) && Mirrors(t.a, files)
    ensures var t' := t.(a := ScanOf(files, Scan.OmitHash));
            (forall p :: t'.WeightAt(p) == 0) && !Scrub.AnySkew(t')
  {
    var t' := t.(a := ScanOf(files, Scan.OmitHash));
    forall p ensures t'.WeightAt(p) == 0 && !Skewed(Look(t'.a, p), Look(t'.b, p), Look(t'.c, p), ALL) {
      assert t.WeightAt(p) == 0;
      Votes.SkewedExactly(Look(t'.a, p), Look(t'.b, p), Look(t'.c, p));
    }
  }

  lemma AgainOpened(cal: Calendar, x: string, y: string, files: Catalog, w: Scrubbing, t0: Trio, g: Votes.Setting,
                    t: Trio)
    requires Opened(cal, x, y, files, Scan.OmitHash, t) && Holds(cal, x, w.mid.b) && Holds(cal, y, w.mid.c)
    requires Scrubbed(t0, g, w) && w.n <= 1 && w.half == {} && Mirrors(w.mid.a, files) && Formed(w.mid)
    ensures (forall p :: t.WeightAt(p) == 0) && !Scrub.AnySkew(t)
  {
    hide Metadata.LoadText, ListingIs, InOrder, WellFormed, Mirrors, ScanOf, Trio.WeightAt, Scrub.AnySkew,
         Scrub.OnlyHalf, Scrub.Settled, Scrub.Spared, Scrub.MajorityAside, Scrub.HalfFrom, Votes.History, Votes.Calm;
    OneCatalog(Metadata.LoadText(cal, x).value, t.b, w.mid.b);
    OneCatalog(Metadata.LoadText(cal, y).value, t.c, w.mid.c);
    AgreedScan(w.mid, g.s, files);
  }

  /**
   * A scrub that has settled everything is not followed by another one that finds something, without hashes, and with
   * hashes if all of them were known.
   */
  method ScrubTwice(cal: Calendar, files: MetadataFiles, src: Disk?, dst: Disk, opt: Scan.ScanOpt, opt': Scan.ScanOpt,
                    fixup: bool, user: User)
      returns (r: Scrub.Outcome, r': Scrub.Outcome, ghost start: Trio, ghost w: Scrubbing)
    requires dst.Valid() && src != dst && Usable(cal, files.text1, files.text2, dst.files)
    requires src != null ==> src.Valid() && NoUnknown(src.files) && Writer.AllLegible(cal, src.files)
    modifies files, dst, user
    ensures Opened(cal, old(files.text1), old(files.text2), old(dst.files), opt, start)
    ensures r.Code? ==>
              r.n == w.n && Scrubbed(start, Votes.Setting(SourceOf(src, opt), src != null, fixup), w)
    ensures r.Code? && r.n <= 1 && w.half == {} && DirsFirstIn(cal, old(files.text1))
            && DirsFirstIn(cal, old(files.text2)) && (opt'.OmitHash? || Throughout(SourceOf(src, opt), start)) ==>
              r' == Scrub.Code(0)
  {
    hide Loads, Fits, Opened, Healthy, Usable, Scrubbed, Mirrors, Scrub.AnySkew, Trio.WeightAt, Disk.Valid, NoUnknown,
         SourceOf, DirsFirstIn, Writer.AllLegible, Throughout, Holds, WrittenFrom, Formed, Votes.Heeded, Votes.Wrote1,
         Votes.Wrote2;
    UsableFits(cal, files.text1, files.text2, dst.files);
    r, start, w := ScrubRun(cal, files, src, dst, opt, fixup, user);
    r' := Scrub.Aborted;
    if r.Code? {
      UsableFits(cal, files.text1, files.text2, dst.files);
      ghost var x, y, files0 := files.text1, files.text2, dst.files;
      ghost var start', w';
      r', start', w' := ScrubRun(cal, files, src, dst, opt', fixup, user);
      if r.n <= 1 && w.half == {} && opt'.OmitHash? && Holds(cal, x, w.mid.b) && Holds(cal, y, w.mid.c) {
        AgainOpened(cal, x, y, files0, w, start, Votes.Setting(SourceOf(src, opt), src != null, fixup), start');
      }
    }
  }

  // ---------- backups ----------

  /**
   * What the files say after a backup: `m` are the entries of the metadata, `files0` the backup directory after the
   * scrub, `files` that after the backup.
   */
  ghost predicate BackupSaved(cal: Calendar, x: string, y: string, m: Catalog, w: Scrubbing, files0: Catalog,
                              files: Catalog, first1: bool, hashAll: bool, hashed: bool) {
    && Usable(cal, x, y, files) && WrittenFrom(cal, x, m, first1) && WrittenFrom(cal, y, m, first1)
    && (first1 ==> Holds(cal, x, m) && Holds(cal, y, m))
    && (first1 && w.half == {} && (if hashAll then hashed else KnownRight(w.mid.b, files0)) ==>
          Healthy(cal, x, y, files))
  }

  /** If nothing was half updated, and the hashes were known to be right, the metadata are what is on disk. */
  lemma MetaMatches(tm: TreeManager, hashAll: bool, hashed: bool, w: Scrubbing, files0: Catalog, done: set<Path>,
                    skip: set<Path>, k: Talk, r: Scrub.Outcome)
    requires Finished(tm, hashAll, hashed, w.n, w.half, w.mid.a, w.mid.b, files0, done, skip, k, r) && w.half == {}
    requires if hashAll then hashed && AllHashed(tm.Source()) && AllHashed(w.mid.a) else KnownRight(w.mid.b, files0)
    ensures tm.dst.disk != null && tm.meta1.Contents() == tm.dst.disk.files
  {
    hide DirectoryTree.Contents, Mirrors, AllSane, Replay.Tracks, Replay.Delivered, HashAt, AllHashed, KnownRight,
         Backup.Ready, Followed, Reported2, Backup.Answered, Backup.Plainly, Replay.Alike;
    ReadyDisk(tm.src, tm.dst, tm.meta1);
    if hashAll {
      ReplayedHashed(tm.Source(), w.mid.a, w.mid.a, done, tm.dst.Contents());
      HashedMirror(tm.dst.Contents(), tm.dst.disk.files);
    } else {
      FilledHashes(tm.Source(), w.mid.a, w.mid.b, done, tm.meta1.Contents(), tm.dst.disk.files);
      MetaIsDisk(tm.dst.Contents(), tm.meta1.Contents(), tm.dst.disk.files);
    }
  }

  lemma SettledAlike(t0: Trio, g: Votes.Setting, w: Scrubbing)
    requires Scrubbed(t0, g, w) && w.n <= 1
    ensures Replay.Alike(w.mid.a, w.mid.b)
  {
    hide Votes.History, Scrub.Settled, Scrub.Spared, Scrub.MajorityAside, Scrub.HalfFrom, Votes.Calm, Scrub.OnlyHalf,
         Replay.Alike;
    SettledTracks(w.mid, g.s, w.half);
  }

  /** What a backup has made of the metadata and of the backup directory can be written. */
  lemma BackupLegible(tm: TreeManager, cal: Calendar, hashAll: bool, hashed: bool, w: Scrubbing, files0: Catalog,
                      done: set<Path>, skip: set<Path>, k: Talk, r: Scrub.Outcome)
    requires Finished(tm, hashAll, hashed, w.n, w.half, w.mid.a, w.mid.b, files0, done, skip, k, r)
    requires Legible3(cal, w.mid) && Mirrors(w.mid.a, files0) && AllSane(files0)
    requires Writer.AllLegible(cal, tm.src.disk.files) && Writer.AllLegible(cal, tm.Source())
    requires Replay.Alike(w.mid.a, w.mid.b) && SaneLinks(w.mid.b) && SaneLinks(tm.Source())
    ensures tm.meta1.Valid() && tm.dst.disk != null && tm.dst.disk.Valid()
    ensures Writer.AllLegible(cal, tm.dst.disk.files) && Writer.AllLegible(cal, tm.meta1.Contents())
    ensures LinksUsual(tm.meta1.Contents())
  {
    hide DirectoryTree.Contents, Mirrors, AllSane, Replay.Tracks, Replay.Delivered, HashAt, AllHashed, KnownRight,
         Followed, Reported2, Backup.Answered, Backup.Plainly, Replay.Alike, Writer.AllLegible, SaneLinks,
         DirectoryTree.Valid, WellFormed;
    ReadyDisk(tm.src, tm.dst, tm.meta1);
    LegibleDisk(cal, w.mid.a, files0);
    LegibleReplay(cal, tm.src.disk.files, tm.Source(), files0, w.mid.a, done, tm.dst.disk.files);
    LegibleFollowed(cal, tm.Source(), w.mid.a, w.mid.b, done, tm.dst.Contents(), tm.meta1.Contents(),
        tm.dst.disk.files, hashAll);
    LinksFollowed(tm.Source(), w.mid.a, w.mid.b, done, tm.meta1.Contents(), tm.dst.disk.files, hashAll);
  }

  /** The end of a backup. */
  lemma BackupOver(tm: TreeManager, cal: Calendar, x: string, y: string, old0: Catalog, src: Disk, hashAll: bool,
                   fixup: bool, t0: Trio, w: Scrubbing, files0: Catalog, done: set<Path>, skip: set<Path>,
                   k: Talk, r: Scrub.Outcome)
    requires Usable(cal, x, y, old0) && Opened(cal, x, y, old0, OptOf(hashAll), t0) && w.n <= 1
    requires tm.src.disk == src && tm.Source() == SourceOf(src, OptOf(hashAll)) && src.Valid()
    requires Writer.AllLegible(cal, src.files)
    requires Scrubbed(t0, Votes.Setting(SourceOf(src, OptOf(hashAll)), true, fixup), w)
    requires Finished(tm, hashAll, Throughout(tm.Source(), t0), w.n, w.half, w.mid.a, w.mid.b, files0, done, skip, k, r)
    requires Throughout(tm.Source(), t0) ==> Scrub.Hashed3(w.mid)
    requires Mirrors(w.mid.a, files0) && AllSane(files0) && SaneLinks(w.mid.b)
    ensures tm.meta1.Valid() && tm.dst.disk != null && tm.dst.disk.Valid()
    ensures Writer.AllLegible(cal, tm.dst.disk.files) && Writer.AllLegible(cal, tm.meta1.Contents())
    ensures LinksUsual(tm.meta1.Contents())
    ensures w.half == {} && (if hashAll then Throughout(tm.Source(), t0) else KnownRight(w.mid.b, files0)) ==>
              tm.meta1.Contents() == tm.dst.disk.files
  {
    hide Usable, Opened, Scrubbed, Finished, DirectoryTree.Contents, DirectoryTree.Valid, Writer.AllLegible, LinksUsual,
         Mirrors, AllSane, SaneLinks, KnownRight, AllHashed, Disk.Valid, ScanOf, Legible3;
    var hashed := Throughout(tm.Source(), t0);
    SourceLegible(cal, src, OptOf(hashAll));
    UsableStart(cal, x, y, old0, OptOf(hashAll), t0);
    ScrubLegible(cal, t0, Votes.Setting(SourceOf(src, OptOf(hashAll)), true, fixup), w);
    SettledAlike(t0, Votes.Setting(SourceOf(src, OptOf(hashAll)), true, fixup), w);
    ScannedLinks(src, OptOf(hashAll));
    FinishedDisk(tm, hashAll, hashed, w, files0, done, skip, k, r);
    BackupLegible(tm, cal, hashAll, hashed, w, files0, done, skip, k, r);
    if w.half == {} && (if hashAll then hashed else KnownRight(w.mid.b, files0)) {
      MetaMatches(tm, hashAll, hashed, w, files0, done, skip, k, r);
    }
  }

  lemma FinishedDisk(tm: TreeManager, hashAll: bool, hashed: bool, w: Scrubbing, files0: Catalog, done: set<Path>,
                     skip: set<Path>, k: Talk, r: Scrub.Outcome)
    requires Finished(tm, hashAll, hashed, w.n, w.half, w.mid.a, w.mid.b, files0, done, skip, k, r)
    ensures tm.src.disk != null && tm.dst.disk != null && tm.dst.disk.Valid() && r.Code? && tm.meta1.Valid()
  {
  }

  lemma BackupKept(tm: TreeManager, cal: Calendar, w: Scrubbing, files0: Catalog, files: Catalog, hashAll: bool,
                   hashed: bool, x: string, y: string)
    requires tm.meta1.Valid() && Writer.AllLegible(cal, files) && Writer.AllLegible(cal, tm.meta1.Contents())
    requires LinksUsual(tm.meta1.Contents())
    requires SavedFrom(cal, x, tm.meta1.State(), tm.meta1.ordered)
    requires SavedFrom(cal, y, tm.meta1.State(), tm.meta1.ordered)
    requires w.half == {} && (if hashAll then hashed else KnownRight(w.mid.b, files0)) ==> tm.meta1.Contents() == files
    ensures BackupSaved(cal, x, y, tm.meta1.Contents(), w, files0, files, tm.meta1.ordered, hashAll, hashed)
  {
    hide DirectoryTree.Contents, DirectoryTree.Valid, DirectoryTree.State, Writer.AllLegible, LinksUsual, SavedFrom,
         KnownRight, Holds, WrittenFrom, UsableText;
    TreeSaved(tm.meta1, cal, x);
    TreeSaved(tm.meta1, cal, y);
  }

  /**
   * What a backup from `from` makes of a healthy backup directory `files0`: source and backup directory are compared,
   * every difference is delivered, or skipped because of rot or an answer, and the result tells whether the source has
   * rotted.
   */
  ghost predicate CleanBackup(from: Catalog, files0: Catalog, files: Catalog, hashAll: bool, done: set<Path>,
                              skip: set<Path>, k: Talk, r: Scrub.Outcome) {
    var s, t0, t := ScanOf(from, OptOf(hashAll)), ScanOf(files0, OptOf(hashAll)), ScanOf(files, OptOf(hashAll));
    && r.Code? && Backup.Answered(s, t0, done, skip, k.asked, k.answers, k.n, r.n)
    && Backup.Plainly(s, t0, done, skip, r.n) && CopiedOrKept(from, s, t0, files0, done, files)
    && (forall p :: p in skip <==> Reported2(s, t, ALL, p))
    && (hashAll && skip == {} ==> files == from)
  }

  lemma EndsClean(tm: TreeManager, hashAll: bool, hashed: bool, w: Scrubbing, files0: Catalog, done: set<Path>,
                  skip: set<Path>, k: Talk, r: Scrub.Outcome)
    requires Finished(tm, hashAll, hashed, w.n, w.half, w.mid.a, w.mid.b, files0, done, skip, k, r)
    requires w.n == 0 && w.half == {} && w.mid.a == ScanOf(files0, OptOf(hashAll)) && (hashAll ==> hashed)
    requires tm.Source() == ScanOf(tm.src.disk.files, OptOf(hashAll)) && AllSane(files0)
    requires hashAll ==> AllHashed(tm.Source())
    ensures CleanBackup(tm.src.disk.files, files0, tm.dst.disk.files, hashAll, done, skip, k, r)
  {
    hide DirectoryTree.Valid, DirectoryTree.Contents, Mirrors, AllSane, Replay.Tracks, Replay.Delivered, HashAt,
         AllHashed, NoUnknown, KnownRight, WellFormed, ScanOf, Reported2, Replay.Alike, Backup.Answered,
         Backup.Plainly, CopiedOrKept, Unhashed, Followed, Backup.Ready;
    var code :| BackedUp(tm.Source(), w.mid.a, w.mid.b, tm.dst.Contents(), tm.meta1.Contents(), done, skip, k, code)
        && r == Scrub.Code(if code == 2 then 2 else w.n);
    BackedUpFacts(tm.Source(), w.mid.a, w.mid.b, tm.dst.Contents(), tm.meta1.Contents(), done, skip, k, code);
    DeliveredContent(tm.src.disk.files, tm.Source(), w.mid.a, files0, done, tm.dst.disk.files);
    ReadyDisk(tm.src, tm.dst, tm.meta1);
    CleanScan(files0, OptOf(hashAll));
    if hashAll {
      SaneHashed(files0);
      ReplayedHashed(tm.Source(), w.mid.a, w.mid.a, done, tm.dst.Contents());
      HashedMirror(tm.dst.Contents(), tm.dst.disk.files);
    } else {
      NoHashes(files0);
      NoHashes(tm.src.disk.files);
      ReplayedUnhashed(tm.Source(), w.mid.a, done, tm.dst.Contents());
      UnhashedMirror(tm.dst.Contents(), tm.dst.disk.files);
    }
    CleanScan(tm.dst.disk.files, OptOf(hashAll));
  }

  /** Where a session stands before its files are saved: after the backup, or after the scrub. */
  ghost predicate Ran(tm: TreeManager, src: Disk, dst: Disk, performed: bool, hashAll: bool, fixup: bool, t0: Trio,
                      w: Scrubbing, files0: Catalog, done: set<Path>, skip: set<Path>, k: Talk, r: Scrub.Outcome)
    reads tm, tm.src, tm.dst, tm.meta1, tm.meta2, tm.src.disk, tm.dst.disk, src
  {
    && tm.src.disk == src && tm.dst.disk == dst && tm.Source() == SourceOf(src, OptOf(hashAll))
    && Scrubbed(t0, Votes.Setting(SourceOf(src, OptOf(hashAll)), true, fixup), w)
    && (Throughout(tm.Source(), t0) ==> Scrub.Hashed3(w.mid))
    && if performed then
         && Finished(tm, hashAll, Throughout(tm.Source(), t0), w.n, w.half, w.mid.a, w.mid.b, files0, done, skip, k, r)
         && Mirrors(w.mid.a, files0) && AllSane(files0) && SaneLinks(w.mid.b) && tm.save && !tm.meta2TreePresent
         && w.n <= 1
       else
         tm.Sound() && tm.Now() == w.mid && tm.save == (w.n == 1) && tm.meta2TreePresent
  }

  /** How every backup ends that has not failed. */
  method CloseRun(tm: TreeManager, cal: Calendar, files: MetadataFiles, ghost src: Disk, ghost dst: Disk,
                  ghost performed: bool, ghost hashAll: bool, ghost fixup: bool, ghost x: string, ghost y: string,
                  ghost old0: Catalog, ghost t0: Trio, ghost w: Scrubbing, ghost files0: Catalog,
                  ghost done: set<Path>, ghost skip: set<Path>, ghost k: Talk, ghost r: Scrub.Outcome)
    requires Ran(tm, src, dst, performed, hashAll, fixup, t0, w, files0, done, skip, k, r) && src.Valid()
    requires x == files.text1 && y == files.text2
    requires Opened(cal, x, y, old0, OptOf(hashAll), t0)
    requires tm.meta1.ordered == DirsFirstIn(cal, x) && tm.meta2.ordered == DirsFirstIn(cal, y)
    modifies files
    ensures dst.Valid() && (!performed ==> Mirrors(w.mid.a, dst.files)) && (!performed && w.n != 1 ==> unchanged(files))
    ensures files.bak1 == (if tm.save && tm.meta1NeedsBackup then Some(x) else old(files.bak1))
    ensures files.bak2 == (if tm.save && tm.meta2NeedsBackup then Some(y) else old(files.bak2))
    ensures Usable(cal, x, y, old0) && Writer.AllLegible(cal, src.files) ==>
              if performed then
                BackupSaved(cal, files.text1, files.text2, tm.meta1.Contents(), w, files0, dst.files,
                    DirsFirstIn(cal, x), hashAll, Throughout(tm.Source(), t0))
              else
                ScrubSaved(cal, files.text1, files.text2, dst.files, w, DirsFirstIn(cal, x), DirsFirstIn(cal, y),
                    Throughout(SourceOf(src, OptOf(hashAll)), t0))
  {
    hide Opened, Usable, ScrubSaved, BackupSaved, Scrubbed, Finished, Mirrors, TreeManager.Sound, TreeManager.Source,
         TreeManager.Now, Disk.Valid, Metadata.LoadText, DirectoryTree.Contents, SourceOf, DirsFirstIn,
         Writer.AllLegible, SaneLinks, AllSane, SavedFrom, Scrub.Hashed3, Throughout, ScanOf, KnownRight, LinksUsual,
         DirectoryTree.Valid, DirectoryTree.State;
    ghost var fine := Usable(cal, x, y, old0) && Writer.AllLegible(cal, src.files);
    if performed {
      FinishedDisk(tm, hashAll, Throughout(tm.Source(), t0), w, files0, done, skip, k, r);
      if fine { BackupOver(tm, cal, x, y, old0, src, hashAll, fixup, t0, w, files0, done, skip, k, r); }
    } else {
      SoundDisk(tm);
    }
    SaveMetadata(tm, cal, files);
    if fine && performed {
      BackupKept(tm, cal, w, files0, dst.files, hashAll, Throughout(tm.Source(), t0), files.text1, files.text2);
    } else if fine {
      ScrubOver(tm, cal, x, y, old0, src, OptOf(hashAll), fixup, t0, w, files.text1, files.text2);
    }
  }

  /**
   * One backup, from loading the metadata files to saving them, whatever the files say. On a healthy backup, whatever
   * the options, the answers and the source, the scrub finds nothing, the backup is performed, and it leaves the backup
   * healthy. On any other, the files list the metadata that describe the new backup; they are healthy if nothing was
   * half updated and the hashes were all known, or known to be right.
   */
  method BackupRun(cal: Calendar, files: MetadataFiles, src: Disk, dst: Disk, fixup: bool, hashAll: bool, user: User)
      returns (r: Scrub.Outcome, performed: bool, tm: TreeManager?, ghost start: Trio, ghost w: Scrubbing,
               ghost done: set<Path>, ghost skip: set<Path>, ghost k: Talk, ghost files0: Catalog)
    requires dst.Valid() && src.Valid() && NoUnknown(src.files) && src != dst && Fits(cal, files.text1, files.text2)
    modifies files, dst, user
    ensures r.Code? ==> Obeyed(user.answers, old(user.asked), user.asked, w, performed, k)
    ensures var g := Votes.Setting(SourceOf(src, OptOf(hashAll)), true, fixup);
            r.Code? ==>
              && files.bak1 == (if w.n == 1 && Votes.Wrote1(start, g, w.log) then Some(old(files.text1))
                                else old(files.bak1))
              && files.bak2 == (if w.n == 1 && Votes.Wrote2(start, g, w.log) then Some(old(files.text2))
                                else old(files.bak2))
    ensures if Loads(cal, old(files.text1), old(files.text2))
            then tm != null && Opened(cal, old(files.text1), old(files.text2), old(dst.files), OptOf(hashAll), start)
            else r.Aborted? && unchanged(files) && dst.files == old(dst.files)
    ensures performed || r.Code? ==>
              tm != null && Scrubbed(start, Votes.Setting(SourceOf(src, OptOf(hashAll)), true, fixup), w) && dst.Valid()
    ensures !performed && r.Code? ==> r == Scrub.Code(w.n) && 1 <= w.n <= 2 && Mirrors(w.mid.a, dst.files)
    ensures performed ==>
              && r.Code? && w.n <= 1 && tm.src.disk == src && tm.dst.disk == dst
              && tm.Source() == SourceOf(src, OptOf(hashAll))
              && Finished(tm, hashAll, Throughout(tm.Source(), start), w.n, w.half, w.mid.a, w.mid.b, files0, done,
                  skip, k, r)
    ensures !performed && (r == Scrub.Code(2) || (r.Aborted? && !fixup)) ==> unchanged(files)
    ensures Usable(cal, old(files.text1), old(files.text2), old(dst.files)) && Writer.AllLegible(cal, src.files)
            && performed ==>
              BackupSaved(cal, files.text1, files.text2, tm.meta1.Contents(), w, files0, dst.files,
                  DirsFirstIn(cal, old(files.text1)), hashAll, Throughout(tm.Source(), start))
    ensures Usable(cal, old(files.text1), old(files.text2), old(dst.files)) && Writer.AllLegible(cal, src.files)
            && !performed && r.Code? ==>
              ScrubSaved(cal, files.text1, files.text2, dst.files, w, DirsFirstIn(cal, old(files.text1)),
                  DirsFirstIn(cal, old(files.text2)), Throughout(SourceOf(src, OptOf(hashAll)), start))
    ensures Healthy(cal, old(files.text1), old(files.text2), old(dst.files)) ==>
              performed && w.n == 0 && CleanBackup(src.files, old(dst.files), dst.files, hashAll, done, skip, k, r)
    ensures Healthy(cal, old(files.text1), old(files.text2), old(dst.files)) && Writer.AllLegible(cal, src.files)
            && Writer.AllLegible(cal, old(dst.files)) ==>
              Healthy(cal, files.text1, files.text2, dst.files)
  {
    hide Loads, Fits, Opened, Healthy, Usable, ScrubSaved, BackupSaved, Scrubbed, Finished, Mirrors, Scrub.AnySkew,
         TreeManager.Sound, TreeManager.Source, TreeManager.Now, Trio.WeightAt, Disk.Valid, NoUnknown,
         Metadata.LoadText, DirectoryTree.Contents, SourceOf, DirsFirstIn, Writer.AllLegible, CleanBackup, Throughout,
         ScanOf, Ran, DirectoryTree.Unindexed, AllSane, Votes.Wrote1, Votes.Wrote2, Obeyed;
    ghost var x, y, old0 := files.text1, files.text2, dst.files;
    r, performed, done, skip, k, files0 := Scrub.Aborted, false, {}, {}, Talk([], user.answers, 0), map[];
    start, w := Trio(map[], map[], map[]), Scrubbing(0, Trio(map[], map[], map[]), [], [0], {}, {});
    ValidSane(dst);
    tm := OpenRun(cal, files, src, dst, OptOf(hashAll));
    if tm == null { return; }
    start := tm.Now();
    r, performed, w, done, skip, k, files0 := SessionRun(tm, src, dst, fixup, hashAll, user);
    if r.Aborted? { return; }
    RanFacts(tm, src, dst, performed, hashAll, fixup, start, w, files0, done, skip, k, r);
    CloseRun(tm, cal, files, src, dst, performed, hashAll, fixup, x, y, old0, start, w, files0, done, skip, k, r);
    if Healthy(cal, x, y, old0) {
      HealthyEnds(tm, cal, x, y, files.text1, files.text2, old0, src, dst, hashAll, fixup, start, w, done, skip, k, r);
    }
  }

  lemma ValidSane(dst: Disk)
    requires dst.Valid()
    ensures AllSane(dst.files)
  {
  }

  /** The session of a run that was opened. */
  method SessionRun(tm: TreeManager, ghost src: Disk, ghost dst: Disk, fixup: bool, hashAll: bool, user: User)
      returns (r: Scrub.Outcome, performed: bool, ghost w: Scrubbing, ghost done: set<Path>, ghost skip: set<Path>,
               ghost k: Talk, ghost files0: Catalog)
    requires tm.Sound() && tm.srcTreePresent && tm.dst.Unindexed() == {} && tm.meta2TreePresent && !tm.save
    requires tm.src.disk == src && tm.dst.disk == dst && tm.Source() == SourceOf(src, OptOf(hashAll)) && src != dst
    requires !tm.meta1NeedsBackup && !tm.meta2NeedsBackup
    modifies tm, tm.dst, tm.meta1, tm.meta2, dst, user
    ensures performed ==> r.Code?
    ensures r.Code? ==> Obeyed(user.answers, old(user.asked), user.asked, w, performed, k)
    ensures var g := Votes.Setting(SourceOf(src, OptOf(hashAll)), true, fixup);
            r.Code? ==>
              && tm.meta1NeedsBackup == (w.n == 1 && Votes.Wrote1(old(tm.Now()), g, w.log))
              && tm.meta2NeedsBackup == (w.n == 1 && Votes.Wrote2(old(tm.Now()), g, w.log))
    ensures r.Code? ==> Ran(tm, src, dst, performed, hashAll, fixup, old(tm.Now()), w, files0, done, skip, k, r)
    ensures !performed && r.Code? ==> r == Scrub.Code(w.n) && 1 <= w.n <= 2
    ensures (forall p :: old(tm.Now()).WeightAt(p) == 0) && !Scrub.AnySkew(old(tm.Now())) ==>
              performed && w.n == 0 && w.half == {} && w.mid == old(tm.Now()) && files0 == old(dst.files)
  {
    hide Scrubbed, Finished, Mirrors, Scrub.AnySkew, Scrub.AnySplit, TreeManager.Sound, TreeManager.Source,
         TreeManager.Now, Trio.WeightAt, DirectoryTree.Contents, SourceOf, SaneLinks, AllSane, Backup.AllBelow,
         AllHashed, Scrub.Hashed3, DirectoryTree.Unindexed, Votes.Wrote1, Votes.Wrote2, Obeyed;
    Scrub.SoundFormed(tm);
    ghost var links;
    r, performed, w, links, done, skip, k, files0 := BackupSession(tm, fixup, hashAll, user);
    if performed { FinishedCode(tm, hashAll, w, files0, done, skip, k, r); }
  }

  lemma FinishedCode(tm: TreeManager, hashAll: bool, w: Scrubbing, files0: Catalog, done: set<Path>, skip: set<Path>,
                     k: Talk, r: Scrub.Outcome)
    ensures forall hashed ::
              Finished(tm, hashAll, hashed, w.n, w.half, w.mid.a, w.mid.b, files0, done, skip, k, r) ==> r.Code?
  {
  }

  lemma RanFacts(tm: TreeManager, src: Disk, dst: Disk, performed: bool, hashAll: bool, fixup: bool, t0: Trio,
                 w: Scrubbing, files0: Catalog, done: set<Path>, skip: set<Path>, k: Talk, r: Scrub.Outcome)
    requires Ran(tm, src, dst, performed, hashAll, fixup, t0, w, files0, done, skip, k, r)
    ensures tm.src.disk == src && tm.dst.disk == dst && tm.Source() == SourceOf(src, OptOf(hashAll))
    ensures Scrubbed(t0, Votes.Setting(SourceOf(src, OptOf(hashAll)), true, fixup), w)
    ensures tm.save == (performed || w.n == 1)
    ensures performed ==>
              && w.n <= 1
              && Finished(tm, hashAll, Throughout(tm.Source(), t0), w.n, w.half, w.mid.a, w.mid.b, files0, done,
                          skip, k, r)
  {
    hide Scrubbed, Finished, Throughout, SourceOf, TreeManager.Source;
  }

  /** A backup of a healthy backup directory. */
  lemma HealthyEnds(tm: TreeManager, cal: Calendar, x: string, y: string, x': string, y': string, files0: Catalog,
                    src: Disk, dst: Disk, hashAll: bool, fixup: bool, t0: Trio, w: Scrubbing, done: set<Path>,
                    skip: set<Path>, k: Talk, r: Scrub.Outcome)
    requires Healthy(cal, x, y, files0) && AllSane(files0) && src.Valid()
    requires Ran(tm, src, dst, true, hashAll, fixup, t0, w, files0, done, skip, k, r) && w.n == 0 && w.half == {}
    requires w.mid == t0 == Trio(ScanOf(files0, OptOf(hashAll)), files0, files0)
    requires Usable(cal, x, y, files0) && Writer.AllLegible(cal, src.files) ==>
               BackupSaved(cal, x', y', tm.meta1.Contents(), w, files0, dst.files, DirsFirstIn(cal, x), hashAll,
                   Throughout(tm.Source(), t0))
    ensures CleanBackup(src.files, files0, dst.files, hashAll, done, skip, k, r)
    ensures Writer.AllLegible(cal, src.files) && Writer.AllLegible(cal, files0) ==> Healthy(cal, x', y', dst.files)
  {
    hide Healthy, Usable, Scrubbed, Finished, Mirrors, TreeManager.Sound, TreeManager.Now, DirectoryTree.Contents,
         DirsFirstIn, Writer.AllLegible, CleanBackup, ScanOf, SaneLinks, AllSane, KnownRight, WrittenFrom, Holds,
         AllHashed, Scrub.Hashed3, Disk.Valid;
    HealthyKnown(cal, x, y, files0, src, hashAll);
    EndsClean(tm, hashAll, Throughout(tm.Source(), t0), w, files0, done, skip, k, r);
  }

  /** What is known of a healthy backup before anything is done. */
  lemma HealthyKnown(cal: Calendar, x: string, y: string, files: Catalog, src: Disk, hashAll: bool)
    requires Healthy(cal, x, y, files) && AllSane(files) && src.Valid()
    ensures DirsFirstIn(cal, x) && KnownRight(files, files)
    ensures Writer.AllLegible(cal, files) ==> Usable(cal, x, y, files)
    ensures hashAll ==> Throughout(SourceOf(src, OptOf(hashAll)), Trio(ScanOf(files, OptOf(hashAll)), files, files))
  {
    hide Metadata.LoadText, ListingIs, InOrder, AllHashed, ScanOf, WellFormed, Writer.AllLegible, Usable, KnownRight,
         AllSane;
    CleanScan(files, OptOf(hashAll));
    if Writer.AllLegible(cal, files) { HealthyUsable(cal, x, y, files); }
    if hashAll {
      CleanScan(src.files, Scan.ComputeHash);
      SaneHashed(files);
      SaneHashed(src.files);
    }
  }

  /** One backup of a sequence: the source as it is at the time, and the options. */
  datatype Run = Run(src: Disk, fixup: bool, hashAll: bool)

  /**
   * Backups with and without hashes can follow one another in any order, until one of them fails: metadata files and
   * backup directory stay fit for the next one, and a healthy backup stays healthy, and then none of them fails.
   */
  method BackupRuns(cal: Calendar, files: MetadataFiles, dst: Disk, runs: seq<Run>, user: User) returns (k: nat)
    requires dst.Valid() && Usable(cal, files.text1, files.text2, dst.files)
    requires forall r :: r in runs ==>
             r.src != dst && r.src.Valid() && NoUnknown(r.src.files) && Writer.AllLegible(cal, r.src.files)
    modifies files, dst, user
    ensures k <= |runs|
    ensures k == |runs| ==> dst.Valid() && Usable(cal, files.text1, files.text2, dst.files)
    ensures Healthy(cal, old(files.text1), old(files.text2), old(dst.files)) ==>
              k == |runs| && Healthy(cal, files.text1, files.text2, dst.files)
  {
    hide Healthy, Usable, Fits, Loads, Opened, Finished, Scrubbed, CleanBackup, ScanOf, Disk.Valid, NoUnknown,
         Writer.AllLegible, Throughout, SourceOf, DirsFirstIn, Mirrors, Holds, WrittenFrom, Obeyed, Votes.Wrote1,
         Votes.Wrote2;
    for i := 0 to |runs|
      invariant dst.Valid() && Usable(cal, files.text1, files.text2, dst.files)
      invariant Healthy(cal, old(files.text1), old(files.text2), old(dst.files)) ==>
                  Healthy(cal, files.text1, files.text2, dst.files)
      invariant forall r :: r in runs ==>
                r.src != dst && r.src.Valid() && NoUnknown(r.src.files) && Writer.AllLegible(cal, r.src.files)
    {
      assert runs[i] in runs;
      UsableFits(cal, files.text1, files.text2, dst.files);
      UsableDisk(cal, files.text1, files.text2, dst.files);
      var r, performed, tm;
      ghost var start, w, done, skip, talk, files0;
      r, performed, tm, start, w, done, skip, talk, files0 := BackupRun(cal, files, runs[i].src, dst, runs[i].fixup,
                                                                        runs[i].hashAll, user);
      if r.Aborted? { return i; }
    }
    k := |runs|;
  }

  lemma UsableDisk(cal: Calendar, x: string, y: string, files: Catalog)
    requires Usable(cal, x, y, files)
    ensures Writer.AllLegible(cal, files)
  {
  }

  // ---------- the first files ----------

  /** The first metadata files come from a listing of the backup directory with hashes. */
  method MakeMetadata(cal: Calendar, dst: Disk, files: MetadataFiles)
    requires dst.Valid() && Writer.AllLegible(cal, dst.files)
    modifies files
    ensures Healthy(cal, files.text1, files.text2, dst.files)
  {
    hide Writer.AllLegible, ScannedFrom, Disk.Valid, DirectoryTree.Contents, DirectoryTree.Valid, Metadata.LoadText,
         Linked, ListsOf, ScanOf, Writer.Written, Holds;
    var t := ScanTree(dst, Scan.ComputeHash);
    CleanScan(dst.files, Scan.ComputeHash);
    ScannedWhole(t, dst);
    files.text1 := SaveTree(t, cal);
    files.text2 := files.text1;
    SavedHolds(t, cal, files.text1);
  }

  lemma ScannedWhole(t: DirectoryTree, dst: Disk)
    requires ScannedFrom(t, dst, Scan.ComputeHash)
    ensures t.Valid() && t.ordered && t.Contents() == ScanOf(dst.files, Scan.ComputeHash)
  {
  }
}
