/** The trees of a backup, and the repairs of a scrub. */
module Manager {
  import opened Elements
  import opened Catalogs
  import opened Disks
  import opened Trees
  import opened Diffs
  import opened Ranks
  import opened Repairs
  import opened Users

  /** Set what differs between `from` and `ref` in an entry, in the tree and on disk. */
  method UpdateOnDisk(t: DirectoryTree, p: Path, from: Element, ref: Element) returns (ok: bool)
    requires t.Valid() && t.Mirrored() && t.Finds(p)
    requires t.Contents()[p].ty.Symlink? ==> from.per == ref.per || from.per == LINK_PERM
    modifies t`store, t.disk
    ensures ok && t.Valid() && t.Mirrored()
    ensures t.Contents() == old(t.Contents())[p := Merge(old(t.Contents())[p], from, ref)]
    ensures p in old(t.disk.files) && t.disk.files == old(t.disk.files)[p := Merge(old(t.disk.files)[p], from, ref)]
  {
    hide DirectoryTree.Valid, DirectoryTree.Contents, DirectoryTree.Mirrored;
    ok := SetPermissions(t, p, from, ref);
    if !ok { return; }
    ok := SetOwner(t, p, from, ref);
    if !ok { return; }
    ok := SetMtime(t, p, from, ref);
  }

  method SetPermissions(t: DirectoryTree, p: Path, from: Element, ref: Element) returns (ok: bool)
    requires t.Valid() && t.Mirrored() && t.Finds(p)
    requires t.Contents()[p].ty.Symlink? ==> from.per == ref.per || from.per == LINK_PERM
    modifies t`store, t.disk
    ensures ok && t.Valid() && t.Mirrored()
    ensures t.Contents() == old(t.Contents())[p := MergePer(old(t.Contents())[p], from, ref)]
    ensures p in old(t.disk.files) && t.disk.files == old(t.disk.files)[p := MergePer(old(t.disk.files)[p], from, ref)]
  {
    hide DirectoryTree.Valid, DirectoryTree.Contents, Disk.Valid, Mirrors;
    OnDisk(t, p);
    ok := true;
    if from.per != ref.per {
      ok := t.ModifyPermissionsInTreeAndFilesystem(p, from.per);
    }
  }

  method SetOwner(t: DirectoryTree, p: Path, from: Element, ref: Element) returns (ok: bool)
    requires t.Valid() && t.Mirrored() && t.Finds(p)
    modifies t`store, t.disk
    ensures ok && t.Valid() && t.Mirrored()
    ensures t.Contents() == old(t.Contents())[p := MergeOwner(old(t.Contents())[p], from, ref)]
    ensures p in old(t.disk.files)
    ensures t.disk.files == old(t.disk.files)[p := MergeOwner(old(t.disk.files)[p], from, ref)]
  {
    hide DirectoryTree.Valid, DirectoryTree.Contents, Disk.Valid, Mirrors;
    OnDisk(t, p);
    ok := true;
    if from.us != ref.us || from.gs != ref.gs {
      ok := t.ModifyOwnerInTreeAndFilesystem(p, from.us, from.gs);
    }
  }

  method SetMtime(t: DirectoryTree, p: Path, from: Element, ref: Element) returns (ok: bool)
    requires t.Valid() && t.Mirrored() && t.Finds(p)
    modifies t`store, t.disk
    ensures ok && t.Valid() && t.Mirrored()
    ensures t.Contents() == old(t.Contents())[p := MergeTime(old(t.Contents())[p], from, ref)]
    ensures p in old(t.disk.files) && t.disk.files == old(t.disk.files)[p := MergeTime(old(t.disk.files)[p], from, ref)]
  {
    hide DirectoryTree.Valid, DirectoryTree.Contents, Disk.Valid, Mirrors;
    OnDisk(t, p);
    ok := true;
    if from.mt != ref.mt {
      ok := t.ModifyMtimeInTreeAndFilesystem(p, from.mt);
    }
  }

  lemma OnDisk(t: DirectoryTree, p: Path)
    requires t.Valid() && t.Mirrored() && t.Finds(p)
    ensures p in t.disk.files && (t.Contents()[p].ty.Symlink? ==> t.disk.files[p].per == LINK_PERM)
  {
    assert Reflects(t.Contents()[p], t.disk.files[p]) && Sane(t.disk.files[p]);
  }

  /** Set what differs between `from` and `ref` in an entry of a tree. */
  method UpdateInTree(t: DirectoryTree, p: Path, from: Element, ref: Element) returns (ok: bool)
    requires t.Valid() && t.Finds(p)
    modifies t`store
    ensures ok && t.Valid()
    ensures t.Contents() == old(t.Contents())[p := Merge(old(t.Contents())[p], from, ref)]
  {
    hide DirectoryTree.Valid, DirectoryTree.Contents;
    ok := true;
    if from.per != ref.per {
      ok := t.ModifyPermissionsInTree(p, from.per);
    }
    if ok && (from.us != ref.us || from.gs != ref.gs) {
      ok := t.ModifyOwnerInTree(p, from.us, from.gs);
    }
    if ok && from.mt != ref.mt {
      ok := t.ModifyMtimeInTree(p, from.mt);
    }
  }

  class TreeManager {
    const src: DirectoryTree
    const dst: DirectoryTree
    const meta1: DirectoryTree
    const meta2: DirectoryTree
    const srcTreePresent: bool
    var meta2TreePresent: bool
    var save: bool
    var meta1NeedsBackup: bool
    var meta2NeedsBackup: bool

    constructor (src: DirectoryTree, dst: DirectoryTree, meta1: DirectoryTree, meta2: DirectoryTree,
                 srcTreePresent: bool)
      ensures this.src == src && this.dst == dst && this.meta1 == meta1 && this.meta2 == meta2
      ensures this.srcTreePresent == srcTreePresent && meta2TreePresent
      ensures !save && !meta1NeedsBackup && !meta2NeedsBackup
    {
      this.src, this.dst, this.meta1, this.meta2, this.srcTreePresent := src, dst, meta1, meta2, srcTreePresent;
      meta2TreePresent, save, meta1NeedsBackup, meta2NeedsBackup := true, false, false, false;
    }

    ghost function Now(): Trio
      reads dst, meta1, meta2
    {
      Trio(dst.Contents(), meta1.Contents(), meta2.Contents())
    }

    ghost function Source(): Catalog
      reads src
    {
      src.Contents()
    }

    /** The backup describes its directory, and so does the source, if it is there. */
    ghost predicate Fit()
      reads src, dst, meta1, meta2, dst.disk, src.disk
    {
      && src != dst && src != meta1 && src != meta2 && dst != meta1 && dst != meta2 && meta1 != meta2
      && src.Valid() && dst.Valid() && meta1.Valid() && meta2.Valid()
      && src.Unindexed() == {} && meta1.Unindexed() == {} && meta2.Unindexed() == {}
      && dst.Mirrored()
      && (srcTreePresent ==> src.Mirrored() && src.disk != dst.disk)
      && NoUnknown(Source()) && SaneLinks(Source())
    }

    ghost predicate Sound()
      reads src, dst, meta1, meta2, dst.disk, src.disk
    {
      Fit() && SaneLinks(Now().a) && SaneLinks(Now().b) && SaneLinks(Now().c)
    }

    /** Backup and metadata as a scrub sees them when the links in `hidden` are not in the index of the backup. */
    ghost function View(hidden: set<Path>): Trio
      reads dst, meta1, meta2
    {
      Hiding(Now(), hidden)
    }

    /** What a look at the trees sees now. */
    ghost function Sight(): Trio
      reads dst, meta1, meta2
    {
      View(dst.Unindexed())
    }

    method ReplaceMeta(t: DirectoryTree, p: Path) returns (ok: bool)
      requires t.Valid() && src.Valid() && t != src && t.Unindexed() == {} && src.Unindexed() == {}
      requires p in Source() && p in t.Contents()
      modifies t
      ensures ok && t.Valid() && t.Unindexed() == {} && t.Contents() == Replaced(old(t.Contents()), Source(), p)
      ensures t.disk == old(t.disk)
    {
      hide DirectoryTree.Valid, DirectoryTree.Contents, Cut, Subtree, IsDir;
      ParentOutside(t, p);
      ok := t.RemoveFromTree(p);
      if !ok { return; }
      ok := t.TreeCopy(src, p);
    }

    // ---------- the steps that repairs are made of ----------

    /** Fails if the backup directory has the name already. */
    method CopyToBackup(p: Path) returns (ok: bool)
      requires Fit() && srcTreePresent && p in Source() && p.In? && IsDir(dst.Contents(), p.dir)
      modifies dst, dst.disk
      ensures ok <==> p !in old(dst.Contents())
      ensures Fit() && dst.disk == old(dst.disk) && dst.Unindexed() == old(dst.Unindexed())
      ensures ok ==> dst.Contents() == old(dst.Contents()) + Subtree(Source(), p)
    {
      hide DirectoryTree.Valid, DirectoryTree.Contents, IsDir, Disk.Valid, Mirrors, SaneLinks;
      ok := dst.CopyFromTreeAndFilesystem(src, p);
    }

    /** Fails if a link at or below `p` is missing from the index. */
    method RemoveFromBackup(p: Path) returns (ok: bool)
      requires Fit() && dst.Finds(p)
      modifies dst, dst.disk
      ensures (ok <==> old(dst.Whole(p))) && dst.disk == old(dst.disk)
      ensures ok ==> Fit() && dst.Unindexed() == old(dst.Unindexed()) && dst.Contents() == Cut(old(dst.Contents()), p)
    {
      hide DirectoryTree.Valid, DirectoryTree.Contents, Cut, Disk.Valid, Mirrors, SaneLinks, NoUnknown;
      ok := dst.RemoveFromTreeAndFilesystem(p);
    }

    method ReplaceInBackup(p: Path) returns (ok: bool)
      requires Fit() && srcTreePresent && p in Source() && dst.Finds(p)
      modifies dst, dst.disk
      ensures (ok <==> old(dst.Whole(p))) && dst.disk == old(dst.disk)
      ensures ok ==> Fit() && dst.Unindexed() == old(dst.Unindexed())
      ensures ok ==> dst.Contents() == Replaced(old(dst.Contents()), Source(), p)
    {
      hide Fit, DirectoryTree.Contents, Cut, Subtree, IsDir, DirectoryTree.Whole;
      OutsideBackup(p);
      ok := RemoveFromBackup(p);
      if !ok { return; }
      ok := CopyToBackup(p);
    }

    lemma OutsideBackup(p: Path)
      requires Fit() && p in dst.Contents()
      ensures src != dst && p.In? && IsDir(Cut(dst.Contents(), p), p.dir) && p !in Cut(dst.Contents(), p)
    {
      ParentOutside(dst, p);
    }

    /** Set what differs between `from` and `ref` in the backup entry. */
    method UpdateBackup(p: Path, from: Element, ref: Element) returns (ok: bool)
      requires Fit() && dst.Finds(p)
      requires dst.Contents()[p].ty.Symlink? ==> from.per == ref.per || from.per == LINK_PERM
      modifies dst, dst.disk
      ensures ok && Fit() && dst.disk == old(dst.disk) && dst.Unindexed() == old(dst.Unindexed())
      ensures dst.Contents() == old(dst.Contents())[p := Merge(old(dst.Contents())[p], from, ref)]
    {
      hide DirectoryTree.Valid, DirectoryTree.Contents, Disk.Valid, Mirrors, SaneLinks, NoUnknown, Merge;
      ok := UpdateOnDisk(dst, p, from, ref);
    }

    method ReplaceMetas(p: Path) returns (ok: bool)
      requires Fit() && p in Source() && p in meta1.Contents() && p in meta2.Contents()
      modifies meta1, meta2
      ensures ok && Fit()
      ensures meta1.Contents() == Replaced(old(meta1.Contents()), Source(), p)
      ensures meta2.Contents() == Replaced(old(meta2.Contents()), Source(), p)
    {
      hide DirectoryTree.Valid, DirectoryTree.Contents, Disk.Valid, Mirrors, SaneLinks, NoUnknown, Replaced;
      ok := ReplaceMeta(meta1, p);
      if !ok { return; }
      ok := ReplaceMeta(meta2, p);
    }

    method UpdateMetas(p: Path, from: Element, ref: Element) returns (ok: bool)
      requires Fit() && p in meta1.Contents() && p in meta2.Contents()
      modifies meta1, meta2
      ensures ok && Fit()
      ensures meta1.Contents() == old(meta1.Contents())[p := Merge(old(meta1.Contents())[p], from, ref)]
      ensures meta2.Contents() == old(meta2.Contents())[p := Merge(old(meta2.Contents())[p], from, ref)]
    {
      hide DirectoryTree.Valid, DirectoryTree.Contents, Disk.Valid, Mirrors, SaneLinks, NoUnknown, Merge;
      ok := UpdateInTree(meta1, p, from, ref);
      if !ok { return; }
      ok := UpdateInTree(meta2, p, from, ref);
    }

    lemma AllFormed()
      requires Fit()
      ensures Formed(Now()) && WellFormed(Source())
    {
      src.Facts();
      dst.Facts();
      meta1.Facts();
      meta2.Facts();
    }

    // ---------- repairs of the backup ----------

    /** `d` is the line of `p`, on which the metadata files outvote what is seen of the backup. */
    ghost predicate At(d: Line3, p: Path)
      reads src, dst, meta1, meta2, dst.disk, src.disk
    {
      && Sound() && p.In? && d == LineAt3(dst.Seen(), Now().b, Now().c, p)
      && SameOpt(d.b, d.c) && !SameOpt(d.a, d.b)
      && (d.b.Some? ==> IsDir(Now().a, p.dir))
    }

    /**
     * The repair gets stuck on a link that was made without indexing it: the name is taken, or something above the link
     * has to be removed.
     */
    ghost predicate Jammed(d: Line3, p: Path)
      reads src, dst
    {
      var i := Look(Source(), p);
      !Helpless(srcTreePresent, i, d.a, d.b) && (p in dst.Unindexed() || (!dst.Whole(p) && Removes(i, d.a, d.b)))
    }

    /** The user is asked before the line is repaired. */
    ghost predicate Doubtful(d: Line3, p: Path)
      reads src
    {
      Questioned(srcTreePresent, Look(Source(), p), d.a, d.b)
    }

    /**
     * It failed just where only the source could help and cannot, or where the user was asked and said no; otherwise it
     * is the repair of the line, with its result.
     */
    ghost predicate Chosen(t: Trio, t': Trio, d: Line3, p: Path, yes: bool, r: Fixup)
      reads src
    {
      && (p in t.b ==> p in t.c)
      && t' == (if r.Failed? then t else RepairOf(t, Source(), p))
      && (r.Failed? <==> Helpless(srcTreePresent, Look(Source(), p), d.a, d.b) || (Doubtful(d, p) && !yes))
      && (!r.Failed? ==> r == ResultOf(Look(Source(), p), d.a, d.b))
      && (!(r.SuccessMeta? || r.SuccessDiffMeta?) ==> t'.b == t.b && t'.c == t.c)
    }

    /** The entry is missing in the backup, or at least not seen there. */
    method FixMissing(d: Line3, p: Path) returns (r: Fixup)
      requires At(d, p) && d.a.None?
      modifies dst, meta1, meta2, dst.disk
      ensures (r.Threw? <==> old(Jammed(d, p))) && dst.disk == old(dst.disk)
      ensures old(p in dst.Unindexed()) ==> r.Threw? || r.Failed?
      ensures !r.Threw? ==> Fit() && Repaired(old(Now()), Now(), Source(), p, r, false)
      ensures (!r.Threw? ==> Chosen(old(Now()), Now(), d, p, true, r)) && !Doubtful(d, p)
      ensures !r.Threw? ==>
                dst.Unindexed() == old(dst.Unindexed()) + if r.Success? && Relinks(d.a, d.b) then {p} else {}
    {
      hide Fit, DirectoryTree.Contents, Repaired, Formed, IsDir, SaneLinks, Subtree, Replaced, Merge, Cut,
           DirectoryTree.Whole;
      AllFormed();
      LineFacts(d, p);
      var e := d.b.value;
      EntryFacts(p);
      if e.ty.Symlink? {
        r := Relink(e);
        return;
      }
      if !srcTreePresent {
        NotRepaired(Now(), Source(), p);
        return Failed;
      }
      var found := FromSource(p);
      if found.None? {
        NotRepaired(Now(), Source(), p);
        return Failed;
      }
      r := CopyMissing(d, p, found.value);
    }

    method FromSource(p: Path) returns (found: Option<Element>)
      requires Fit()
      ensures found == Look(Source(), p)
    {
      hide DirectoryTree.Valid;
      found := src.Search(p);
    }

    /** Symbolic links are made again from the metadata. */
    method Relink(e: Element) returns (r: Fixup)
      requires Fit() && Look(Now().b, e.rp) == Some(e) && (e.rp !in Now().a ==> Outvoted(Now(), e.rp))
      requires e.ty.Symlink? && Sane(e) && e.rp.In? && IsDir(Now().a, e.rp.dir)
      modifies dst, dst.disk
      ensures r == (if e.rp in old(Now()).a then Threw else Success) && dst.disk == old(dst.disk)
      ensures r.Success? ==> Fit() && Repaired(old(Now()), Now(), Source(), e.rp, r, false)
      ensures r.Success? ==> Now() == old(Now()).(a := old(Now()).a[e.rp := e])
      ensures r.Success? ==> dst.Unindexed() == old(dst.Unindexed()) + {e.rp}
    {
      hide Fit, DirectoryTree.Contents, SaneLinks, Repaired, IsDir;
      Apart();
      if e.rp !in Now().a { LinkHeals(Now(), Source(), e.rp); }
      var ok := LinkBackup(e);
      r := if ok then Success else Threw;
    }

    method LinkBackup(e: Element) returns (ok: bool)
      requires Fit() && e.ty.Symlink? && Sane(e) && e.rp.In? && IsDir(dst.Contents(), e.rp.dir)
      modifies dst, dst.disk
      ensures (ok <==> e.rp !in old(dst.Contents())) && dst.disk == old(dst.disk)
      ensures ok ==> Fit() && dst.Contents() == old(dst.Contents())[e.rp := e]
      ensures ok ==> dst.Unindexed() == old(dst.Unindexed()) + {e.rp}
    {
      hide DirectoryTree.Valid, DirectoryTree.Contents, Disk.Valid, Mirrors, SaneLinks, NoUnknown, IsDir;
      ok := dst.AddSymlinkToTreeAndFilesystem(e);
    }

    method CopyMissing(d: Line3, p: Path, item: Element) returns (r: Fixup)
      requires At(d, p) && d.a.None? && d.b.Some? && !d.b.value.ty.Symlink? && srcTreePresent
      requires Look(Source(), p) == Some(item)
      modifies dst, meta1, meta2, dst.disk
      ensures (r.Threw? <==> p in old(Now()).a) && !r.Failed? && dst.disk == old(dst.disk)
      ensures !r.Threw? ==> Fit() && Repaired(old(Now()), Now(), Source(), p, r, false)
      ensures !r.Threw? ==> dst.Unindexed() == old(dst.Unindexed())
      ensures !r.Threw? ==> (p in old(Now()).b ==> p in old(Now()).c) && Now() == RepairOf(old(Now()), Source(), p)
      ensures r.Success? || r.SuccessDiff? ==> Now().b == old(Now()).b && Now().c == old(Now()).c
      ensures !r.Threw? ==> r == ResultOf(Some(item), d.a, d.b)
    {
      hide Fit, DirectoryTree.Contents, Repaired, Formed, IsDir, SaneLinks, Subtree, Merge, Replaced, WellFormed;
      AllFormed();
      LineFacts(d, p);
      Apart();
      var e := d.b.value;
      var ok := CopyToBackup(p);
      if !ok { return Threw; }
      if Same(item, e) {
        CopyHeals(old(Now()), Source(), p);
        r := if e.ty.Directory? then SuccessDiff else Success;
      } else if Compare(item, e, CONTENT) {
        ok := UpdateMetas(p, item, e);
        AdoptHeals(old(Now()), Source(), p);
        r := if e.ty.Directory? then SuccessDiffMeta else SuccessMeta;
      } else {
        ok := ReplaceMetas(p);
        AddIsReplace(old(Now()).a, Source(), p);
        r := if item.ty.Directory? || e.ty.Directory? then SuccessDiffMeta else SuccessMeta;
        AllFromSourceHeals(old(Now()), Source(), p, r);
      }
    }

    /** The entry is in the backup only. */
    method FixExtra(d: Line3, p: Path, user: User) returns (r: Fixup)
      requires At(d, p) && d.a.Some? && d.b.None?
      modifies dst, dst.disk, user
      ensures r.Threw? <==> old(Jammed(d, p)) && user.answers(old(user.asked))
      ensures dst.disk == old(dst.disk) && user.asked == old(user.asked) + 1 && Doubtful(d, p)
      ensures !r.Threw? ==> Fit() && Repaired(old(Now()), Now(), Source(), p, r, false)
      ensures !r.Threw? ==> Chosen(old(Now()), Now(), d, p, user.answers(old(user.asked)), r)
      ensures !r.Threw? ==> dst.Unindexed() == old(dst.Unindexed())
    {
      hide Fit, DirectoryTree.Contents, Repaired, Formed, IsDir, SaneLinks, Cut, DirectoryTree.Whole;
      LineFacts(d, p);
      var yes := user.Ask();
      if !yes {
        NotRepaired(Now(), Source(), p);
        return Failed;
      }
      AllFormed();
      Apart();
      CutHeals(Now(), Source(), p);
      var ok := RemoveFromBackup(p);
      if !ok { return Threw; }
      r := if d.a.value.ty.Directory? then SuccessDiff else Success;
    }

    /** The entry is in the backup and in the metadata, but it is not the same. */
    method FixDiffering(d: Line3, p: Path, user: User) returns (r: Fixup, mixed: bool)
      requires At(d, p) && d.a.Some? && d.b.Some?
      modifies dst, meta1, meta2, dst.disk, user
      ensures r.Threw? <==> old(Jammed(d, p)) && (Doubtful(d, p) ==> user.answers(old(user.asked)))
      ensures dst.disk == old(dst.disk) && user.asked == old(user.asked) + if Doubtful(d, p) then 1 else 0
      ensures !r.Threw? ==> Fit() && Repaired(old(Now()), Now(), Source(), p, r, mixed)
      ensures !r.Threw? ==> Chosen(old(Now()), Now(), d, p, user.answers(old(user.asked)), r)
      ensures !r.Threw? ==> (mixed <==> srcTreePresent && HalfUpdate(Look(Source(), p), d.a, d.b))
      ensures !r.Threw? ==>
                dst.Unindexed() == old(dst.Unindexed()) + if r.Success? && Relinks(d.a, d.b) then {p} else {}
    {
      hide At, DirectoryTree.Contents, Repaired, Fit, Cut, Replaced, Merge, DirectoryTree.Whole, Jammed, Chosen,
           Doubtful;
      LineFacts(d, p);
      mixed := false;
      if Compare(d.a.value, d.b.value, CONTENT) {
        TouchFree(d, p);
        r := TouchUp(d, p);
        TouchChosen(old(Now()), d, p, user.answers(user.asked));
      } else {
        r, mixed := FixChanged(d, p, user);
      }
    }

    lemma TouchChosen(t: Trio, d: Line3, p: Path, yes: bool)
      requires d.a.Some? && d.b.Some? && SameContent(d.a.value, d.b.value) && d.a == Look(t.a, p) && d.b == Look(t.b, p)
      requires p in t.b ==> p in t.c
      ensures Chosen(t, t.(a := t.a[p := Merge(d.a.value, d.b.value, d.a.value)]), d, p, yes, Success)
      ensures !Doubtful(d, p) && !HalfUpdate(Look(Source(), p), d.a, d.b) && !Relinks(d.a, d.b)
    {
      hide Merge;
    }

    lemma TouchFree(d: Line3, p: Path)
      requires At(d, p) && d.a.Some? && d.b.Some? && SameContent(d.a.value, d.b.value)
      ensures !Jammed(d, p)
    {
      hide Fit, DirectoryTree.Contents, DirectoryTree.Whole;
      LineFacts(d, p);
    }

    /** The content is not the same. */
    method FixChanged(d: Line3, p: Path, user: User) returns (r: Fixup, mixed: bool)
      requires At(d, p) && d.a.Some? && d.b.Some? && !SameContent(d.a.value, d.b.value)
      modifies dst, meta1, meta2, dst.disk, user
      ensures r.Threw? <==> old(Jammed(d, p)) && (Doubtful(d, p) ==> user.answers(old(user.asked)))
      ensures dst.disk == old(dst.disk) && user.asked == old(user.asked) + if Doubtful(d, p) then 1 else 0
      ensures !r.Threw? ==> Fit() && Repaired(old(Now()), Now(), Source(), p, r, mixed)
      ensures !r.Threw? ==> Chosen(old(Now()), Now(), d, p, user.answers(old(user.asked)), r)
      ensures !r.Threw? ==> (mixed <==> srcTreePresent && HalfUpdate(Look(Source(), p), d.a, d.b))
      ensures !r.Threw? ==>
                dst.Unindexed() == old(dst.Unindexed()) + if r.Success? && Relinks(d.a, d.b) then {p} else {}
    {
      hide At, DirectoryTree.Contents, Repaired, Outvoted, Fit, Stuck, Cut, Replaced, Merge, Subtree,
           DirectoryTree.Whole;
      LineFacts(d, p);
      mixed := false;
      var bitrot := Compare(d.a.value, d.b.value, STAMP);
      if d.b.value.ty.Symlink? && d.a.value.ty.Symlink? {
        r := UpdateLink(d, p, bitrot, user);
        return;
      }
      if !srcTreePresent {
        NotRepaired(Now(), Source(), p);
        return Failed, false;
      }
      var found := FromSource(p);
      if found.None? {
        NotRepaired(Now(), Source(), p);
        return Failed, false;
      }
      r, mixed := FixContent(d, p, found.value, bitrot, user);
    }

    /** The content is the same: set what differs. */
    method TouchUp(d: Line3, p: Path) returns (r: Fixup)
      requires At(d, p) && d.a.Some? && d.b.Some? && SameContent(d.a.value, d.b.value)
      modifies dst, dst.disk
      ensures Fit() && dst.disk == old(dst.disk) && Repaired(old(Now()), Now(), Source(), p, r, false)
      ensures r == Success && Now() == old(Now()).(a := old(Now()).a[p := Merge(d.a.value, d.b.value, d.a.value)])
      ensures dst.Unindexed() == old(dst.Unindexed())
    {
      hide Fit, DirectoryTree.Contents, Repaired, Formed, IsDir, SaneLinks, Merge;
      LineFacts(d, p);
      Apart();
      EntryFacts(p);
      TouchHeals(Now(), Source(), p);
      var ok := UpdateBackup(p, d.b.value, d.a.value);
      r := if ok then Success else Threw;
    }

    /** A link to somewhere else is made again from the metadata. */
    method UpdateLink(d: Line3, p: Path, bitrot: bool, user: User) returns (r: Fixup)
      requires At(d, p) && d.a.Some? && d.b.Some? && d.a.value.ty.Symlink? && d.b.value.ty.Symlink? && Relinks(d.a, d.b)
      requires bitrot == SameStamp(d.a.value, d.b.value)
      modifies dst, dst.disk, user
      ensures r.Threw? <==> !old(dst.Whole(p)) && (bitrot || user.answers(old(user.asked)))
      ensures dst.disk == old(dst.disk) && user.asked == old(user.asked) + if bitrot then 0 else 1
      ensures !r.Threw? ==> Fit() && Repaired(old(Now()), Now(), Source(), p, r, false) && (r.Failed? || r.Success?)
      ensures !r.Threw? ==>
                Now() == if r.Failed? then old(Now()) else old(Now()).(a := Cut(old(Now()).a, p)[p := d.b.value])
      ensures r.Failed? <==> !bitrot && !user.answers(old(user.asked))
      ensures !r.Threw? ==> dst.Unindexed() == old(dst.Unindexed()) + if r.Success? then {p} else {}
    {
      hide Fit, DirectoryTree.Contents, Repaired, Formed, IsDir, SaneLinks, Cut, DirectoryTree.Whole;
      AllFormed();
      LineFacts(d, p);
      Apart();
      EntryFacts(p);
      OutsideBackup(p);
      if !bitrot {
        var yes := user.Ask();
        if !yes {
          NotRepaired(Now(), Source(), p);
          return Failed;
        }
      }
      RelinkHeals(Now(), Source(), p);
      var ok := RemoveFromBackup(p);
      if !ok { return Threw; }
      ok := LinkBackup(d.b.value);
      r := if ok then Success else Threw;
    }

    /** The content differs, and the source has an entry. */
    method FixContent(d: Line3, p: Path, item: Element, bitrot: bool, user: User) returns (r: Fixup, mixed: bool)
      requires At(d, p) && d.a.Some? && d.b.Some? && !SameContent(d.a.value, d.b.value)
      requires srcTreePresent && Look(Source(), p) == Some(item) && bitrot == SameStamp(d.a.value, d.b.value)
      requires !(d.a.value.ty.Symlink? && d.b.value.ty.Symlink?)
      modifies dst, meta1, meta2, dst.disk, user
      ensures r.Threw? <==> old(Jammed(d, p)) && (Doubtful(d, p) ==> user.answers(old(user.asked)))
      ensures dst.disk == old(dst.disk) && user.asked == old(user.asked) + if Doubtful(d, p) then 1 else 0
      ensures !r.Threw? ==> Fit() && Repaired(old(Now()), Now(), Source(), p, r, mixed)
      ensures !r.Threw? ==> Chosen(old(Now()), Now(), d, p, user.answers(old(user.asked)), r)
      ensures !r.Threw? ==>
                (mixed <==> && !Same(item, d.b.value) && !Same(item, d.a.value) && SameContent(item, d.a.value)
                                        && Stuck(d.a.value, item, d.b.value))
      ensures !r.Threw? ==> dst.Unindexed() == old(dst.Unindexed())
    {
      hide Fit, DirectoryTree.Contents, Repaired, Formed, IsDir, SaneLinks, Cut, Replaced, Merge, Stuck,
           DirectoryTree.Whole;
      AllFormed();
      LineFacts(d, p);
      Apart();
      var x, e := d.a.value, d.b.value;
      mixed := false;
      if Same(item, e) {
        r := Restore(d, p, item, bitrot, user);
      } else if Same(item, x) {
        MetasHeal(Now(), Source(), p);
        var ok := ReplaceMetas(p);
        r := if item.ty.Directory? || e.ty.Directory? then SuccessDiffMeta else SuccessMeta;
      } else if Compare(item, x, CONTENT) {
        r := MixEntries(d, p, item);
        mixed := Stuck(x, item, e);
      } else {
        var yes := user.Ask();
        if !yes {
          NotRepaired(Now(), Source(), p);
          return Failed, false;
        }
        r := TakeSource(d, p, item);
      }
    }

    /** The source has what the metadata say: the backup entry is replaced. */
    method Restore(d: Line3, p: Path, item: Element, bitrot: bool, user: User) returns (r: Fixup)
      requires At(d, p) && d.a.Some? && d.b.Some? && srcTreePresent && Look(Source(), p) == Some(item)
      requires Same(item, d.b.value)
      modifies dst, dst.disk, user
      ensures r.Threw? <==> !old(dst.Whole(p)) && (bitrot || user.answers(old(user.asked)))
      ensures r.Failed? <==> !bitrot && !user.answers(old(user.asked))
      ensures dst.disk == old(dst.disk) && user.asked == old(user.asked) + if bitrot then 0 else 1
      ensures !r.Threw? ==> Fit() && Repaired(old(Now()), Now(), Source(), p, r, false)
      ensures !r.Threw? ==> dst.Unindexed() == old(dst.Unindexed())
      ensures !r.Threw? && !r.Failed? ==>
                Now() == old(Now()).(a := Replaced(old(Now()).a, Source(), p))
                && r == DiffIf(IsDirOpt(d.a) || IsDirOpt(d.b))
      ensures r.Failed? ==> Now() == old(Now())
    {
      hide Fit, DirectoryTree.Contents, Repaired, Formed, IsDir, SaneLinks, Cut, Replaced, DirectoryTree.Whole;
      AllFormed();
      LineFacts(d, p);
      Apart();
      if !bitrot {
        var yes := user.Ask();
        if !yes {
          NotRepaired(Now(), Source(), p);
          return Failed;
        }
      }
      ReplaceHeals(Now(), Source(), p);
      var ok := ReplaceInBackup(p);
      if !ok { return Threw; }
      r := if d.b.value.ty.Directory? || d.a.value.ty.Directory? then SuccessDiff else Success;
    }

    /** Source and backup have the same content, and the metadata another. */
    method MixEntries(d: Line3, p: Path, item: Element) returns (r: Fixup)
      requires At(d, p) && d.a.Some? && d.b.Some? && !SameContent(d.a.value, d.b.value)
      requires Look(Source(), p) == Some(item) && SameContent(item, d.a.value)
      modifies dst, meta1, meta2, dst.disk
      ensures Fit() && dst.disk == old(dst.disk) && (r.SuccessMeta? || r.SuccessDiffMeta?)
      ensures Repaired(old(Now()), Now(), Source(), p, r, Stuck(d.a.value, item, d.b.value))
      ensures p in old(Now()).a && p in old(Now()).b && p in Source() && Now() == MixedResult(old(Now()), Source(), p)
      ensures dst.Unindexed() == old(dst.Unindexed()) && r == MetaIf(IsDirOpt(d.a) || IsDirOpt(d.b))
    {
      hide Fit, DirectoryTree.Contents, Repaired, Formed, IsDir, SaneLinks, Cut, Replaced, Merge, Stuck, WellFormed;
      AllFormed();
      LineFacts(d, p);
      Apart();
      EntryFacts(p);
      MixedHeals(Now(), Source(), p);
      var ok := UpdateBackup(p, item, d.b.value);
      ok := ReplaceMetas(p);
      r := if d.b.value.ty.Directory? || d.a.value.ty.Directory? then SuccessDiffMeta else SuccessMeta;
    }

    /** All three differ: the backup and the metadata are made what the source is. */
    method TakeSource(d: Line3, p: Path, item: Element) returns (r: Fixup)
      requires At(d, p) && d.a.Some? && d.b.Some? && srcTreePresent && Look(Source(), p) == Some(item)
      modifies dst, meta1, meta2, dst.disk
      ensures (r.Threw? <==> !old(dst.Whole(p))) && dst.disk == old(dst.disk)
      ensures !r.Threw? ==> Fit() && Repaired(old(Now()), Now(), Source(), p, r, false)
      ensures !r.Threw? ==> r == MetaIf(item.ty.Directory? || IsDirOpt(d.a) || IsDirOpt(d.b))
      ensures !r.Threw? ==> Now() == AllFromSource(old(Now()), Source(), p) && dst.Unindexed() == old(dst.Unindexed())
    {
      hide Fit, DirectoryTree.Contents, Repaired, Formed, IsDir, SaneLinks, Cut, Replaced, WellFormed,
           DirectoryTree.Whole;
      AllFormed();
      LineFacts(d, p);
      Apart();
      r := if d.b.value.ty.Directory? || item.ty.Directory? || d.a.value.ty.Directory? then SuccessDiffMeta
          else SuccessMeta;
      AllFromSourceHeals(Now(), Source(), p, r);
      var ok := ReplaceInBackup(p);
      if !ok { return Threw; }
      ok := ReplaceMetas(p);
    }

    /** `Threw` is an exception or a failed assertion; whatever the trees are then, the program is gone. */
    method TryToFixBackupEntry(d: Line3, p: Path, user: User) returns (r: Fixup, mixed: bool)
      requires At(d, p)
      modifies dst, meta1, meta2, dst.disk, user
      ensures r.Threw? <==> old(Jammed(d, p)) && (Doubtful(d, p) ==> user.answers(old(user.asked)))
      ensures dst.disk == old(dst.disk) && user.asked == old(user.asked) + if Doubtful(d, p) then 1 else 0
      ensures !r.Threw? ==> Sound() && Repaired(old(Now()), Now(), Source(), p, r, mixed)
      ensures !r.Threw? ==> Chosen(old(Now()), Now(), d, p, user.answers(old(user.asked)), r)
      ensures !r.Threw? ==>
                Handling(old(Now()), Now(), Source(), srcTreePresent, p, d.a, d.b, user.asked > old(user.asked),
                    user.answers(old(user.asked)), r)
      ensures old(p in dst.Unindexed()) ==> r.Threw? || r.Failed?
      ensures !r.Threw? ==> (mixed <==> srcTreePresent && HalfUpdate(Look(Source(), p), d.a, d.b))
      ensures !r.Threw? ==>
                dst.Unindexed() == old(dst.Unindexed()) + if r.Success? && Relinks(d.a, d.b) then {p} else {}
    {
      hide At, Fit, DirectoryTree.Contents, Repaired, Chosen, Jammed, Doubtful, Handling, Formed, WellFormed, Helpless,
           SameOpt, HalfUpdate, Relinks;
      LineFacts(d, p);
      AllFormed();
      r, mixed := FixEntry(d, p, user);
      if !r.Threw? {
        StaySound(old(Now()), Now(), Source(), p, r, mixed);
        ChosenHandling(old(Now()), Now(), d, p, user.answers(old(user.asked)), r);
      }
    }

    method FixEntry(d: Line3, p: Path, user: User) returns (r: Fixup, mixed: bool)
      requires At(d, p)
      modifies dst, meta1, meta2, dst.disk, user
      ensures r.Threw? <==> old(Jammed(d, p)) && (Doubtful(d, p) ==> user.answers(old(user.asked)))
      ensures dst.disk == old(dst.disk) && user.asked == old(user.asked) + if Doubtful(d, p) then 1 else 0
      ensures !r.Threw? ==> Fit() && Repaired(old(Now()), Now(), Source(), p, r, mixed)
      ensures !r.Threw? ==> Chosen(old(Now()), Now(), d, p, user.answers(old(user.asked)), r)
      ensures old(p in dst.Unindexed()) ==> r.Threw? || r.Failed?
      ensures !r.Threw? ==> (mixed <==> srcTreePresent && HalfUpdate(Look(Source(), p), d.a, d.b))
      ensures !r.Threw? ==>
                dst.Unindexed() == old(dst.Unindexed()) + if r.Success? && Relinks(d.a, d.b) then {p} else {}
    {
      hide At, Fit, DirectoryTree.Contents, Repaired, Chosen, Jammed, Doubtful;
      LineFacts(d, p);
      mixed := false;
      if d.a.None? {
        r := FixMissing(d, p);
        if !r.Threw? { NoDoubt(old(Now()), Now(), d, p, r, user.answers(user.asked)); }
      } else if d.b.None? {
        r := FixExtra(d, p, user);
      } else {
        r, mixed := FixDiffering(d, p, user);
      }
    }

    lemma ChosenHandling(t: Trio, t': Trio, d: Line3, p: Path, yes: bool, r: Fixup)
      requires Chosen(t, t', d, p, yes, r) && Formed(t) && WellFormed(Source()) && p.In?
      requires d.b == Look(t.b, p) && SameOpt(Look(t.b, p), Look(t.c, p))
      requires (d.a == Look(t.a, p) || r.Failed?) && (d.a.Some? || d.b.Some?)
      ensures Handling(t, t', Source(), srcTreePresent, p, d.a, d.b, Doubtful(d, p), yes, r)
    {
      hide Handling, RepairOf, Helpless, Asked, ResultOf, WellFormed, Same, SameContent;
      if r.Failed? {
        FailedHandling(t, Source(), srcTreePresent, p, d.a, d.b, yes);
      } else {
        RepairHandling(t, Source(), srcTreePresent, p, yes);
      }
    }

    lemma AnswerCounts(t: Trio, t': Trio, d: Line3, p: Path, r: Fixup, yes: bool)
      requires Chosen(t, t', d, p, yes, r)
      ensures if Doubtful(d, p) then r.Failed? <== !yes else Chosen(t, t', d, p, false, r)
    {
    }

    /** Where nobody was asked, the answer does not matter. */
    lemma NoDoubt(t: Trio, t': Trio, d: Line3, p: Path, r: Fixup, yes: bool)
      requires Chosen(t, t', d, p, true, r) && !Doubtful(d, p)
      ensures Chosen(t, t', d, p, yes, r)
    {
    }

    // ---------- repairs of the metadata ----------

    /** Put what is seen of the backup at `p` into a metadata tree, with everything below it. */
    method FixMetadataEntry(bad: DirectoryTree, good: Option<Element>, wrong: Option<Element>, p: Path)
        returns (r: Fixup)
      requires Fit() && (bad == meta1 || bad == meta2) && p.In?
      requires good == Look(dst.Seen(), p) && wrong == Look(bad.Contents(), p) && (good.Some? || wrong.Some?)
      requires good.Some? ==> IsDir(bad.Contents(), p.dir)
      modifies bad
      ensures Fit()
      ensures bad.Contents() ==
              if good.Some? then Replaced(old(bad.Contents()), dst.Contents(), p) else Cut(old(bad.Contents()), p)
      ensures r == if IsDirOpt(good) || IsDirOpt(wrong) then SuccessDiffMeta else SuccessMeta
    {
      hide DirectoryTree.Valid, DirectoryTree.Contents, Disk.Valid, Mirrors, SaneLinks, NoUnknown, Cut, Subtree,
           WellFormed, IsDir;
      AllFormed();
      SeenEntry(dst, p);
      if wrong.Some? {
        ParentOutside(bad, p);
        var ok := bad.RemoveFromTree(p);
      } else {
        AddIsReplace(bad.Contents(), dst.Contents(), p);
      }
      if good.Some? {
        var ok := bad.TreeCopy(dst, p);
      }
      r := if IsDirOpt(good) || IsDirOpt(wrong) then SuccessDiffMeta else SuccessMeta;
    }

    lemma EntryFacts(p: Path)
      requires Sound()
      ensures p in Now().a ==> Now().a[p].rp == p && (Now().a[p].ty.Symlink? ==> Sane(Now().a[p]))
      ensures p in Now().b ==> Now().b[p].rp == p && (Now().b[p].ty.Symlink? ==> Sane(Now().b[p]))
      ensures p in Source() ==> Source()[p].rp == p && (Source()[p].ty.Symlink? ==> Sane(Source()[p]))
    {
      AllFormed();
    }

    lemma LineFacts(d: Line3, p: Path)
      requires At(d, p)
      ensures Fit() && (d.a.None? ==> d.b.Some?) && p.In? && SameOpt(Look(Now().b, p), Look(Now().c, p))
      ensures SaneLinks(Source()) && SaneLinks(Now().a) && SaneLinks(Now().b) && SaneLinks(Now().c)
      ensures (p in Now().b ==> p in Now().c) && d.b == Look(Now().b, p)
      ensures if p in dst.Unindexed() then d.a == None && p in Now().a
              else d.a == Look(Now().a, p) && Outvoted(Now(), p)
      ensures d.a.Some? ==> dst.Finds(p)
    {
      SeenEntry(dst, p);
    }

    lemma Apart()
      requires Fit()
      ensures src != dst && src != meta1 && src != meta2 && dst != meta1 && dst != meta2 && meta1 != meta2
    {
    }
  }

  lemma StaySound(t: Trio, t': Trio, s: Catalog, p: Path, r: Fixup, mixed: bool)
    requires SaneLinks(s) && SaneLinks(t.a) && SaneLinks(t.b) && SaneLinks(t.c) && Repaired(t, t', s, p, r, mixed)
    ensures SaneLinks(t'.a) && SaneLinks(t'.b) && SaneLinks(t'.c)
  {
    hide SaneLinks, AllHashed, Quiet, Local;
  }

  lemma SeenEntry(t: DirectoryTree, p: Path)
    requires t.Valid()
    ensures Look(t.Seen(), p) == if p in t.Unindexed() then None else Look(t.Contents(), p)
    ensures p in t.Unindexed() ==> p in t.Contents()
    ensures Look(t.Seen(), p).Some? <==> t.Finds(p)
  {
    LookVisible(t.Contents(), t.Unindexed(), p);
    t.Facts();
  }

  ghost predicate NoUnknown(m: Catalog) {
    forall p :: p in m ==> !m[p].ty.Unknown?
  }

  lemma ParentOutside(t: DirectoryTree, p: Path)
    requires t.Valid() && p in t.Contents()
    ensures p.In? && IsDir(Cut(t.Contents(), p), p.dir) && p !in Cut(t.Contents(), p)
  {
    t.Facts();
    if Under(p.dir, p) { UnderIsDeeper(p.dir, p); }
  }
}
