/** The backup: make the backup directory what the source is, and keep the metadata in step. */
module Backup {
  import opened Elements
  import opened Catalogs
  import opened Disks
  import opened Trees
  import opened Diffs
  import opened Repairs
  import opened Manager
  import opened Replay
  import opened Users

  /** The trees of a backup; `meta` is null if there is no metadata. */
  ghost predicate Ready(src: DirectoryTree, dst: DirectoryTree, meta: DirectoryTree?)
    reads src, dst, meta, src.disk, dst.disk
  {
    && src != dst && src != meta && dst != meta
    && src.Valid() && dst.Valid() && src.Unindexed() == {}
    && src.Mirrored() && dst.Mirrored() && src.disk != dst.disk
    && NoUnknown(src.Contents())
    && (meta != null ==> meta.Valid() && meta.Unindexed() == {})
  }

  /** Fails above a link that the index of the backup does not have. */
  method RemoveBoth(src: DirectoryTree, dst: DirectoryTree, meta: DirectoryTree?, p: Path) returns (ok: bool)
    requires Ready(src, dst, meta) && dst.Finds(p) && (meta != null ==> p in meta.Contents())
    modifies dst, meta, dst.disk
    ensures (ok <==> old(dst.Whole(p))) && dst.disk == old(dst.disk)
    ensures ok ==> Ready(src, dst, meta) && dst.Unindexed() == old(dst.Unindexed())
    ensures ok ==> dst.Contents() == Cut(old(dst.Contents()), p) && dst.disk.files == Cut(old(dst.disk.files), p)
    ensures ok && meta != null ==> meta.Contents() == Cut(old(meta.Contents()), p)
  {
    hide DirectoryTree.Valid, DirectoryTree.Contents, Disk.Valid, Mirrors, NoUnknown, Cut;
    ok := dst.RemoveFromTreeAndFilesystem(p);
    if ok && meta != null {
      ok := meta.RemoveFromTree(p);
    }
  }

  /** Fails if the backup directory has the name already. */
  method CopyBoth(src: DirectoryTree, dst: DirectoryTree, meta: DirectoryTree?, p: Path) returns (ok: bool)
    requires Ready(src, dst, meta) && p in src.Contents() && p.In? && IsDir(dst.Contents(), p.dir)
    requires meta != null && p !in dst.Contents() ==> IsDir(meta.Contents(), p.dir) && p !in meta.Contents()
    modifies dst, meta, dst.disk
    ensures (ok <==> p !in old(dst.Contents())) && dst.disk == old(dst.disk)
    ensures ok ==> Ready(src, dst, meta) && dst.Unindexed() == old(dst.Unindexed())
    ensures ok ==> dst.Contents() == old(dst.Contents()) + Subtree(src.Contents(), p)
    ensures ok ==> dst.disk.files == old(dst.disk.files) + Subtree(src.disk.files, p)
    ensures ok && meta != null ==> meta.Contents() == old(meta.Contents()) + Subtree(src.Contents(), p)
  {
    hide DirectoryTree.Valid, DirectoryTree.Contents, Disk.Valid, Mirrors, IsDir;
    ok := dst.CopyFromTreeAndFilesystem(src, p);
    if ok && meta != null {
      ok := meta.TreeCopy(src, p);
    }
  }

  /** Set what differs between source and backup in the backup and in the metadata. */
  method UpdateBoth(src: DirectoryTree, dst: DirectoryTree, meta: DirectoryTree?, p: Path, x: Element, y: Element)
      returns (ok: bool)
    requires Ready(src, dst, meta) && dst.Finds(p) && (meta != null ==> p in meta.Contents())
    requires dst.Contents()[p].ty.Symlink? ==> x.per == y.per
    modifies dst, meta, dst.disk
    ensures ok && Ready(src, dst, meta) && dst.disk == old(dst.disk) && dst.Unindexed() == old(dst.Unindexed())
    ensures dst.Contents() == old(dst.Contents())[p := Merge(old(dst.Contents())[p], x, y)]
    ensures p in old(dst.disk.files) && dst.disk.files == old(dst.disk.files)[p := Merge(old(dst.disk.files)[p], x, y)]
    ensures meta != null ==> meta.Contents() == old(meta.Contents())[p := Merge(old(meta.Contents())[p], x, y)]
  {
    hide DirectoryTree.Valid, DirectoryTree.Contents, Disk.Valid, Mirrors, NoUnknown, Merge;
    ok := UpdateOnDisk(dst, p, x, y);
    if ok && meta != null {
      ok := UpdateInTree(meta, p, x, y);
    }
  }

  // ---------- one line ----------

  /**
   * What there was when the diff was taken: source, backup and metadata, the disks of source and backup, and the links
   * of the backup that its index does not have.
   */
  datatype Start = Start(s: Catalog, t: Catalog, m: Catalog, from: Catalog, files: Catalog, un: set<Path>) {
    ghost predicate Shaped() {
      && WellFormed(s) && WellFormed(t) && WellFormed(m) && WellFormed(from) && PlainDirs(s) && PlainDirs(t)
      && (forall p :: p in s && s[p].ty.Symlink? ==> s[p].per == LINK_PERM)
      && (forall p :: p in t && t[p].ty.Symlink? ==> t[p].per == LINK_PERM)
      && Alike(t, m) && s.Keys == from.Keys
    }

    ghost predicate Lines(done: set<Path>) {
      forall q :: q in done ==> Reported2(s, t, ALL, q)
    }

    /** `d` is the line of `p` in the diff, which does not see links without an index entry. */
    ghost predicate LineOf(d: Line2, p: Path) {
      if p in un then p.In? && p in s && d == Line2(Some(s[p]), None)
      else Reported2(s, t, ALL, p) && d == LineAt2(s, t, p)
    }
  }

  /** The lines of `done` have been replayed on the backup, on its disk and on the metadata. */
  ghost predicate Midway(src: DirectoryTree, dst: DirectoryTree, meta: DirectoryTree?, b: Start, done: set<Path>)
    reads src, dst, meta, src.disk, dst.disk
  {
    && Ready(src, dst, meta) && b.Shaped() && b.s == src.Contents() && b.from == src.disk.files
    && dst.Unindexed() == b.un && b.Lines(done)
    && Replayed(b.s, b.t, b.t, done, dst.Contents())
    && Delivered(b.from, b.s, b.files, b.t, done, dst.disk.files)
    && (meta != null ==> Replayed(b.s, b.m, b.t, done, meta.Contents()))
  }

  /** The entry of `p` in backup and metadata before its line is handled. */
  lemma LineBefore(src: DirectoryTree, dst: DirectoryTree, meta: DirectoryTree?, b: Start, done: set<Path>, p: Path)
    requires Midway(src, dst, meta, b, done) && Reported2(b.s, b.t, ALL, p) && p !in done
    ensures Ready(src, dst, meta) && p.In? && b.s == src.Contents() && (p in b.s || p in b.t)
    ensures Look(dst.Contents(), p) == Look(b.t, p) && IsDir(dst.Contents(), p.dir)
    ensures !Replay.Overwritten(b.s, b.t, done, p)
    ensures meta != null ==> (p in meta.Contents() <==> p in dst.Contents()) && IsDir(meta.Contents(), p.dir)
    ensures WellFormed(src.Contents()) && WellFormed(dst.Contents()) && (meta != null ==> WellFormed(meta.Contents()))
  {
    hide Ready, Delivered, Reported2, Structural, PlainDirs, Replay.Overwritten;
    ReadyFormed(src, dst, meta);
    StillThere(b.s, b.s, b.t, b.t, done, dst.Contents(), p);
    ReportedParents(b, p);
    if meta != null {
      StillThere(b.s, b.s, b.m, b.t, done, meta.Contents(), p);
      assert p in b.t <==> p in b.m;
    }
  }

  lemma ReportedParents(b: Start, p: Path)
    requires b.Shaped() && Reported2(b.s, b.t, ALL, p)
    ensures p.In? && IsDir(b.t, p.dir) && IsDir(b.m, p.dir) && IsDir(b.s, p.dir) && (p in b.s || p in b.t)
  {
    assert p.dir in b.t <==> p.dir in b.m;
  }

  lemma ReadyFormed(src: DirectoryTree, dst: DirectoryTree, meta: DirectoryTree?)
    requires Ready(src, dst, meta)
    ensures WellFormed(src.Contents()) && WellFormed(dst.Contents()) && (meta != null ==> WellFormed(meta.Contents()))
    ensures src.disk != null && dst.disk != null && WellFormed(src.disk.files) && WellFormed(dst.disk.files)
    ensures src.Contents().Keys == src.disk.files.Keys && dst.Contents().Keys == dst.disk.files.Keys
  {
    src.Facts();
    dst.Facts();
    if meta != null { meta.Facts(); }
  }

  /** The line has been replayed on all. */
  lemma LineDone(src: DirectoryTree, dst: DirectoryTree, meta: DirectoryTree?, b: Start, done: set<Path>, p: Path,
                 t: Catalog, m: Catalog, files: Catalog)
    requires Ready(src, dst, meta) && b.Shaped() && b.s == src.Contents() && b.from == src.disk.files
    requires dst.Unindexed() == b.un
    requires b.Lines(done) && Reported2(b.s, b.t, ALL, p) && Structural(Look(b.s, p), Look(b.t, p))
    requires Replayed(b.s, b.t, b.t, done, t) && (meta != null ==> Replayed(b.s, b.m, b.t, done, m))
    requires Delivered(b.from, b.s, b.files, b.t, done, files)
    requires dst.Contents() == Corrected(t, b.s, p) && dst.disk.files == Corrected(files, b.from, p)
    requires meta != null ==> meta.Contents() == Corrected(m, b.s, p)
    ensures Midway(src, dst, meta, b, done + {p})
  {
    hide Ready, Delivered, Structural, Corrected, WellFormed, PlainDirs, Reported2, Alike, DirectoryTree.Contents,
         Start.Lines;
    ReportedParents(b, p);
    OneMoreLine(b, done, p);
    ReplayStructural(b.s, b.s, b.t, b.t, done, t, p);
    ReplayStructural(b.from, b.s, b.files, b.t, done, files, p);
    if meta != null { ReplayStructural(b.s, b.s, b.m, b.t, done, m, p); }
  }

  /**
   * Remove, copy or replace a whole subtree. It fails at and above links that the index of the backup does not have.
   */
  method ReplaceLine(src: DirectoryTree, dst: DirectoryTree, meta: DirectoryTree?, d: Line2, p: Path, ghost b: Start,
                     ghost done: set<Path>)
      returns (ok: bool)
    requires Midway(src, dst, meta, b, done) && b.LineOf(d, p) && p !in done && Structural(d.a, d.b)
    modifies dst, meta, dst.disk
    ensures dst.disk == old(dst.disk) && (ok <==> forall q :: q in b.un ==> !Under(q, p))
    ensures ok ==> Midway(src, dst, meta, b, done + {p})
  {
    hide Ready, Delivered, Reported2, Updatable, Cut, Subtree, WellFormed, DirectoryTree.Contents, IsDir, Start.Shaped,
         Start.Lines;
    if p in b.un { NameTaken(src, dst, meta, b, done, p); } else { LineBefore(src, dst, meta, b, done, p); }
    Separate(src, dst, meta);
    ReadyFormed(src, dst, meta);
    ghost var t, m, files := dst.Contents(), if meta != null then meta.Contents() else map[], dst.disk.files;
    ok := true;
    if d.b.Some? {
      OutsideBoth(src, dst, meta, p);
      ok := RemoveBoth(src, dst, meta, p);
      if !ok { return; }
    } else if p !in t {
      NothingUnder(src, dst, meta, b, p);
      AddIsReplace(t, b.s, p);
      AddIsReplace(files, b.from, p);
      if meta != null { AddIsReplace(m, b.s, p); }
    }
    if d.a.Some? {
      ok := CopyBoth(src, dst, meta, p);
      if !ok { return; }
    }
    SameKeys(b);
    LineDone(src, dst, meta, b, done, p, t, m, files);
  }

  /** The backup has an entry that the diff did not see. */
  lemma NameTaken(src: DirectoryTree, dst: DirectoryTree, meta: DirectoryTree?, b: Start, done: set<Path>, p: Path)
    requires Midway(src, dst, meta, b, done) && p in b.un
    ensures Ready(src, dst, meta) && b.s == src.Contents() && p in dst.Contents() && p.In?
    ensures IsDir(dst.Contents(), p.dir) && Under(p, p)
  {
    dst.Facts();
  }

  lemma NothingUnder(src: DirectoryTree, dst: DirectoryTree, meta: DirectoryTree?, b: Start, p: Path)
    requires Ready(src, dst, meta) && dst.Unindexed() == b.un && p !in dst.Contents() && p.In?
    ensures forall q :: q in b.un ==> !Under(q, p)
  {
    dst.Facts();
    forall q | q in b.un ensures !Under(q, p) {
      if Under(q, p) { Ancestor(dst.Contents(), q, p); }
    }
  }

  lemma SameKeys(b: Start)
    requires b.Shaped()
    ensures b.s.Keys == b.from.Keys && WellFormed(b.from)
  {
  }

  lemma Separate(src: DirectoryTree, dst: DirectoryTree, meta: DirectoryTree?)
    requires Ready(src, dst, meta)
    ensures src != dst && src != meta && dst != meta && src.disk != dst.disk && src.disk != null && dst.disk != null
  {
  }

  lemma OutsideBoth(src: DirectoryTree, dst: DirectoryTree, meta: DirectoryTree?, p: Path)
    requires Ready(src, dst, meta) && p in dst.Contents() && (meta != null ==> p in meta.Contents())
    ensures p.In? && IsDir(Cut(dst.Contents(), p), p.dir) && p !in Cut(dst.Contents(), p)
    ensures meta != null ==> IsDir(Cut(meta.Contents(), p), p.dir) && p !in Cut(meta.Contents(), p)
  {
    ParentOutside(dst, p);
    if meta != null { ParentOutside(meta, p); }
  }

  /** Set permissions, owner and modified time. */
  method UpdateLine(src: DirectoryTree, dst: DirectoryTree, meta: DirectoryTree?, d: Line2, p: Path, ghost b: Start,
                    ghost done: set<Path>)
      returns (ok: bool)
    requires Midway(src, dst, meta, b, done) && b.LineOf(d, p) && p !in done && !Structural(d.a, d.b)
    modifies dst, meta, dst.disk
    ensures ok && Midway(src, dst, meta, b, done + {p}) && dst.disk == old(dst.disk)
  {
    hide Ready, Delivered, Reported2, WellFormed, DirectoryTree.Contents, IsDir, Replay.Overwritten, Merge, Start.Lines;
    LineBefore(src, dst, meta, b, done, p);
    LinksAlike(b, p);
    Separate(src, dst, meta);
    ghost var t, m, files := dst.Contents(), if meta != null then meta.Contents() else map[], dst.disk.files;
    ok := UpdateBoth(src, dst, meta, p, d.a.value, d.b.value);
    ReplayUpdate(b.s, b.s, b.t, b.t, done, t, p);
    ReplayUpdate(b.from, b.s, b.files, b.t, done, files, p);
    if meta != null { ReplayUpdate(b.s, b.s, b.m, b.t, done, m, p); }
    OneMoreLine(b, done, p);
  }

  lemma LinksAlike(b: Start, p: Path)
    requires b.Shaped()
    ensures p in b.s && p in b.t && b.s[p].ty == b.t[p].ty && b.t[p].ty.Symlink? ==> b.s[p].per == b.t[p].per
  {
  }

  lemma OneMoreLine(b: Start, done: set<Path>, p: Path)
    requires b.Lines(done) && Reported2(b.s, b.t, ALL, p)
    ensures b.Lines(done + {p})
  {
  }

  /** What is compared to tell a change of metadata from a change of content. */
  function UpdateOpt(x: Element, y: Element): CompareOpt {
    CompareOpt(false, false, x.ty.Regular? && y.ty.Regular? && (x.hash == "" || y.hash == ""), true, true, true)
  }

  /** The content has changed, and nothing that an edit would have changed. */
  predicate RottenLine(x: Option<Element>, y: Option<Element>) {
    x.Some? && y.Some? && Rotten(x.value, y.value)
  }

  /** A newer backup entry would be lost: the user is asked. */
  predicate NewerLine(x: Option<Element>, y: Option<Element>) {
    x.Some? && y.Some? && !Updatable(x.value, y.value) && x.value.mt < y.value.mt
  }

  /**
   * Handle one line. It fails only where a link without an index entry is in the way. It is skipped just when the
   * source has rotted, or the user does not want to lose a newer backup.
   */
  method ProcessLine(src: DirectoryTree, dst: DirectoryTree, meta: DirectoryTree?, d: Line2, p: Path, user: User,
                     ghost b: Start, ghost done: set<Path>)
      returns (ok: bool, skipped: bool, rot: bool)
    requires Midway(src, dst, meta, b, done) && b.LineOf(d, p) && p !in done
    modifies dst, meta, dst.disk, user
    ensures dst.disk == old(dst.disk) && (p in b.un ==> !ok) && (!ok ==> exists q :: q in b.un && Under(q, p))
    ensures ok ==> Midway(src, dst, meta, b, if skipped then done else done + {p})
    ensures user.asked == old(user.asked) + if NewerLine(d.a, d.b) then 1 else 0
    ensures rot <==> RottenLine(d.a, d.b)
    ensures skipped <==> rot || (NewerLine(d.a, d.b) && !user.answers(old(user.asked)))
  {
    hide Midway, Reported2;
    ok, skipped, rot := true, false, false;
    assert Under(p, p);
    if d.a.None? || d.b.None? {
      ok := ReplaceLine(src, dst, meta, d, p, b, done);
    } else if Compare(d.a.value, d.b.value, UpdateOpt(d.a.value, d.b.value)) {
      ok := UpdateLine(src, dst, meta, d, p, b, done);
    } else if Compare(d.a.value, d.b.value, STAMP) {
      skipped, rot := true, true;
    } else {
      var replace := true;
      if d.a.value.mt < d.b.value.mt {
        replace := user.Ask();
      }
      if replace {
        ok := ReplaceLine(src, dst, meta, d, p, b, done);
      } else {
        skipped := true;
      }
    }
  }

  // ---------- the whole backup ----------

  /** What the file system reports is what the replay relies on. */
  lemma StartFormed(src: DirectoryTree, dst: DirectoryTree, meta: DirectoryTree?, b: Start)
    requires Ready(src, dst, meta) && b.s == src.Contents() && b.t == dst.Contents() && WellFormed(b.m)
    requires Alike(b.t, b.m)
    requires b.from == src.disk.files
    ensures b.Shaped()
  {
    hide DirectoryTree.Valid, DirectoryTree.Contents, WellFormed, Alike, DirectoryTree.Mirrored;
    ReadyFormed(src, dst, meta);
    Reported(src);
    Reported(dst);
  }

  lemma Reported(t: DirectoryTree)
    requires t.Valid() && t.Mirrored()
    ensures PlainDirs(t.Contents())
    ensures forall p :: p in t.Contents() && t.Contents()[p].ty.Symlink? ==> t.Contents()[p].per == LINK_PERM
  {
    hide DirectoryTree.Valid, DirectoryTree.Contents;
    var m, files := t.Contents(), t.disk.files;
    forall p | p in m ensures Reflects(m[p], files[p]) && Sane(files[p]) { }
  }

  /** The line of a path of the diff. */
  lemma LineAtPath(b: Start, ps: seq<Path>, p: Path)
    requires b.Shaped() && IsDiff2(ps, b.s, Visible(b.t, b.un), ALL) && p in ps
    requires forall q :: q in b.un ==> q in b.t && !b.t[q].ty.Directory?
    ensures var d := LineAt2(b.s, Visible(b.t, b.un), p);
            b.LineOf(d, p) && (d.a.Some? || d.b.Some?) && p == if d.a.Some? then d.a.value.rp else d.b.value.rp
  {
    hide TopDown, Visible, PlainDirs, Alike, Compare;
    VisibleFormed(b.t, b.un);
    LookVisible(b.t, b.un, p);
  }

  /** Every one of the paths `ps` lies below one of `qs`. */
  ghost predicate AllBelow(ps: set<Path>, qs: set<Path>) {
    forall p :: p in ps ==> exists q :: q in qs && Under(p, q)
  }

  /** The question about `p` was answered with no; those about `asked` started with question `n`. */
  ghost predicate Declined(asked: seq<Path>, answers: nat -> bool, n: nat, p: Path) {
    exists i :: 0 <= i < |asked| && asked[i] == p && !answers(n + i)
  }

  /**
   * The lines handled so far: the user was asked about each one with a newer backup, and those were skipped that have
   * rotted or were declined.
   */
  ghost predicate Split(b: Start, ps: seq<Path>, done: set<Path>, skip: set<Path>, asked: seq<Path>,
                        answers: nat -> bool, n: nat, bitrot: bool) {
    && done !! skip && (forall p :: p in done || p in skip <==> p in ps)
    && (forall i, j :: 0 <= i < j < |asked| ==> asked[i] != asked[j])
    && (forall p :: p in asked <==> p in ps && NewerLine(Look(b.s, p), Look(b.t, p)))
    && (forall p :: p in skip <==>
          p in ps && (RottenLine(Look(b.s, p), Look(b.t, p)) || Declined(asked, answers, n, p)))
    && (bitrot <==> exists p :: p in ps && RottenLine(Look(b.s, p), Look(b.t, p)))
  }

  lemma SplitMore(b: Start, ps: seq<Path>, d: Line2, done: set<Path>, skip: set<Path>, asked: seq<Path>,
                  answers: nat -> bool, n: nat, bitrot: bool, p: Path, skipped: bool, rot: bool)
    requires Split(b, ps, done, skip, asked, answers, n, bitrot) && p !in ps && b.LineOf(d, p) && p !in b.un
    requires rot <==> RottenLine(d.a, d.b)
    requires skipped <==> rot || (NewerLine(d.a, d.b) && !answers(n + |asked|))
    ensures Split(b, ps + [p], if skipped then done else done + {p}, if skipped then skip + {p} else skip,
            if NewerLine(d.a, d.b) then asked + [p] else asked, answers, n, bitrot || rot)
  {
    hide NewerLine, RottenLine, Reported2, Declined;
    var asked' := if NewerLine(d.a, d.b) then asked + [p] else asked;
    forall q ensures Declined(asked', answers, n, q) <==>
        Declined(asked, answers, n, q) || (q == p && NewerLine(d.a, d.b) && !answers(n + |asked|)) {
      DeclinedMore(asked, answers, n, p, q);
    }
    forall q | q !in asked ensures !Declined(asked, answers, n, q) { NotAsked(asked, answers, n, q); }
    if bitrot {
      var q :| q in ps && RottenLine(Look(b.s, q), Look(b.t, q));
      assert q in ps + [p];
    }
    if rot { assert p in ps + [p]; }
  }

  lemma DeclinedMore(asked: seq<Path>, answers: nat -> bool, n: nat, p: Path, q: Path)
    ensures Declined(asked + [p], answers, n, q) <==>
              Declined(asked, answers, n, q) || (q == p && !answers(n + |asked|))
  {
    if i :| 0 <= i < |asked| && asked[i] == q && !answers(n + i) { assert (asked + [p])[i] == q; }
    if q == p && !answers(n + |asked|) { assert (asked + [p])[|asked|] == p; }
  }

  lemma NotAsked(asked: seq<Path>, answers: nat -> bool, n: nat, q: Path)
    requires q !in asked
    ensures !Declined(asked, answers, n, q)
  {
  }

  /** What became of the lines between `s` and `t0`, question by question. */
  ghost predicate Answered(s: Catalog, t0: Catalog, done: set<Path>, skip: set<Path>, asked: seq<Path>,
                           answers: nat -> bool, n: nat, code: int) {
    && done !! skip && (forall p :: p in done || p in skip <==> Reported2(s, t0, ALL, p))
    && (forall i, j :: 0 <= i < j < |asked| ==> asked[i] != asked[j])
    && (forall p :: p in asked <==> Reported2(s, t0, ALL, p) && NewerLine(Look(s, p), Look(t0, p)))
    && (forall p :: p in skip <==>
          Reported2(s, t0, ALL, p) && (RottenLine(Look(s, p), Look(t0, p)) || Declined(asked, answers, n, p)))
    && code == if exists p :: Reported2(s, t0, ALL, p) && RottenLine(Look(s, p), Look(t0, p)) then 2 else 0
  }

  lemma Partition(s: Catalog, t0: Catalog, done: set<Path>, skip: set<Path>, asked: seq<Path>, answers: nat -> bool,
                  n: nat, code: int)
    requires Answered(s, t0, done, skip, asked, answers, n, code)
    ensures done !! skip && forall p :: p in done || p in skip <==> Reported2(s, t0, ALL, p)
  {
    hide Reported2, Declined;
  }

  /**
   * The same in terms of the fields: nothing is skipped that is newer in the source; 2 means a reported entry of the
   * same type, permissions, owner and time, and of another size, target or known hash; an entry of the same type, size,
   * target and known hash is neither skipped nor replaced.
   */
  ghost predicate Plainly(s: Catalog, t0: Catalog, done: set<Path>, skip: set<Path>, code: int) {
    && (forall p :: p in skip ==> p in s && p in t0 && s[p].mt <= t0[p].mt)
    && (code == 2 <==>
          exists p ::
            && Reported2(s, t0, ALL, p) && p in s && p in t0
            && s[p].ty == t0[p].ty && s[p].per == t0[p].per && s[p].us == t0[p].us && s[p].gs == t0[p].gs
            && s[p].mt == t0[p].mt
            && (s[p].sz != t0[p].sz || s[p].target != t0[p].target
                || (s[p].hash != "" && t0[p].hash != "" && s[p].hash != t0[p].hash)))
    && (forall p ::
          p in s && p in t0 && s[p].ty == t0[p].ty && s[p].sz == t0[p].sz && s[p].target == t0[p].target
          && s[p].hash == t0[p].hash != "" ==>
            p !in skip && !Overwritten(s, t0, done, p))
  }

  lemma PlainWords(s: Catalog, t0: Catalog, done: set<Path>, skip: set<Path>, asked: seq<Path>, answers: nat -> bool,
                   n: nat, code: int)
    requires Answered(s, t0, done, skip, asked, answers, n, code) && WellFormed(s) && WellFormed(t0)
    requires PlainDirs(s) && PlainDirs(t0)
    ensures Plainly(s, t0, done, skip, code)
  {
    hide Reported2, Declined, PlainDirs;
    LinesIn(s, t0, done);
    forall p | p in skip ensures p in s && p in t0 && s[p].mt <= t0[p].mt {
      if !RottenLine(Look(s, p), Look(t0, p)) {
        if p !in asked { NotAsked(asked, answers, n, p); }
      }
    }
    forall p | p in s && p in t0 ensures RottenLine(Look(s, p), Look(t0, p)) <==>
        (s[p].ty == t0[p].ty && s[p].per == t0[p].per && s[p].us == t0[p].us && s[p].gs == t0[p].gs
         && s[p].mt == t0[p].mt
         && (s[p].sz != t0[p].sz || s[p].target != t0[p].target
             || (s[p].hash != "" && t0[p].hash != "" && s[p].hash != t0[p].hash))) {
      assert s[p].rp == t0[p].rp == p;
    }
    if code == 2 {
      var p :| Reported2(s, t0, ALL, p) && RottenLine(Look(s, p), Look(t0, p));
      assert p in s && p in t0;
    }
    forall p | p in s && p in t0 && s[p].ty == t0[p].ty && s[p].sz == t0[p].sz && s[p].target == t0[p].target
        && s[p].hash == t0[p].hash != ""
      ensures p !in skip && !Overwritten(s, t0, done, p)
    {
      assert s[p].rp == t0[p].rp == p;
      if p in skip && p !in asked { NotAsked(asked, answers, n, p); }
      SameKept(s, t0, done, p);
    }
  }

  lemma LinesIn(s: Catalog, t0: Catalog, ps: set<Path>)
    requires forall p :: p in ps ==> Reported2(s, t0, ALL, p)
    ensures forall p :: p in ps ==> p.In?
  {
  }

  /** What both sides have is not replaced together with a directory above it. */
  lemma SameKept(s: Catalog, t0: Catalog, done: set<Path>, p: Path)
    requires WellFormed(s) && WellFormed(t0) && PlainDirs(s) && PlainDirs(t0) && p in s && p in t0
    requires Updatable(s[p], t0[p]) && forall q :: q in done ==> q.In?
    ensures !Overwritten(s, t0, done, p)
  {
    forall q | q in done && Under(p, q) ensures !Structural(Look(s, q), Look(t0, q)) {
      if q != p {
        Ancestor(s, p, q);
        Ancestor(t0, p, q);
      }
    }
  }

  lemma Fresh(ps: seq<Path>, i: nat)
    requires TopDown(ps) && i < |ps|
    ensures ps[i] !in ps[..i] && ps[..i + 1] == ps[..i] + [ps[i]]
  {
    assert Under(ps[i], ps[i]);
  }

  /**
   * Make the backup what the source is. Unless a link that the index does not have is in the way, every edit applies;
   * afterwards source and backup differ exactly in the lines that were skipped, where nothing has changed. The result
   * is the replay of the other lines, in the tree and on disk, whatever order they came in. The metadata keep
   * describing the backup.
   */
  method BackupImpl(src: DirectoryTree, dst: DirectoryTree, meta: DirectoryTree?, user: User)
      returns (ok: bool, code: int, ghost done: set<Path>, ghost skip: set<Path>, ghost asked: seq<Path>)
    requires Ready(src, dst, meta) && (meta != null ==> Alike(dst.Contents(), meta.Contents()))
    modifies dst, meta, dst.disk, user
    ensures dst.disk == old(dst.disk) && (old(dst.Unindexed()) == {} ==> ok)
    ensures ok ==> Ready(src, dst, meta) && dst.Unindexed() == old(dst.Unindexed())
    ensures ok ==> AllBelow(dst.Unindexed(), skip)
    ensures ok && meta != null ==> Alike(dst.Contents(), meta.Contents())
    ensures ok && meta != null && old(Tracks(dst.Contents(), meta.Contents())) ==>
              Tracks(dst.Contents(), meta.Contents())
    ensures ok ==>
              Answered(src.Contents(), old(dst.Contents()), done, skip, asked, user.answers, old(user.asked), code)
                  && user.asked == old(user.asked) + |asked|
    ensures ok ==> Plainly(src.Contents(), old(dst.Contents()), done, skip, code)
    ensures ok ==> forall p :: Reported2(src.Contents(), dst.Contents(), ALL, p) <==> p in skip
    ensures code == 0 || code == 2
    ensures ok ==> Replayed(src.Contents(), old(dst.Contents()), old(dst.Contents()), done, dst.Contents())
    ensures ok ==> src.disk != null && dst.disk != null
    ensures ok ==>
              Delivered(src.disk.files, src.Contents(), old(dst.disk.files), old(dst.Contents()), done, dst.disk.files)
    ensures ok && meta != null ==>
              Replayed(src.Contents(), old(meta.Contents()), old(dst.Contents()), done, meta.Contents())
    ensures ok ==> forall p :: p in skip ==> Look(dst.Contents(), p) == old(Look(dst.Contents(), p))
    ensures ok && skip == {} ==> Tracks(src.Contents(), dst.Contents())
  {
    hide Ready, Delivered, Reported2, TopDown, Answered, Plainly, Tracks, Alike, WellFormed, DirectoryTree.Contents,
         Start.Shaped, Visible, Midway, IsDir, AllBelow, Split;
    Separate(src, dst, meta);
    ghost var m := if meta != null then meta.Contents() else dst.Contents();
    ghost var b := Start(src.Contents(), dst.Contents(), m, src.disk.files, dst.disk.files, dst.Unindexed());
    var lines;
    ghost var ps;
    code, done, skip, asked := 0, {}, {}, [];
    ok, lines, ps := Compared(src, dst, meta, b);
    if !ok { return; }
    BackupStart(src, dst, meta, b);
    ghost var n := user.asked;
    ok, code, done, skip, asked := BackupLines(src, dst, meta, lines, user, b, ps);
    if !ok { return; }
    AllLines(b, ps);
    AllAnswered(b, ps, done, skip, asked, user.answers, n, code);
    Converged(src, dst, meta, b, ps, done, skip);
  }

  /** The loop over the lines. */
  method BackupLines(src: DirectoryTree, dst: DirectoryTree, meta: DirectoryTree?, lines: seq<Line2>, user: User,
                     ghost b: Start, ghost ps: seq<Path>)
      returns (ok: bool, code: int, ghost done: set<Path>, ghost skip: set<Path>, ghost asked: seq<Path>)
    requires Midway(src, dst, meta, b, {}) && b.Shaped() && lines == Lines2(b.s, Visible(b.t, b.un), ps)
    requires IsDiff2(ps, b.s, Visible(b.t, b.un), ALL)
    requires forall q :: q in b.un ==> q in b.t && q.In? && !b.t[q].ty.Directory?
    modifies dst, meta, dst.disk, user
    ensures dst.disk == old(dst.disk) && (b.un == {} ==> ok) && (code == 0 || code == 2)
    ensures ok ==> Midway(src, dst, meta, b, done) && user.asked == old(user.asked) + |asked|
    ensures ok ==> Split(b, ps, done, skip, asked, user.answers, old(user.asked), code == 2)
    ensures ok ==> forall p :: p in ps ==> p !in b.un
  {
    hide Ready, TopDown, WellFormed, DirectoryTree.Contents, Start.Shaped, Start.LineOf, Visible, Midway, Split,
         NewerLine;
    var bitrot := false;
    ok, code, done, skip, asked := true, 0, {}, {}, [];
    ghost var n := user.asked;
    SplitNothing(b, user.answers, n);
    assert ps[..0] == [];
    for i := 0 to |lines|
      invariant ok && dst.disk == old(dst.disk) && forall j :: 0 <= j < i ==> ps[j] !in b.un
      invariant Midway(src, dst, meta, b, done) && user.asked == n + |asked|
      invariant Split(b, ps[..i], done, skip, asked, user.answers, n, bitrot)
    {
      Fresh(ps, i);
      MidwayReady(src, dst, meta, b, done);
      LineAtPath(b, ps, ps[i]);
      var d := lines[i];
      var p := if d.a.Some? then d.a.value.rp else d.b.value.rp;
      var skipped, rot;
      SplitDone(b, ps[..i], done, skip, asked, user.answers, n, bitrot, p);
      ok, skipped, rot := ProcessLine(src, dst, meta, d, p, user, b, done);
      if !ok { return; }
      SplitMore(b, ps[..i], d, done, skip, asked, user.answers, n, bitrot, p, skipped, rot);
      if NewerLine(d.a, d.b) { asked := asked + [p]; }
      bitrot := bitrot || rot;
      if skipped {
        skip := skip + {p};
      } else {
        done := done + {p};
      }
    }
    assert ps[..|ps|] == ps;
    code := if bitrot then 2 else 0;
  }

  lemma SplitNothing(b: Start, answers: nat -> bool, n: nat)
    ensures Split(b, [], {}, {}, [], answers, n, false)
  {
  }

  lemma SplitDone(b: Start, ps: seq<Path>, done: set<Path>, skip: set<Path>, asked: seq<Path>, answers: nat -> bool,
                  n: nat, bitrot: bool, p: Path)
    requires Split(b, ps, done, skip, asked, answers, n, bitrot) && p !in ps
    ensures p !in done
  {
  }

  lemma AllAnswered(b: Start, ps: seq<Path>, done: set<Path>, skip: set<Path>, asked: seq<Path>, answers: nat -> bool,
                    n: nat, code: int)
    requires Split(b, ps, done, skip, asked, answers, n, code == 2) && IsDiff2(ps, b.s, b.t, ALL) && b.Shaped()
    requires code == 0 || code == 2
    ensures Answered(b.s, b.t, done, skip, asked, answers, n, code) && Plainly(b.s, b.t, done, skip, code)
    ensures done !! skip && forall p :: p in done || p in skip <==> p in ps
  {
    hide Reported2, TopDown, Declined, RottenLine, NewerLine, Plainly, WellFormed, PlainDirs, Alike;
    if code == 2 {
      var p :| p in ps && RottenLine(Look(b.s, p), Look(b.t, p));
      assert Reported2(b.s, b.t, ALL, p);
    }
    PlainWords(b.s, b.t, done, skip, asked, answers, n, code);
  }

  lemma MidwayReady(src: DirectoryTree, dst: DirectoryTree, meta: DirectoryTree?, b: Start, done: set<Path>)
    requires Midway(src, dst, meta, b, done)
    ensures Ready(src, dst, meta) && b.Shaped()
  {
  }

  /** Compare source and backup; a link that neither index has is a failed assertion where both have the directory. */
  method Compared(src: DirectoryTree, dst: DirectoryTree, ghost meta: DirectoryTree?, ghost b: Start)
      returns (ok: bool, lines: seq<Line2>, ghost ps: seq<Path>)
    requires Ready(src, dst, meta) && b.s == src.Contents() && b.t == dst.Contents() && b.un == dst.Unindexed()
    ensures b.un == {} ==> ok
    ensures forall q :: q in b.un ==> q in b.t && q.In? && !b.t[q].ty.Directory?
    ensures ok ==> lines == Lines2(b.s, Visible(b.t, b.un), ps) && IsDiff2(ps, b.s, Visible(b.t, b.un), ALL)
    ensures ok ==> forall q :: q in b.un && IsDir(b.s, q.dir) ==> q in b.s
  {
    hide Ready, DirectoryTree.Contents, DirectoryTree.Seen, WellFormed, Lines2, IsDiff2, Reports2, Stray2, Visible;
    NoStrays(src, dst, meta);
    ok, lines, ps := Diff2(src, dst, ALL);
    if ok {
      forall q | q in b.un && IsDir(b.s, q.dir) ensures q in b.s { assert !Stray2(src, dst, q); }
    }
  }

  lemma NoStrays(src: DirectoryTree, dst: DirectoryTree, meta: DirectoryTree?)
    requires Ready(src, dst, meta)
    ensures src.Valid() && dst.Valid() && src.Seen() == src.Contents()
    ensures dst.Seen() == Visible(dst.Contents(), dst.Unindexed())
    ensures forall q :: q in dst.Unindexed() ==> q in dst.Contents() && q.In? && !dst.Contents()[q].ty.Directory?
    ensures forall q :: Stray2(src, dst, q) <==>
            q in dst.Unindexed() && q !in src.Contents() && IsDir(src.Contents(), q.dir)
  {
    hide DirectoryTree.Valid, DirectoryTree.Contents, IsDir, WellFormed;
    src.SeenFacts();
    dst.SeenFacts();
    dst.Facts();
    forall q
      ensures Stray2(src, dst, q) <==> q in dst.Unindexed() && q !in src.Contents() && IsDir(src.Contents(), q.dir) {
      SeenEntry(dst, q);
      if q in dst.Unindexed() { InItsDir(dst.Contents(), q); }
    }
  }

  /** If no line was one of a link that the index does not have, the diff has seen everything that matters. */
  lemma AllLines(b: Start, ps: seq<Path>)
    requires b.Shaped() && IsDiff2(ps, b.s, Visible(b.t, b.un), ALL) && (forall p :: p in ps ==> p !in b.un)
    requires forall q :: q in b.un ==> q in b.t && q.In? && !b.t[q].ty.Directory?
    requires forall q :: q in b.un && IsDir(b.s, q.dir) ==> q in b.s
    ensures IsDiff2(ps, b.s, b.t, ALL) && forall q :: q in b.un ==> !IsDir(b.s, q.dir)
  {
    hide TopDown, Visible, PlainDirs, Alike, IsDir;
    VisibleFormed(b.t, b.un);
    forall q | q in b.un ensures !IsDir(b.s, q.dir) {
      LookVisible(b.t, b.un, q);
      InItsDir(b.t, q);
      assert IsDir(b.s, q.dir) ==> Reported2(b.s, Visible(b.t, b.un), ALL, q);
    }
    forall p ensures Reported2(b.s, Visible(b.t, b.un), ALL, p) <==> Reported2(b.s, b.t, ALL, p) {
      LookVisible(b.t, b.un, p);
    }
  }

  lemma BackupStart(src: DirectoryTree, dst: DirectoryTree, meta: DirectoryTree?, b: Start)
    requires Ready(src, dst, meta) && b.s == src.Contents() && b.t == dst.Contents() && b.un == dst.Unindexed()
    requires b.from == src.disk.files && b.files == dst.disk.files
    requires b.m == if meta != null then meta.Contents() else dst.Contents()
    requires meta != null ==> Alike(dst.Contents(), meta.Contents())
    ensures Midway(src, dst, meta, b, {}) && b.Shaped()
  {
    hide Ready, Reported2, WellFormed, DirectoryTree.Contents, Start.Shaped, Delivered;
    ReadyFormed(src, dst, meta);
    StartFormed(src, dst, meta, b);
    ReplayStart(b.s, b.s, b.t, b.t);
    ReplayStart(b.s, b.s, b.m, b.t);
    ReplayStart(b.from, b.s, b.files, b.t);
  }

  lemma Converged(src: DirectoryTree, dst: DirectoryTree, meta: DirectoryTree?, b: Start, ps: seq<Path>,
                  done: set<Path>, skip: set<Path>)
    requires Midway(src, dst, meta, b, done) && IsDiff2(ps, b.s, b.t, ALL)
    requires forall q :: q in b.un ==> !IsDir(b.s, q.dir)
    requires done !! skip && forall p :: p in done || p in skip <==> p in ps
    ensures Ready(src, dst, meta) && dst.Unindexed() == b.un && Replayed(b.s, b.t, b.t, done, dst.Contents())
    ensures src.disk != null && dst.disk != null && Delivered(b.from, b.s, b.files, b.t, done, dst.disk.files)
    ensures meta != null ==> Replayed(b.s, b.m, b.t, done, meta.Contents())
    ensures forall p :: Reported2(src.Contents(), dst.Contents(), ALL, p) <==> p in skip
    ensures meta != null ==> Alike(dst.Contents(), meta.Contents())
    ensures meta != null ==> (Tracks(b.t, b.m) ==> Tracks(dst.Contents(), meta.Contents()))
    ensures forall p :: p in skip ==> Look(dst.Contents(), p) == Look(b.t, p)
    ensures skip == {} ==> Tracks(src.Contents(), dst.Contents())
    ensures AllBelow(dst.Unindexed(), skip)
  {
    hide Ready, Delivered, Reported2, TopDown, Tracks, Alike, WellFormed, PlainDirs, DirectoryTree.Contents, IsDir;
    ReplayConverges(b.s, b.t, done, skip, dst.Contents());
    forall p | p in skip ensures Look(dst.Contents(), p) == Look(b.t, p) {
      StillThere(b.s, b.s, b.t, b.t, done, dst.Contents(), p);
    }
    if meta != null { InStep(b, done, dst.Contents(), meta.Contents()); }
    ReadyFormed(src, dst, meta);
    if skip == {} { NoneReported(src.Contents(), dst.Contents()); }
    forall p | p in dst.Unindexed() ensures exists q :: q in skip && Under(p, q) {
      NameTaken(src, dst, meta, b, done, p);
      var q := SkippedAbove(src.Contents(), dst.Contents(), p);
    }
  }

  lemma SkippedAbove(s: Catalog, t: Catalog, p: Path) returns (q: Path)
    requires WellFormed(s) && WellFormed(t) && p.In? && IsDir(t, p.dir) && !IsDir(s, p.dir)
    ensures Reported2(s, t, ALL, q) && Under(p, q)
  {
    q := ReportedAbove2(s, t, ALL, p.dir);
  }

  lemma InStep(b: Start, done: set<Path>, t: Catalog, m: Catalog)
    requires Alike(b.t, b.m) && Replayed(b.s, b.t, b.t, done, t) && Replayed(b.s, b.m, b.t, done, m)
    ensures Alike(t, m) && (Tracks(b.t, b.m) ==> Tracks(t, m))
  {
    hide Replayed, Replay.Overwritten, SameOpt;
    forall q ensures (q in t <==> q in m) && (q in t ==> t[q].ty == m[q].ty)
        && (Tracks(b.t, b.m) ==> SameOpt(Look(t, q), Look(m, q))) {
      ReplayTracks(b.s, b.t, b.m, done, t, m, q);
    }
  }

  lemma NoneReported(a: Catalog, b: Catalog)
    requires WellFormed(a) && WellFormed(b) && forall p :: !Reported2(a, b, ALL, p)
    ensures Tracks(a, b)
  {
    hide WellFormed, Reported2;
    forall p ensures SameOpt(Look(a, p), Look(b, p)) {
      if Differ2(Look(a, p), Look(b, p), ALL) { var q := ReportedAbove2(a, b, ALL, p); }
    }
  }

  /**
   * A second backup right after the first has exactly the lines to handle that the first skipped. If it skipped none,
   * the second changes nothing, in the trees and on disk. `t1`, `m1` and `files1` are backup, metadata and disk in
   * between.
   */
  method BackupTwice(src: DirectoryTree, dst: DirectoryTree, meta: DirectoryTree?, user: User)
      returns (ok: bool, code: int, ghost done: set<Path>, ghost skip: set<Path>, ghost done2: set<Path>,
               ghost skip2: set<Path>, ghost t1: Catalog, ghost m1: Catalog, ghost files1: Catalog)
    requires Ready(src, dst, meta) && (meta != null ==> Alike(dst.Contents(), meta.Contents()))
    modifies dst, meta, dst.disk, user
    ensures dst.disk == old(dst.disk) && (old(dst.Unindexed()) == {} ==> ok)
    ensures ok ==> Ready(src, dst, meta) && src.disk != null && dst.disk != null
    ensures ok ==> Replayed(src.Contents(), old(dst.Contents()), old(dst.Contents()), done, t1)
    ensures ok ==> Delivered(src.disk.files, src.Contents(), old(dst.disk.files), old(dst.Contents()), done, files1)
    ensures ok && meta != null ==> Replayed(src.Contents(), old(meta.Contents()), old(dst.Contents()), done, m1)
    ensures ok ==> done2 !! skip2 && forall p :: p in done2 || p in skip2 <==> p in skip
    ensures ok && skip == {} ==> dst.Contents() == t1 && dst.disk.files == files1
    ensures ok && skip == {} ==> (meta != null ==> meta.Contents() == m1) && code == 0
  {
    hide Ready, Delivered, Reported2, Plainly, NewerLine, RottenLine, Declined, Tracks, Alike, DirectoryTree.Contents;
    Separate(src, dst, meta);
    done2, skip2, t1, m1, files1 := {}, {}, map[], map[], map[];
    ghost var asked;
    ok, code, done, skip, asked := BackupImpl(src, dst, meta, user);
    if !ok { return; }
    t1, files1 := dst.Contents(), dst.disk.files;
    if meta != null { m1 := meta.Contents(); }
    ok, code, done2, skip2, asked := BackupImpl(src, dst, meta, user);
    if !ok { return; }
    if skip == {} {
      assert forall p :: p in done2 || p in skip2 <==> p in skip;
      assert done2 == {};
      NothingDelivered(src.Contents(), src.Contents(), t1, t1, dst.Contents());
      NothingDelivered(src.disk.files, src.Contents(), files1, t1, dst.disk.files);
      if meta != null { NothingDelivered(src.Contents(), src.Contents(), m1, t1, meta.Contents()); }
    }
  }
}
