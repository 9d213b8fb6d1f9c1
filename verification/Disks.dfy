/**
 * The file system below one top directory. The `hash` of a regular file stands for its content.
 * Creating or removing an entry gives the directory it is in a new, arbitrary modified time.
 */
module Disks {
  import opened Elements
  import opened Catalogs

  /** The permissions of every symbolic link. */
  const LINK_PERM: nat := 0x1FF

  /** The form of a hash: the hexadecimal digits of a SHA-1 digest. */
  predicate Digest(h: string) {
    |h| == 40 && forall c :: c in h ==> '0' <= c <= '9' || 'A' <= c <= 'F'
  }

  /** What the file system reports about an entry: the fields of other types are empty. */
  predicate Sane(e: Element) {
    && Hashed(e) && (e.ty.Regular? ==> Digest(e.hash))
    && (e.ty.Regular? || e.sz == 0)
    && (e.ty.Symlink? || e.target == "")
    && (e.ty.Symlink? ==> e.per == LINK_PERM)
  }

  ghost predicate AllSane(m: Catalog) {
    forall p :: p in m ==> Sane(m[p])
  }

  /** Nothing that was there has changed, except the modified time of `d`. */
  ghost predicate OnlyStamp(m: Catalog, m': Catalog, d: Path) {
    && m.Keys <= m'.Keys
    && (forall q :: q in m && q != d ==> m'[q] == m[q])
    && (d in m ==> m'[d] == m[d].(mt := m'[d].mt))
  }

  class Disk {
    var files: Catalog

    ghost predicate Valid()
      reads this
    {
      WellFormed(files) && AllSane(files)
    }

    /** Set the modified time of a directory to whatever the clock says. */
    method Touch(d: Path)
      requires Valid()
      modifies this
      ensures Valid() && files.Keys == old(files.Keys) && OnlyStamp(old(files), files, d)
    {
      var now: int := *;
      if d in files { files := files[d := files[d].(mt := now)]; }
    }

    /** Make a new entry; its owner and modified time are not those of `e`. */
    method Create(e: Element)
      requires Valid() && Sane(e) && e.rp.In? && e.rp !in files && IsDir(files, e.rp.dir)
      modifies this
      ensures Valid() && files.Keys == old(files.Keys) + {e.rp} && OnlyStamp(old(files), files, e.rp.dir)
      ensures files[e.rp] == e.(us := files[e.rp].us, gs := files[e.rp].gs, mt := files[e.rp].mt)
    {
      var us: string := *;
      var gs: string := *;
      var now: int := *;
      files := files[e.rp := e.(us := us, gs := gs, mt := now)];
      Touch(e.rp.dir);
    }

    /** `remove_all` */
    method RemoveAll(p: Path)
      requires Valid() && p in files
      modifies this
      ensures Valid() && OnlyStamp(Cut(old(files), p), files, p.dir) && files.Keys == Cut(old(files), p).Keys
    {
      files := Cut(files, p);
      Touch(p.dir);
    }

    /** `permissions` follows symbolic links, so a link itself stays as it is. */
    method Chmod(p: Path, per: nat)
      requires Valid() && p in files
      modifies this
      ensures Valid()
      ensures files == if old(files)[p].ty.Symlink? then old(files) else old(files)[p := old(files)[p].(per := per)]
    {
      if !files[p].ty.Symlink? { files := files[p := files[p].(per := per)]; }
    }

    method Chown(p: Path, us: string, gs: string)
      requires Valid() && p in files
      modifies this
      ensures Valid() && files == old(files)[p := old(files)[p].(us := us, gs := gs)]
    {
      files := files[p := files[p].(us := us, gs := gs)];
    }

    method Utime(p: Path, mt: int)
      requires Valid() && p in files
      modifies this
      ensures Valid() && files == old(files)[p := old(files)[p].(mt := mt)]
    {
      files := files[p := files[p].(mt := mt)];
    }
  }

  /** The entry `e` of a tree reflects the entry `f` on disk; its hash may have been left out. */
  predicate Reflects(e: Element, f: Element) {
    e == f || e == f.(hash := "")
  }

  ghost predicate Mirrors(m: Catalog, files: Catalog) {
    m.Keys == files.Keys && forall p :: p in m ==> Reflects(m[p], files[p])
  }

  /** The paths `ps` have come from another disk; only the modified time of `d` has changed besides. */
  ghost predicate Received(m: Catalog, m': Catalog, from: Catalog, ps: set<Path>, d: Path) {
    && ps <= from.Keys && m'.Keys == m.Keys + ps
    && OnlyStamp(m, m', d)
    && (forall q :: q in ps ==> m'[q] == from[q])
  }

  lemma ReceivedNothing(m: Catalog, from: Catalog, d: Path)
    ensures Received(m, m, from, {}, d)
  {
  }

  lemma ReceivedMore(m0: Catalog, m1: Catalog, m2: Catalog, from: Catalog, ps: set<Path>, qs: set<Path>, d: Path)
    requires Received(m0, m1, from, ps, d) && Received(m1, m2, from, qs, d) && d in m0 && d !in ps
    ensures Received(m0, m2, from, ps + qs, d)
  {
  }

  /** A new directory, filled, with its permissions, owner and modified time set at the end. */
  lemma ReceivedDir(m0: Catalog, m1: Catalog, m2: Catalog, from: Catalog, p: Path, ps: set<Path>)
    requires p.In? && p !in m0 && p in from && from[p].ty.Directory? && m1.Keys == m0.Keys + {p}
    requires OnlyStamp(m0, m1, p.dir)
    requires m1[p] == from[p].(per := m1[p].per, us := m1[p].us, gs := m1[p].gs, mt := m1[p].mt)
    requires p !in ps && Received(m1, m2, from, ps, p) && p.dir != p
    ensures p in m2 && !m2[p].ty.Symlink? && Received(m0, m2[p := from[p]], from, ps + {p}, p.dir)
    ensures m2[p].(per := from[p].per, us := from[p].us, gs := from[p].gs, mt := from[p].mt) == from[p]
  {
  }

  lemma ReceivedLeaf(m0: Catalog, m1: Catalog, from: Catalog, p: Path)
    requires p.In? && p !in m0 && p in from && m1.Keys == m0.Keys + {p} && OnlyStamp(m0, m1, p.dir)
    requires m1[p] == from[p].(us := m1[p].us, gs := m1[p].gs, mt := m1[p].mt) && p.dir != p
    ensures Received(m0, m1[p := from[p]], from, {p}, p.dir)
    ensures m1[p].(us := from[p].us, gs := from[p].gs, mt := from[p].mt) == from[p]
  {
  }

  lemma RoomLeft(m: Catalog, m': Catalog, from: Catalog, ps: set<Path>, d: Path)
    requires Received(m, m', from, ps, d) && IsDir(m, d) && ps !! m.Keys
    ensures IsDir(m', d) && m'.Keys == m.Keys + ps && (d != Top ==> d in m && d !in ps)
  {
  }

  /** Give a directory the modified time that the tree `m` has for it. */
  function Restamp(files: Catalog, d: Path, m: Catalog): Catalog {
    if d in files && d in m then files[d := files[d].(mt := m[d].mt)] else files
  }

  /** The modified time of a directory is put back to what it was. */
  lemma Restamped(m: Catalog, files: Catalog, files': Catalog, d: Path)
    requires OnlyStamp(files, files', d) && files'.Keys == files.Keys
    requires d in files ==> d in m && m[d].mt == files[d].mt
    ensures Restamp(files', d, m) == files
  {
  }

  /** New entries on disk and in the tree, with the modified time of their directory put back. */
  lemma MirrorCopy(m: Catalog, files: Catalog, files': Catalog, sm: Catalog, from: Catalog, p: Path)
    requires Mirrors(m, files) && Mirrors(sm, from) && p.In? && p.dir !in Subtree(sm, p)
    requires Received(files, files', from, Subtree(sm, p).Keys, p.dir) && Subtree(sm, p).Keys !! m.Keys
    ensures Mirrors(m + Subtree(sm, p), Restamp(files', p.dir, m + Subtree(sm, p))) && files.Keys <= files'.Keys
    ensures Restamp(files', p.dir, m + Subtree(sm, p)) == files + Subtree(from, p)
  {
    hide Restamp, Mirrors;
    MirrorSubtrees(m, files, sm, from, p);
    ReceivedStamp(m, files, files', sm, from, p);
    Restamped(m + Subtree(sm, p), files + Subtree(from, p), files', p.dir);
  }

  lemma MirrorSubtrees(m: Catalog, files: Catalog, sm: Catalog, from: Catalog, p: Path)
    requires Mirrors(m, files) && Mirrors(sm, from)
    ensures Mirrors(m + Subtree(sm, p), files + Subtree(from, p)) && Subtree(from, p).Keys == Subtree(sm, p).Keys
  {
  }

  lemma ReceivedStamp(m: Catalog, files: Catalog, files': Catalog, sm: Catalog, from: Catalog, p: Path)
    requires Mirrors(m, files) && Subtree(from, p).Keys == Subtree(sm, p).Keys && p.In? && p.dir !in Subtree(sm, p)
    requires Received(files, files', from, Subtree(sm, p).Keys, p.dir) && Subtree(sm, p).Keys !! m.Keys
    ensures OnlyStamp(files + Subtree(from, p), files', p.dir) && files'.Keys == (files + Subtree(from, p)).Keys
    ensures p.dir in files + Subtree(from, p) ==> p.dir in m && (m + Subtree(sm, p))[p.dir].mt == files[p.dir].mt
  {
  }

  lemma MirrorCut(m: Catalog, files: Catalog, files': Catalog, p: Path)
    requires Mirrors(m, files) && p.In?
    requires OnlyStamp(Cut(files, p), files', p.dir) && files'.Keys == Cut(files, p).Keys
    ensures Mirrors(Cut(m, p), Restamp(files', p.dir, Cut(m, p))) && Restamp(files', p.dir, Cut(m, p)) == Cut(files, p)
  {
    hide Restamp;
    Restamped(Cut(m, p), Cut(files, p), files', p.dir);
  }

  lemma MirrorKeys(m: Catalog, files: Catalog, d: Path)
    requires Mirrors(m, files)
    ensures m.Keys == files.Keys && (IsDir(m, d) <==> IsDir(files, d))
  {
  }

  /** The link that is made from an entry. */
  function LinkOf(e: Element): Element {
    Element(Symlink, LINK_PERM, e.us, e.gs, e.mt, 0, "", e.rp, e.target)
  }

  /** A link made from an entry of a tree is what the entry says just when the entry is sane. */
  lemma MirrorLink(m: Catalog, files: Catalog, files': Catalog, e: Element)
    requires Mirrors(m, files) && e.rp.In? && e.rp !in m && e.rp.dir != e.rp && e.ty.Symlink?
    requires files'.Keys == files.Keys + {e.rp} && OnlyStamp(files, files', e.rp.dir)
    requires files'[e.rp] == LinkOf(e)
    ensures Mirrors(m[e.rp := e], Restamp(files', e.rp.dir, m[e.rp := e])) <==> Sane(e)
    ensures Restamp(files', e.rp.dir, m[e.rp := e]) == files[e.rp := LinkOf(e)]
  {
    hide Restamp, Mirrors;
    LinkStamp(m, files, files', e);
    Restamped(m[e.rp := e], files[e.rp := LinkOf(e)], files', e.rp.dir);
    MirrorNew(m, files, e, LinkOf(e));
  }

  lemma LinkStamp(m: Catalog, files: Catalog, files': Catalog, e: Element)
    requires Mirrors(m, files) && e.rp.In? && e.rp !in m && e.rp.dir != e.rp
    requires files'.Keys == files.Keys + {e.rp} && OnlyStamp(files, files', e.rp.dir) && files'[e.rp] == LinkOf(e)
    ensures OnlyStamp(files[e.rp := LinkOf(e)], files', e.rp.dir) && files'.Keys == files[e.rp := LinkOf(e)].Keys
    ensures e.rp.dir in files[e.rp := LinkOf(e)] ==> e.rp.dir in m && m[e.rp.dir].mt == files[e.rp.dir].mt
  {
  }

  lemma MirrorNew(m: Catalog, files: Catalog, e: Element, f: Element)
    requires Mirrors(m, files) && e.rp !in m
    ensures Mirrors(m[e.rp := e], files[e.rp := f]) <==> Reflects(e, f)
  {
    assert m[e.rp := e][e.rp] == e;
  }

  /** One entry changed in the tree and on disk; the modified time of its directory was right before. */
  lemma MirrorEdit(m: Catalog, files: Catalog, p: Path, e: Element, f: Element)
    requires Mirrors(m, files) && p in m && Reflects(e, f) && p.In? && p.dir != p
    ensures Mirrors(m[p := e], files[p := f])
    ensures Restamp(files[p := f], p.dir, m[p := e]) == files[p := f]
  {
  }
}
