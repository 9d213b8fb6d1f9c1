/** Computing the hashes that a scan without hashes, or a copy from such a scan, has left out. */
module Hashes {
  import opened Elements
  import opened Catalogs
  import opened Shapes
  import opened Trees

  predicate Missing(e: Element) {
    e.ty.Regular? && e.hash == ""
  }

  /** The file can be read. */
  predicate Readable(files: Catalog, p: Path) {
    p in files && files[p].ty.Regular?
  }

  function Filled(e: Element, files: Catalog): Element {
    if Missing(e) && e.rp in files then e.(hash := files[e.rp].hash) else e
  }

  /** The hashes of the paths `ps`, and nothing else, have been filled in. */
  ghost predicate Completed(m: Catalog, m': Catalog, files: Catalog, ps: set<Path>) {
    m'.Keys == m.Keys && forall q :: q in m ==> m'[q] == if q in ps then Filled(m[q], files) else m[q]
  }

  /** The missing hashes of the paths `ps` can be computed. */
  ghost predicate Hashable(m: Catalog, files: Catalog, ps: set<Path>) {
    forall q :: q in ps && q in m && Missing(m[q]) ==> Readable(files, q)
  }

  lemma CompletedJoin(m: Catalog, m': Catalog, m'': Catalog, files: Catalog, ps: set<Path>, qs: set<Path>)
    requires Completed(m, m', files, ps) && Completed(m', m'', files, qs)
    ensures Completed(m, m'', files, ps + qs)
  {
  }

  lemma HashableJoin(m: Catalog, m': Catalog, files: Catalog, ps: set<Path>, qs: set<Path>)
    requires Completed(m, m', files, ps) && Hashable(m, files, ps)
    ensures Hashable(m, files, ps + qs) <==> Hashable(m', files, qs)
  {
  }

  lemma HashableLess(m: Catalog, files: Catalog, ps: set<Path>, qs: set<Path>)
    requires ps <= qs && Hashable(m, files, qs)
    ensures Hashable(m, files, ps)
  {
  }

  /** Only elements have been edited. */
  ghost predicate SameLists(s: Shape, s': Shape) {
    && s'.base == s.base && s'.top == s.top && s'.nodes == s.nodes && s'.store.Keys == s.store.Keys
    && forall n :: n in s.store ==> s'.store[n].content == s.store[n].content
  }

  lemma SameBeneath(s: Shape, s': Shape, p: Path)
    requires SameLists(s, s')
    ensures Beneath(s', p) == Beneath(s, p)
  {
  }

  /** Compute the hash of one entry, if it is a file without one; it fails just when the file cannot be read. */
  method ComputeHashIfNeeded(t: DirectoryTree, n: Addr, ghost p: Path) returns (ok: bool)
    requires t.Valid() && t.disk != null && p in t.nodes && t.nodes[p] == n
    modifies t`store
    ensures t.Valid() && SameLists(old(t.State()), t.State())
    ensures ok ==> Completed(old(t.Contents()), t.Contents(), t.disk.files, {p})
    ensures ok <==> Hashable(old(t.Contents()), t.disk.files, {p})
  {
    hide Shape.Wired, Indexed, Ordered, Shape.Contents, Beneath;
    ghost var s := t.State();
    CellOf(t, p);
    var e := t.store[n].elem;
    ok := true;
    if !e.ty.Regular? || e.hash != "" { return; }
    if !Readable(t.disk.files, e.rp) { return false; }
    e := e.(hash := t.disk.files[e.rp].hash);
    WiredEdited(s, p, e);
    IndexedEdited(s, t.index, p, e);
    if t.ordered { OrderedEdited(s, p, e); }
    t.store := t.store[n := t.store[n].(elem := e)];
    assert t.State() == Edited(s, p, e);
  }

  lemma CellOf(t: DirectoryTree, p: Path)
    requires t.Valid() && p in t.nodes
    ensures t.nodes[p] in t.store && p in t.Contents() && t.store[t.nodes[p]].elem == t.Contents()[p]
    ensures t.Contents()[p].rp == p
    ensures !t.Contents()[p].ty.Symlink? ==> p in t.index
    ensures t.State().Has(p) && t.State().Kids(p) == t.store[t.nodes[p]].content && p in Beneath(t.State(), p)
  {
    LeafBeneath(t.State(), p);
  }

  method ComputeMissingBelow(t: DirectoryTree, n: Addr, ghost p: Path) returns (ok: bool)
    requires t.Valid() && t.disk != null && p in t.nodes && t.nodes[p] == n
    modifies t`store
    ensures t.Valid() && SameLists(old(t.State()), t.State())
    ensures ok ==> Completed(old(t.Contents()), t.Contents(), t.disk.files, Beneath(t.State(), p))
    ensures ok <==> Hashable(old(t.Contents()), t.disk.files, Beneath(t.State(), p))
    decreases Beneath(t.State(), p), 0
  {
    hide Shape.Wired, Indexed, Ordered, Shape.Contents, Beneath, Completed, Hashable, DirectoryTree.Contents;
    ghost var s, m := t.State(), t.Contents();
    CellOf(t, p);
    ok := ComputeHashIfNeeded(t, n, p);
    SameBeneath(s, t.State(), p);
    if Hashable(m, t.disk.files, Beneath(s, p)) { HashableLess(m, t.disk.files, {p}, Beneath(s, p)); }
    if !ok { return; }
    CellOf(t, p);
    ghost var m1 := t.Contents();
    HashableJoin(m, m1, t.disk.files, {p}, Beneath(s, p) - {p});
    assert {p} + (Beneath(s, p) - {p}) == Beneath(s, p);
    ok := ComputeMissingList(t, t.store[n].content, p);
    SameBeneath(s, t.State(), p);
    if ok { CompletedJoin(m, m1, t.Contents(), t.disk.files, {p}, Beneath(s, p) - {p}); }
  }

  method ComputeMissingList(t: DirectoryTree, l: seq<Addr>, ghost d: Path) returns (ok: bool)
    requires t.Valid() && t.disk != null && t.State().Has(d) && t.State().Kids(d) == l
    modifies t`store
    ensures t.Valid() && SameLists(old(t.State()), t.State())
    ensures ok ==> Completed(old(t.Contents()), t.Contents(), t.disk.files, Beneath(t.State(), d) - {d})
    ensures ok <==> Hashable(old(t.Contents()), t.disk.files, Beneath(t.State(), d) - {d})
    decreases Beneath(t.State(), d) - {d}, 1
  {
    hide Shape.Wired, Indexed, Ordered, Shape.Contents, Beneath, Completed, Hashable, DirectoryTree.Contents, Swept;
    ghost var s, m := t.State(), t.Contents();
    ListEnds(t, d);
    ok := true;
    for i := 0 to |l|
      invariant t.Valid() && SameLists(s, t.State()) && ok
      invariant Completed(m, t.Contents(), t.disk.files, Swept(s, l[..i]))
      invariant Hashable(m, t.disk.files, Swept(s, l[..i]))
    {
      ghost var m1 := t.Contents();
      ghost var c := KidAt(s, d, i);
      SameBeneath(s, t.State(), c);
      HashableJoin(m, m1, t.disk.files, Swept(s, l[..i]), Beneath(s, c));
      ok := ComputeMissingBelow(t, l[i], c);
      SameBeneath(s, t.State(), c);
      if !ok {
        SweptLess(s, d, i);
        SameBeneath(s, t.State(), d);
        if Hashable(m, t.disk.files, Beneath(s, d) - {d}) {
          HashableLess(m, t.disk.files, Swept(s, l[..i + 1]), Beneath(s, d) - {d});
        }
        return;
      }
      CompletedJoin(m, m1, t.Contents(), t.disk.files, Swept(s, l[..i]), Beneath(s, c));
    }
    SameBeneath(s, t.State(), d);
    assert l[..|l|] == l;
  }

  lemma SweptLess(s: Shape, d: Path, i: nat)
    requires s.Wired() && s.Has(d) && i < |s.Kids(d)|
    ensures Swept(s, s.Kids(d)[..i + 1]) <= Beneath(s, d) - {d}
  {
    SweptAll(s, d);
  }

  lemma ListEnds(t: DirectoryTree, d: Path)
    requires t.Valid() && t.State().Has(d)
    ensures t.State().Wired() && forall files :: Completed(t.Contents(), t.Contents(), files, Swept(t.State(), []))
    ensures forall files :: Hashable(t.Contents(), files, Swept(t.State(), []))
    ensures Swept(t.State(), t.State().Kids(d)) == Beneath(t.State(), d) - {d}
    ensures t.State().Kids(d)[..0] == []
  {
    SweptAll(t.State(), d);
  }

  method ComputeMissingHashes(t: DirectoryTree) returns (ok: bool)
    requires t.Valid()
    modifies t`store
    ensures t.Valid() && t.Unindexed() == old(t.Unindexed())
    ensures ok ==> t.disk != null && Completed(old(t.Contents()), t.Contents(), t.disk.files, t.Contents().Keys)
    ensures ok <==> t.disk != null && Hashable(old(t.Contents()), t.disk.files, old(t.Contents()).Keys)
  {
    hide Shape.Wired, Indexed, Ordered, Beneath, Completed, Hashable;
    if t.disk == null { return false; }
    WholeTree(t);
    ok := ComputeMissingList(t, t.topContent, Top);
    WholeTree(t);
  }

  lemma WholeTree(t: DirectoryTree)
    requires t.Valid()
    ensures t.State().Has(Top) && t.State().Kids(Top) == t.topContent
    ensures Beneath(t.State(), Top) - {Top} == t.Contents().Keys
  {
    hide Lists;
    forall p ensures Under(p, Top) { UnderTop(p); }
    t.Facts();
    ContentsKeys(t.State());
  }
}
