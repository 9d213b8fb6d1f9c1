/** The indexed directory tree. */
module Trees {
  import opened Elements
  import opened Catalogs
  import opened Shapes
  import opened Order
  import opened Disks

  ghost predicate Agree(index: Nodes, nodes: Nodes) {
    forall p :: p in index ==> p in nodes && index[p] == nodes[p]
  }

  ghost predicate LinksOnly(index: Nodes, m: Catalog) {
    forall p :: p in m && p !in index ==> m[p].ty.Symlink?
  }

  /** Every address in the index leads to the node of its path; only symlinks may be missing. */
  ghost predicate Indexed(index: Nodes, s: Shape) {
    && Agree(index, s.nodes)
    && LinksOnly(index, s.Contents())
  }

  lemma IndexedWithout(index: Nodes, index': Nodes, s: Shape, p: Path, k: seq<Addr>)
    requires Named(s.nodes, s.store) && p in s.nodes && s.Has(p.dir) && Indexed(index, s)
    requires Agree(index', s.nodes) && index'.Keys == index.Keys - Beneath(s, p)
    requires s.Without(p, k).Contents() == Cut(s.Contents(), p)
    ensures Indexed(index', s.Without(p, k))
  {
    hide Named, Shape.Contents;
  }

  /** `remove_if` on a list, with the equality of the source. */
  method RemoveIf(l: seq<Addr>, store: Store, e: Element) returns (r: seq<Addr>)
    requires Known(l, store)
    ensures forall n :: n in r <==> n in l && !Same(store[n].elem, e)
    ensures NoDup(l) ==> NoDup(r)
    ensures DirsFirst(l, store) ==> DirsFirst(r, store)
  {
    r := [];
    for i := 0 to |l|
      invariant forall n :: n in r <==> n in l[..i] && !Same(store[n].elem, e)
      invariant NoDup(l) ==> NoDup(r)
      invariant DirsFirst(l, store) ==> DirsFirst(r, store)
    {
      if !Same(store[l[i]].elem, e) {
        r := r + [l[i]];
      }
    }
    assert l[..|l|] == l;
  }

  /** The neighbourhood of a node. */
  lemma Around(s: Shape, p: Path, index: Nodes)
    requires s.Wired() && s.base == Top && p in s.nodes && Agree(index, s.nodes)
    ensures p.In? && s.Has(p) && s.Has(p.dir)
    ensures p in index ==> index[p] == s.nodes[p]
    ensures p.dir in index ==> index[p.dir] == s.nodes[p.dir]
    ensures s.store[s.nodes[p]].elem.rp == p
    ensures Known(s.Kids(p.dir), s.store) && NoDup(s.Kids(p.dir))
    ensures forall n :: n in s.Kids(p.dir) ==> (s.store[n].elem.rp == p <==> n == s.nodes[p])
  {
    KidsOf(s, p.dir);
  }

  class DirectoryTree {
    var topContent: seq<Addr>
    var index: Nodes
    var store: Store
    var next: Addr
    /** The directory on disk that this tree describes, if any. */
    var disk: Disk?
    /** The node of every path in the lists. */
    ghost var nodes: Nodes
    /** Whether this tree keeps the promise that its lists have the directories first. */
    ghost const ordered: bool

    constructor (ghost ordered: bool)
      ensures Valid() && Contents() == map[] && Unindexed() == {} && disk == null && this.ordered == ordered
    {
      topContent, index, store, next, disk := [], map[], map[], 0, null;
      nodes := map[];
      this.ordered := ordered;
      new;
      WiredEmpty(Top, store);
    }

    ghost function State(): Shape
      reads this`topContent, this`nodes, this`store
    {
      Shape(Top, topContent, nodes, store)
    }

    ghost predicate Valid()
      reads this
    {
      && State().Wired()
      && Indexed(index, State())
      && (forall n :: n in store ==> n < next)
      && (ordered ==> Ordered(State()))
    }

    ghost function Contents(): Catalog
      reads this`topContent, this`nodes, this`store
    {
      State().Contents()
    }

    /** The tree describes its directory on disk. */
    ghost predicate Mirrored()
      reads this, disk
    {
      disk != null && disk.Valid() && Mirrors(Contents(), disk.files)
    }

    /** The paths that are in the lists but not in the index. */
    ghost function Unindexed(): set<Path>
      reads this`nodes, this`index
    {
      nodes.Keys - index.Keys
    }

    /** Take the node of `p` out of the list it is in. */
    method Unlist(p: Path) returns (k: seq<Addr>)
      requires State().Wired() && p in nodes && Agree(index, nodes)
      requires p in index && p.In? && (p.dir == Top || p.dir in index)
      modifies this`topContent, this`store
      ensures old(State()).Has(p.dir)
      ensures NoDup(k) && forall n :: n in k <==> n in old(State()).Kids(p.dir) && n != nodes[p]
      ensures DirsFirst(old(State()).Kids(p.dir), old(store)) ==> DirsFirst(k, old(store))
      ensures State() == old(State()).WithKids(p.dir, k)
    {
      hide Shape.Wired, Agree, NoDup, DirsFirst;
      ghost var s := State();
      Around(s, p, index);
      var elem := store[index[p]].elem;
      if p.dir != Top {
        var d := index[p.dir];
        k := RemoveIf(store[d].content, store, elem);
        store := store[d := store[d].(content := k)];
      } else {
        k := RemoveIf(topContent, store, elem);
        topContent := k;
      }
    }

    /**
     * Forget everything below the node `n` of the path `p`, but not `n` itself. The program does not survive a path
     * that the index does not have.
     */
    method RecursiveRemoveFromIndex(n: Addr, ghost p: Path) returns (ok: bool)
      requires State().Wired() && p in nodes && nodes[p] == n && Agree(index, nodes)
      modifies this`index
      ensures ok <==> Beneath(State(), p) - {p} <= old(index.Keys)
      ensures ok ==> index.Keys == old(index.Keys) - (Beneath(State(), p) - {p}) && Agree(index, nodes)
      decreases Beneath(State(), p), 0
    {
      hide Shape.Wired, Swept, Beneath, Agree;
      ghost var s := State();
      SweptEnds(s, p);
      ok := true;
      var l := store[n].content;
      for i := 0 to |l|
        invariant Swept(s, l[..i]) <= old(index.Keys)
        invariant index.Keys == old(index.Keys) - Swept(s, l[..i]) && Agree(index, nodes)
      {
        ghost var c := KidAt(s, p, i);
        ok := ForgetKid(l[i], c);
        if !ok { return; }
      }
      ok := true;
    }

    method ForgetKid(n: Addr, ghost p: Path) returns (ok: bool)
      requires State().Wired() && p in nodes && nodes[p] == n && Agree(index, nodes)
      modifies this`index
      ensures ok <==> Beneath(State(), p) <= old(index.Keys)
      ensures ok ==> index.Keys == old(index.Keys) - Beneath(State(), p) && Agree(index, nodes)
      decreases Beneath(State(), p), 1
    {
      LeafBeneath(State(), p);
      if store[n].elem.ty.Directory? {
        ok := RecursiveRemoveFromIndex(n, p);
        if !ok { return; }
      }
      ok := store[n].elem.rp in index;
      index := index - {store[n].elem.rp};
    }

    /** Enter the node `n` of the path `p` and everything below it. */
    method RecursiveAddToIndex(n: Addr, ghost p: Path)
      requires State().Wired() && p in nodes && nodes[p] == n
      requires Beneath(State(), p) !! index.Keys && Agree(index, nodes)
      modifies this`index
      ensures index.Keys == old(index.Keys) + Beneath(State(), p) && Agree(index, nodes)
      decreases Beneath(State(), p), 0
    {
      hide Shape.Wired, Swept, Beneath, Agree;
      ghost var s := State();
      SweptEnds(s, p);
      AgreeMore(index, nodes, p);
      var l := store[n].content;
      index := index[store[n].elem.rp := n];
      for i := 0 to |l|
        invariant index.Keys == old(index.Keys) + {p} + Swept(s, l[..i]) && Agree(index, nodes)
      {
        ghost var c := KidAt(s, p, i);
        EnterKid(l[i], c);
      }
    }

    method EnterKid(n: Addr, ghost p: Path)
      requires State().Wired() && p in nodes && nodes[p] == n
      requires Beneath(State(), p) !! index.Keys && Agree(index, nodes)
      modifies this`index
      ensures index.Keys == old(index.Keys) + Beneath(State(), p) && Agree(index, nodes)
      decreases Beneath(State(), p), 1
    {
      LeafBeneath(State(), p);
      if store[n].elem.ty.Directory? {
        RecursiveAddToIndex(n, p);
      } else {
        assert p !in index;
        index := index[store[n].elem.rp := n];
      }
    }

    /**
     * Copy the node `n` of another tree, and everything below it, to new addresses.
     * The copy is a forest `f` with the one root `r`.
     */
    method RecursiveAdd(from: Store, n: Addr, ghost src: Shape, ghost p: Path) returns (r: Addr, ghost f: Shape)
      requires src.Wired() && src.store == from && p in src.nodes && src.nodes[p] == n
      requires forall a :: a in store ==> a < next
      modifies this`store, this`next
      ensures (forall a :: a in store ==> a < next) && Extends(old(store), store)
      ensures r !in old(store) && p.In? && f.base == p.dir && f.top == [r] && f.store == store
      ensures f.Wired() && f.Contents() == Pick(src.Contents(), Beneath(src, p)) && OrderedIn(f.nodes, f.store)
      decreases Beneath(src, p)
    {
      hide OrderedIn, Shape.Wired, Swept, Beneath, Pick, Shape.Contents, NoDup, Sorted;
      SweptEnds(src, p);
      var l := from[n].content;
      var kids := [];
      f := Shape(p, [], map[], store);
      CopyNothing(src, store, p);
      for i := 0 to |l|
        invariant (forall a :: a in store ==> a < next) && Extends(old(store), store)
        invariant f.Wired() && f.base == p && f.top == kids && f.store == store && OrderedIn(f.nodes, f.store)
        invariant f.Contents() == Pick(src.Contents(), Swept(src, l[..i]))
      {
        ghost var c := KidAt(src, p, i);
        ghost var g;
        var k;
        k, g := RecursiveAdd(from, l[i], src, c);
        PickJoin(src.Contents(), Swept(src, l[..i]), Beneath(src, c));
        WiredJoin(f, g, k);
        OrderedJoin(f, g);
        kids := kids + [k];
        f := Shape(p, kids, f.nodes + g.nodes, store);
      }
      CopyTop(src, p, f);
      r, f := Close(from[n].elem, kids, f);
    }

    /** Sort the entries of a new directory and give it an address. */
    method Close(e: Element, kids: seq<Addr>, ghost f: Shape) returns (r: Addr, ghost g: Shape)
      requires f.Wired() && f.base == e.rp && e.rp.In? && f.top == kids && f.store == store
      requires (e.ty.Directory? || f.nodes == map[]) && OrderedIn(f.nodes, f.store)
      requires forall a :: a in store ==> a < next
      modifies this`store, this`next
      ensures (forall a :: a in store ==> a < next) && Extends(old(store), store)
      ensures r !in old(store) && g.base == e.rp.dir && g.top == [r] && g.store == store
      ensures g.Wired() && g.Contents() == f.Contents()[e.rp := e] && OrderedIn(g.nodes, g.store)
    {
      hide Shape.Wired, NoDup, Sorted, Shape.Contents, OrderedIn, DirsFirst;
      TopKnown(f);
      var sorted := Sort(kids, store);
      SameEntries(kids, sorted);
      WiredPermute(f, sorted);
      SortedDirsFirst(sorted, store);
      OrderedWrap(f.(top := sorted), next, e);
      r := next;
      WiredWrap(f.(top := sorted), r, e);
      g := Wrap(f.(top := sorted), r, e);
      store := store[r := Cell(e, sorted)];
      next := next + 1;
    }

    /** Put a new node into the list of a directory and sort the list. */
    method Enlist(p: Path, r: Addr, ghost f: Shape)
      requires State().Wired() && f.Wired() && p.In? && f.base == p.dir && f.top == [r] && f.store == store
      requires p.dir == Top || (p.dir in index && p.dir in nodes && index[p.dir] == nodes[p.dir])
      requires Fits(State(), f) && r !in State().Kids(p.dir)
      modifies this`topContent, this`store, this`nodes
      ensures State().Wired() && Contents() == old(Contents()) + f.Contents()
      ensures nodes == old(nodes) + f.nodes && store.Keys == old(store.Keys)
      ensures old(Ordered(State())) && OrderedIn(f.nodes, f.store) ==> Ordered(State())
    {
      hide Shape.Wired, NoDup, Sorted, Shape.Contents, Named, Nested, Ordered, OrderedIn, DirsFirst;
      ghost var s := State();
      var l := topContent;
      if p.dir != Top { l := store[index[p.dir]].content; }
      OneMore(s, f, r);
      var k := Sort(l + [r], store);
      SameEntries(l + [r], k);
      WiredGraft(s, f, k);
      SortedDirsFirst(k, store);
      if Ordered(s) && OrderedIn(f.nodes, f.store) { OrderedGraft(s, f, k); }
      if p.dir != Top {
        store := store[index[p.dir] := store[index[p.dir]].(content := k)];
      } else {
        topContent := k;
      }
      nodes := nodes + f.nodes;
      assert State() == s.With(p.dir, k, f.nodes);
    }

    /** A list already has an entry for `p`. */
    method Taken(l: seq<Addr>, p: Path) returns (b: bool)
      requires Known(l, store)
      ensures b <==> exists i :: 0 <= i < |l| && store[l[i]].elem.rp == p
    {
      for i := 0 to |l|
        invariant forall j :: 0 <= j < i ==> store[l[j]].elem.rp != p
      {
        if store[l[i]].elem.rp == p { return true; }
      }
      return false;
    }

    /** There is a directory for a new entry `p`, and the name is free. */
    method Place(p: Path) returns (ok: bool)
      requires Valid() && p.In?
      ensures ok <==> IsDir(Contents(), p.dir) && p !in Contents()
      ensures ok ==> && State().Has(p.dir) && p !in nodes
                     && (p.dir != Top ==> p.dir in index && index[p.dir] == nodes[p.dir]
                                          && store[nodes[p.dir]].elem.ty.Directory?)
    {
      hide Shape.Wired, Indexed, Ordered, NoDup;
      ContentsKeys(State());
      ghost var s := State();
      IndexedIsDir(index, s, p);
      var l := topContent;
      if p.dir != Top {
        if p.dir !in index || !store[index[p.dir]].elem.ty.Directory? { return false; }
        l := store[index[p.dir]].content;
      }
      var taken := Taken(l, p);
      return !taken;
    }

    /** Copy the subtree of `src` at `p` to the same place of this tree. */
    method TreeCopy(src: DirectoryTree, p: Path) returns (ok: bool)
      requires Valid() && src.Valid() && src != this
      modifies this`topContent, this`index, this`store, this`nodes, this`next
      ensures Valid()
      ensures ok <==> src.Finds(p) && p.In? && IsDir(old(Contents()), p.dir) && p !in old(Contents())
      ensures Contents() == if ok then old(Contents()) + Subtree(src.Contents(), p) else old(Contents())
      ensures Unindexed() == old(Unindexed())
    {
      hide Shape.Wired, Indexed, Ordered, NoDup, Shape.Contents, Subtree, Pick, Beneath;
      src.FindsIndexed(p);
      if p !in src.index { return false; }
      IndexedPath(src.index, src.State(), p);
      ok := Place(p);
      if !ok { return; }
      ghost var s := State();
      ghost var f;
      var r;
      r, f := RecursiveAdd(src.store, src.index[p], src.State(), p);
      CopyPaths(src.State(), f, p);
      CopyFits(s, f, p, r);
      StaysOrdered(s, f.store);
      Enlist(p, r, f);
      CopyIndexed(s, f, p, State(), index);
      RecursiveAddToIndex(r, p);
      IndexedMore(s, old(index), f, State(), index);
    }

    /** No entry at or below `p` is missing from the index. */
    ghost predicate Whole(p: Path)
      reads this`nodes, this`index
    {
      forall q :: q in Unindexed() ==> !Under(q, p)
    }

    /** The program does not survive the removal of something above an entry that the index lacks. */
    method RemoveFromTree(p: Path) returns (ok: bool)
      requires Valid()
      modifies this`topContent, this`index, this`store, this`nodes
      ensures ok <==> old(Finds(p)) && old(Whole(p))
      ensures ok || !old(Finds(p)) ==> Valid() && Unindexed() == old(Unindexed())
      ensures Contents() == if ok then Cut(old(Contents()), p) else old(Contents())
    {
      hide Shape.Wired, Indexed, Ordered, NoDup, Shape.Contents, Cut, Beneath, Agree;
      FindsIndexed(p);
      if p !in index { return false; }
      ghost var s := State();
      NodeAt(s, index, p);
      ok := true;
      if store[index[p]].elem.ty.Directory? {
        ok := RecursiveRemoveFromIndex(index[p], p);
        if !ok { return; }
      }
      var k := Unlist(p);
      Removed(s, old(index), index, p, k, ordered);
      index := index - {p};
      nodes := Cut(nodes, p);
      assert State() == s.Without(p, k);
    }

    /**
     * The new node goes to its list; the index is left as it was. In the top directory nothing checks whether the name
     * is taken.
     */
    method AddSymlinkToTree(e: Element) returns (ok: bool)
      requires Valid() && e.ty.Symlink? && e.rp.In?
      modifies this`topContent, this`store, this`nodes, this`next
      ensures ok <==> IsDir(old(Contents()), e.rp.dir) && (e.rp !in old(Contents()) || e.rp.dir == Top)
      ensures Valid() <==> !(ok && e.rp in old(Contents()))
      ensures Valid() ==> Contents() == if ok then old(Contents())[e.rp := e] else old(Contents())
      ensures Valid() ==> Unindexed() == if ok then old(Unindexed()) + {e.rp} else old(Unindexed())
    {
      hide Shape.Wired, Indexed, Ordered, NoDup, Shape.Contents;
      ok := Place(e.rp);
      if !ok {
        if e.rp.dir == Top {
          ok := true;
          PushTwice(e);
        }
        return;
      }
      ghost var s := State();
      ghost var f := Shape(e.rp, [], map[], store);
      WiredEmpty(e.rp, store);
      var r;
      r, f := Close(e, [], f);
      LinkPaths(f, e, r);
      CopyFits(s, f, e.rp, r);
      StaysOrdered(s, f.store);
      Enlist(e.rp, r, f);
      IndexedLess(s, index, f, State(), e);
    }

    /** The top list gets a second entry for a path. */
    method PushTwice(e: Element)
      requires Valid() && e.rp in Contents() && e.rp.In? && e.rp.dir == Top
      modifies this`topContent, this`store, this`next
      ensures !Valid()
    {
      hide Shape.Contents, Indexed, Ordered;
      TopNode(State(), e.rp);
      ghost var n := nodes[e.rp];
      TopKnown(State());
      var r := next;
      store := store[r := Cell(e, [])];
      next := next + 1;
      var l := topContent + [r];
      var k := Sort(l, store);
      SameEntries(l, k);
      assert r in l && n in l;
      topContent := k;
      TwoNodes(State(), n, r);
    }

    /** Replace the entry of an indexed path by one of the same type and path. */
    method SetElement(p: Path, e: Element)
      requires Valid() && p in index && p in Contents() && e.rp == p && e.ty == Contents()[p].ty
      modifies this`store
      ensures Valid() && Contents() == old(Contents())[p := e]
    {
      hide Shape.Wired, Indexed, Ordered, Shape.Contents;
      ghost var s := State();
      IndexedPath(index, s, p);
      WiredEdited(s, p, e);
      IndexedEdited(s, index, p, e);
      if ordered { OrderedEdited(s, p, e); }
      store := store[index[p] := store[index[p]].(elem := e)];
      assert State() == Edited(s, p, e);
    }

    method ModifyPermissionsInTree(p: Path, per: nat) returns (ok: bool)
      requires Valid()
      modifies this`store
      ensures Valid() && (ok <==> old(Finds(p)))
      ensures Contents() == if ok then old(Contents())[p := old(Contents())[p].(per := per)] else old(Contents())
    {
      hide Shape.Wired, Indexed, Ordered;
      FindsIndexed(p);
      ok := p in index;
      if ok {
        IndexedPath(index, State(), p);
        SetElement(p, store[index[p]].elem.(per := per));
      }
    }

    method ModifyOwnerInTree(p: Path, us: string, gs: string) returns (ok: bool)
      requires Valid()
      modifies this`store
      ensures Valid() && (ok <==> old(Finds(p)))
      ensures Contents() ==
              if ok then old(Contents())[p := old(Contents())[p].(us := us, gs := gs)] else old(Contents())
    {
      hide Shape.Wired, Indexed, Ordered;
      FindsIndexed(p);
      ok := p in index;
      if ok {
        IndexedPath(index, State(), p);
        SetElement(p, store[index[p]].elem.(us := us, gs := gs));
      }
    }

    method ModifyMtimeInTree(p: Path, mt: int) returns (ok: bool)
      requires Valid()
      modifies this`store
      ensures Valid() && (ok <==> old(Finds(p)))
      ensures Contents() == if ok then old(Contents())[p := old(Contents())[p].(mt := mt)] else old(Contents())
    {
      hide Shape.Wired, Indexed, Ordered;
      FindsIndexed(p);
      ok := p in index;
      if ok {
        IndexedPath(index, State(), p);
        SetElement(p, store[index[p]].elem.(mt := mt));
      }
    }

    // ---------- operations on the tree and on disk ----------

    method BindToTopPath(d: Disk?)
      requires Valid()
      modifies this`disk
      ensures Valid() && disk == d
    {
      disk := d;
    }

    /** Give an entry on disk the owner and the modified time of `e`. */
    method Finish(p: Path, e: Element)
      requires disk != null && disk.Valid() && p in disk.files
      modifies disk
      ensures disk.Valid()
      ensures disk.files == old(disk.files)[p := old(disk.files)[p].(us := e.us, gs := e.gs, mt := e.mt)]
    {
      disk.Chown(p, e.us, e.gs);
      disk.Utime(p, e.mt);
    }

    /** This tree holds an indexed copy of the subtree of `src` at `p`, and `src` describes its disk. */
    ghost predicate Twin(src: DirectoryTree, p: Path)
      reads this, src, src.disk
    {
      && State().Wired() && Agree(index, nodes) && src.State().Wired() && src.Mirrored() && src != this
      && p in src.nodes && p.In?
      && (forall q :: q in Beneath(src.State(), p) ==>
            && q in index && q in Contents() && q in src.Contents()
            && Contents()[q] == src.Contents()[q] && !src.Contents()[q].ty.Unknown?)
    }

    /** The file system has a directory for the paths `ps` and none of them yet. */
    ghost predicate Room(src: DirectoryTree, d: Path, ps: set<Path>)
      reads this, disk, src
    {
      disk != null && disk != src.disk && disk.Valid() && IsDir(disk.files, d) && ps !! disk.files.Keys
    }

    /** Copy the entry of the node `n` of `src`, and everything below it, from disk to disk. */
    method RecursiveFilesystemCopy(src: DirectoryTree, n: Addr, m: Addr, ghost p: Path)
      requires Twin(src, p) && src.nodes[p] == n && p in nodes && nodes[p] == m && src.disk != null
      requires Room(src, p.dir, Beneath(src.State(), p))
      modifies disk
      ensures disk.Valid()
      ensures Received(old(disk.files), disk.files, src.disk.files, Beneath(src.State(), p), p.dir)
      decreases Beneath(src.State(), p), 2
    {
      hide Twin, Beneath, Received, Disk.Valid;
      TwinTop(src, p);
      var e := store[m].elem;
      if e.ty.Directory? {
        CopyDirectory(src, n, e);
      } else {
        CopyLeaf(src, e);
      }
    }

    method CopyDirectory(src: DirectoryTree, n: Addr, e: Element)
      requires e.ty.Directory? && Twin(src, e.rp) && src.nodes[e.rp] == n && src.disk != null
      requires e.rp in src.disk.files && Reflects(e, src.disk.files[e.rp]) && Sane(src.disk.files[e.rp])
      requires e.rp.In? && Room(src, e.rp.dir, Beneath(src.State(), e.rp)) && e.rp in Beneath(src.State(), e.rp)
      modifies disk
      ensures disk.Valid()
      ensures Received(old(disk.files), disk.files, src.disk.files, Beneath(src.State(), e.rp), e.rp.dir)
      decreases Beneath(src.State(), e.rp), 1
    {
      hide Twin, Beneath, Received, Disk.Valid, OnlyStamp;
      ghost var p, ps := e.rp, Beneath(src.State(), e.rp) - {e.rp};
      disk.Create(Element(Directory, 0, "", "", 0, 0, "", e.rp, ""));
      ghost var made := disk.files;
      CopyContent(src, n, p);
      ghost var filled := disk.files;
      ReceivedDir(old(disk.files), made, filled, src.disk.files, p, ps);
      disk.Chmod(e.rp, e.per);
      Finish(e.rp, e);
      assert disk.files == filled[p := src.disk.files[p]];
      assert ps + {p} == Beneath(src.State(), p);
    }

    method CopyLeaf(src: DirectoryTree, e: Element)
      requires src.disk != null && e.rp in src.disk.files && e.rp.In? && src.disk.files[e.rp].rp == e.rp
      requires Reflects(e, src.disk.files[e.rp]) && Sane(src.disk.files[e.rp])
      requires Room(src, e.rp.dir, {e.rp})
      modifies disk
      ensures disk.Valid()
      ensures Received(old(disk.files), disk.files, src.disk.files, {e.rp}, e.rp.dir)
    {
      hide Received, Disk.Valid, OnlyStamp;
      disk.Create(src.disk.files[e.rp]);
      ReceivedLeaf(old(disk.files), disk.files, src.disk.files, e.rp);
      Finish(e.rp, e);
    }

    method CopyContent(src: DirectoryTree, n: Addr, ghost p: Path)
      requires Twin(src, p) && src.nodes[p] == n && src.disk != null
      requires p in Beneath(src.State(), p) && Room(src, p, Beneath(src.State(), p) - {p})
      modifies disk
      ensures disk.Valid()
      ensures Received(old(disk.files), disk.files, src.disk.files, Beneath(src.State(), p) - {p}, p)
      decreases Beneath(src.State(), p), 0
    {
      hide Twin, Beneath, Swept, Shape.Wired, Received, Disk.Valid;
      ghost var s := src.State();
      TwinEnds(src, p);
      var l := src.store[n].content;
      ReceivedNothing(disk.files, src.disk.files, p);
      for i := 0 to |l|
        invariant disk.Valid() && Received(old(disk.files), disk.files, src.disk.files, Swept(s, l[..i]), p)
      {
        ghost var c := KidAt(s, p, i);
        TwinKid(src, p, c);
        ghost var before := disk.files;
        RoomLeft(old(disk.files), before, src.disk.files, Swept(s, l[..i]), p);
        RecursiveFilesystemCopy(src, l[i], index[src.store[l[i]].elem.rp], c);
        ReceivedMore(old(disk.files), before, disk.files, src.disk.files, Swept(s, l[..i]), Beneath(s, c), p);
      }
    }

    lemma TwinTop(src: DirectoryTree, p: Path)
      requires Twin(src, p) && p in nodes
      ensures p.In? && p in Beneath(src.State(), p) && p.dir !in Beneath(src.State(), p)
      ensures src.nodes[p] in src.store && src.store[src.nodes[p]].elem.rp == p && src.disk != null
      ensures p in src.disk.files
      ensures nodes[p] in store && store[nodes[p]].elem == src.store[src.nodes[p]].elem
      ensures Sane(src.disk.files[p]) && Reflects(store[nodes[p]].elem, src.disk.files[p])
      ensures src.disk.files[p].rp == p && !src.disk.files[p].ty.Unknown?
      ensures store[nodes[p]].elem.ty.Directory? || Beneath(src.State(), p) == {p}
    {
      LeafBeneath(src.State(), p);
      ContentsKeys(src.State());
      if p.dir in Beneath(src.State(), p) { UnderIsDeeper(p.dir, p); }
    }

    lemma TwinEnds(src: DirectoryTree, p: Path)
      requires Twin(src, p)
      ensures src.State().Wired() && src.State().Has(p) && p != Top
      ensures Swept(src.State(), src.State().Kids(p)[..0]) == {}
      ensures Swept(src.State(), src.State().Kids(p)[..|src.State().Kids(p)|]) == Beneath(src.State(), p) - {p}
    {
      SweptEnds(src.State(), p);
    }

    lemma TwinKid(src: DirectoryTree, p: Path, c: Path)
      requires Twin(src, p) && c in src.nodes && Beneath(src.State(), c) <= Beneath(src.State(), p)
      ensures Twin(src, c) && c in index && c in nodes && index[c] == nodes[c]
      ensures src.nodes[c] in src.store && src.store[src.nodes[c]].elem.rp == c
    {
      LeafBeneath(src.State(), c);
    }

    /** Put the modified time of a directory back to what the tree says. */
    method FixupParentMtime(d: Path)
      requires Valid() && disk != null && disk.Valid()
      requires d == Top || (d in index && d in disk.files)
      modifies disk
      ensures disk.Valid() && disk.files == Restamp(old(disk.files), d, Contents())
    {
      hide Shape.Wired, Indexed, Ordered, Disk.Valid;
      NoTop(State(), disk);
      if d == Top { return; }
      IndexedPath(index, State(), d);
      disk.Utime(d, store[index[d]].elem.mt);
    }

    /** The entries that the index has. */
    ghost function Seen(): Catalog
      reads this`topContent, this`nodes, this`store, this`index
    {
      Visible(Contents(), Unindexed())
    }

    /** What the index says about a path: entries that are not in it are not seen. */
    function Search(p: Path): (r: Option<Element>)
      requires Valid()
      reads this
      ensures r == Look(Seen(), p) && r == if p in Unindexed() then None else Look(Contents(), p)
    {
      Facts();
      if p in index then Some(store[index[p]].elem) else None
    }

    /** The index finds an entry unless it is one of the unindexed ones. */
    ghost predicate Finds(p: Path)
      reads this`topContent, this`nodes, this`store, this`index
    {
      p in Contents() && p !in Unindexed()
    }

    lemma FindsIndexed(p: Path)
      requires Valid()
      ensures Finds(p) <==> p in index
    {
      Facts();
    }

    /** What a valid tree says about its entries. */
    lemma Facts()
      requires Valid()
      ensures WellFormed(Contents()) && Contents().Keys == nodes.Keys && State().Wired() && Agree(index, nodes)
      ensures index.Keys == Contents().Keys - Unindexed() && Unindexed() <= Contents().Keys
      ensures forall p :: p in Unindexed() ==> Contents()[p].ty.Symlink?
    {
      WiredWellFormed(State());
    }

    /** What the index has is a tree as well, with the same directories. */
    lemma SeenFacts()
      requires Valid()
      ensures WellFormed(Seen()) && Seen().Keys == index.Keys && Seen().Keys <= Contents().Keys
      ensures forall p :: p in index ==> Seen()[p] == Contents()[p] && p in nodes && index[p] == nodes[p]
      ensures forall p :: IsDir(Seen(), p) <==> IsDir(Contents(), p)
      ensures Unindexed() == {} ==> Seen() == Contents()
    {
      hide Shape.Wired, Indexed, Ordered, Shape.Contents;
      Facts();
      VisibleFormed(Contents(), Unindexed());
    }

    lemma CopyTwin(src: DirectoryTree, p: Path, m: Catalog)
      requires Valid() && src.Valid() && src != this && src.Mirrored() && disk != null && disk != src.disk
      requires src.Finds(p) && p.In? && IsDir(m, p.dir) && p !in m && WellFormed(m) && Unindexed() <= m.Keys
      requires Contents() == m + Subtree(src.Contents(), p) && Mirrors(m, disk.files) && disk.Valid()
      requires forall q :: q in Subtree(src.Contents(), p) ==> !src.Contents()[q].ty.Unknown?
      ensures p in src.index && Twin(src, p) && src.nodes[p] == src.index[p] && p in nodes && p in index
      ensures nodes[p] == index[p]
      ensures Beneath(src.State(), p) == Subtree(src.Contents(), p).Keys
      ensures Room(src, p.dir, Beneath(src.State(), p))
      ensures Subtree(src.Contents(), p).Keys !! m.Keys && p.dir !in Subtree(src.Contents(), p)
      ensures p.dir == Top || (p.dir in index && p.dir in disk.files)
    {
      hide Shape.Wired, Indexed, Ordered, Disk.Valid, Shape.Contents;
      Facts();
      src.Facts();
      SubtreeFacts(m, src.Contents(), p);
      assert p in Subtree(src.Contents(), p);
    }

    method CopyFromTreeAndFilesystem(src: DirectoryTree, p: Path) returns (ok: bool)
      requires Valid() && src.Valid() && src != this
      requires disk != null && src.disk != null ==> Mirrored() && src.Mirrored() && disk != src.disk
      requires forall q :: q in Subtree(src.Contents(), p) ==> !src.Contents()[q].ty.Unknown?
      modifies this`topContent, this`index, this`store, this`nodes, this`next, disk
      ensures Valid()
      ensures ok <==> && disk != null && src.disk != null
                      && src.Finds(p) && p.In? && IsDir(old(Contents()), p.dir) && p !in old(Contents())
      ensures Contents() == if ok then old(Contents()) + Subtree(src.Contents(), p) else old(Contents())
      ensures Unindexed() == old(Unindexed())
      ensures disk != null && src.disk != null ==> Mirrored()
      ensures disk != null ==>
                disk.files == if ok then old(disk.files) + Subtree(src.disk.files, p) else old(disk.files)
    {
      hide Shape.Wired, Indexed, Ordered, Disk.Valid, Subtree, Shape.Contents, Received, Beneath, Twin, Mirrors,
           Restamp;
      if disk == null || src.disk == null { return false; }
      Facts();
      ghost var m, files := Contents(), disk.files;
      ok := TreeCopy(src, p);
      if !ok { return; }
      CopyTwin(src, p, m);
      RecursiveFilesystemCopy(src, src.index[p], index[p], p);
      MirrorCopy(m, files, disk.files, src.Contents(), src.disk.files, p);
      FixupParentMtime(p.dir);
    }

    method RemoveFromTreeAndFilesystem(p: Path) returns (ok: bool)
      requires Valid() && (disk != null ==> Mirrored())
      modifies this`topContent, this`index, this`store, this`nodes, disk
      ensures ok <==> disk != null && old(Finds(p)) && old(Whole(p))
      ensures ok || disk == null || !old(Finds(p)) ==> Valid() && Unindexed() == old(Unindexed())
      ensures Contents() == if ok then Cut(old(Contents()), p) else old(Contents())
      ensures disk != null ==> Mirrored()
      ensures disk != null ==> disk.files == if ok then Cut(old(disk.files), p) else old(disk.files)
    {
      hide Shape.Wired, Indexed, Ordered, Disk.Valid, Shape.Contents, Restamp, OnlyStamp, Mirrors, Cut;
      if disk == null { return false; }
      Facts();
      ghost var m, files := Contents(), disk.files;
      ok := RemoveFromTree(p);
      if !ok { return; }
      Facts();
      ParentStays(m, files, p);
      disk.RemoveAll(p);
      MirrorCut(m, files, disk.files, p);
      FixupParentMtime(p.dir);
    }

    /**
     * Keeps the mirror just when the entry is one that the file system can have. If the name is taken, the link cannot
     * be made, and in the top directory the list has it twice.
     */
    method AddSymlinkToTreeAndFilesystem(e: Element) returns (ok: bool)
      requires Valid() && (disk != null ==> Mirrored()) && e.ty.Symlink? && e.rp.In?
      modifies this`topContent, this`store, this`nodes, this`next, disk
      ensures ok <==> disk != null && IsDir(old(Contents()), e.rp.dir) && e.rp !in old(Contents())
      ensures Valid() <==> !(disk != null && e.rp in old(Contents()) && e.rp.dir == Top)
      ensures Valid() ==> Contents() == if ok then old(Contents())[e.rp := e] else old(Contents())
      ensures Valid() ==> Unindexed() == if ok then old(Unindexed()) + {e.rp} else old(Unindexed())
      ensures Valid() && disk != null ==> (Mirrored() <==> ok ==> Sane(e))
      ensures disk != null ==> disk.files == if ok then old(disk.files)[e.rp := LinkOf(e)] else old(disk.files)
    {
      hide Shape.Wired, Indexed, Ordered, Disk.Valid, Shape.Contents, Restamp, OnlyStamp, Mirrors;
      if disk == null { return false; }
      Facts();
      ghost var m, files := Contents(), disk.files;
      MirrorKeys(m, files, e.rp.dir);
      ok := AddSymlinkToTree(e);
      if !ok { return; }
      if e.rp in disk.files { return false; }
      Facts();
      disk.Create(Element(Symlink, LINK_PERM, "", "", 0, 0, "", e.rp, e.target));
      StampKept(files, disk.files, e.rp, disk.files[e.rp].(us := e.us, gs := e.gs, mt := e.mt));
      Finish(e.rp, e);
      MirrorLink(m, files, disk.files, e);
      FixupParentMtime(e.rp.dir);
    }

    /** Keeps the mirror unless the entry is a symbolic link, whose permissions the system call does not reach. */
    method ModifyPermissionsInTreeAndFilesystem(p: Path, per: nat) returns (ok: bool)
      requires Valid() && (disk != null ==> Mirrored())
      modifies this`store, disk
      ensures Valid() && (ok <==> disk != null && old(Finds(p)))
      ensures Contents() == if ok then old(Contents())[p := old(Contents())[p].(per := per)] else old(Contents())
      ensures disk != null ==> (Mirrored() <==> ok && old(Contents())[p].ty.Symlink? ==> per == LINK_PERM)
      ensures disk != null && (!ok || old(Contents())[p].ty.Symlink?) ==> disk.files == old(disk.files)
      ensures ok && !old(Contents())[p].ty.Symlink? ==>
                p in old(disk.files) && disk.files == old(disk.files)[p := old(disk.files)[p].(per := per)]
    {
      hide Shape.Wired, Indexed, Ordered, Disk.Valid, Shape.Contents, Restamp, Mirrors;
      if disk == null { return false; }
      Facts();
      ghost var m, files := Contents(), disk.files;
      ok := ModifyPermissionsInTree(p, per);
      if !ok { return; }
      EditFacts(m, disk, p);
      disk.Chmod(p, per);
      if files[p].ty.Symlink? {
        LinkMirror(m, files, p, per);
      } else {
        MirrorEdit(m, files, p, m[p].(per := per), files[p].(per := per));
      }
      FixupParentMtime(p.dir);
    }

    method ModifyOwnerInTreeAndFilesystem(p: Path, us: string, gs: string) returns (ok: bool)
      requires Valid() && (disk != null ==> Mirrored())
      modifies this`store, disk
      ensures Valid() && (disk != null ==> Mirrored())
      ensures ok <==> disk != null && old(Finds(p))
      ensures Contents() ==
              if ok then old(Contents())[p := old(Contents())[p].(us := us, gs := gs)] else old(Contents())
      ensures disk != null && !ok ==> disk.files == old(disk.files)
      ensures ok ==> p in old(disk.files) && disk.files == old(disk.files)[p := old(disk.files)[p].(us := us, gs := gs)]
    {
      hide Shape.Wired, Indexed, Ordered, Disk.Valid, Shape.Contents, Restamp, Mirrors;
      if disk == null { return false; }
      Facts();
      ghost var m, files := Contents(), disk.files;
      ok := ModifyOwnerInTree(p, us, gs);
      if !ok { return; }
      EditFacts(m, disk, p);
      disk.Chown(p, us, gs);
      MirrorEdit(m, files, p, m[p].(us := us, gs := gs), files[p].(us := us, gs := gs));
      FixupParentMtime(p.dir);
    }

    method ModifyMtimeInTreeAndFilesystem(p: Path, mt: int) returns (ok: bool)
      requires Valid() && (disk != null ==> Mirrored())
      modifies this`store, disk
      ensures Valid() && (disk != null ==> Mirrored())
      ensures ok <==> disk != null && old(Finds(p))
      ensures Contents() == if ok then old(Contents())[p := old(Contents())[p].(mt := mt)] else old(Contents())
      ensures disk != null && !ok ==> disk.files == old(disk.files)
      ensures ok ==> p in old(disk.files) && disk.files == old(disk.files)[p := old(disk.files)[p].(mt := mt)]
    {
      hide Shape.Wired, Indexed, Ordered, Disk.Valid, Shape.Contents, Mirrors;
      if disk == null { return false; }
      Facts();
      ghost var m, files := Contents(), disk.files;
      ok := ModifyMtimeInTree(p, mt);
      if !ok { return; }
      EditFacts(m, disk, p);
      disk.Utime(p, mt);
      MirrorEdit(m, files, p, m[p].(mt := mt), files[p].(mt := mt));
    }
  }

  lemma ParentStays(m: Catalog, files: Catalog, p: Path)
    requires WellFormed(m) && p in m && Mirrors(m, files)
    ensures p in files && p.In?
    ensures p.dir == Top || (p.dir in Cut(m, p) && p.dir in Cut(files, p) && m[p.dir].ty.Directory?)
  {
    if Under(p.dir, p) { UnderIsDeeper(p.dir, p); }
  }

  lemma EditFacts(m: Catalog, disk: Disk, p: Path)
    requires WellFormed(m) && p in m && Mirrors(m, disk.files) && disk.Valid()
    ensures p in disk.files && Reflects(m[p], disk.files[p]) && p.In? && p.dir != p && Sane(disk.files[p])
    ensures p.dir == Top || (p.dir in m && p.dir in disk.files && m[p.dir].ty.Directory?)
  {
    assert Depth(p.dir) < Depth(p);
  }

  lemma LinkMirror(m: Catalog, files: Catalog, p: Path, per: nat)
    requires Mirrors(m, files) && p in m && p in files && files[p].ty.Symlink? && Sane(files[p]) && p.In? && p.dir != p
    ensures Mirrors(m[p := m[p].(per := per)], files) <==> per == LINK_PERM
    ensures Restamp(files, p.dir, m[p := m[p].(per := per)]) == files
  {
    assert m[p := m[p].(per := per)][p].per == per;
  }

  lemma StampKept(files: Catalog, files': Catalog, p: Path, e: Element)
    requires p.In? && p !in files && files'.Keys == files.Keys + {p} && OnlyStamp(files, files', p.dir)
    ensures p.dir != p && OnlyStamp(files, files'[p := e], p.dir)
  {
    assert Depth(p.dir) < Depth(p);
  }

  lemma TopNode(s: Shape, p: Path)
    requires s.Wired() && s.base == Top && p in s.Contents() && p.In? && p.dir == Top
    ensures p in s.nodes && s.nodes[p] in s.top && s.nodes[p] in s.store && s.store[s.nodes[p]].elem.rp == p
  {
    KidsOf(s, Top);
  }

  /** A list of a tree has one node for a path. */
  lemma TwoNodes(s: Shape, m: Addr, n: Addr)
    requires m in s.top && n in s.top && m != n && m in s.store && n in s.store
    requires s.store[m].elem.rp == s.store[n].elem.rp
    ensures !s.Wired()
  {
    if s.Wired() { KidsOf(s, s.base); }
  }

  lemma NodeAt(s: Shape, index: Nodes, p: Path)
    requires s.Wired() && s.base == Top && Indexed(index, s) && p in index
    ensures p in s.nodes && index[p] == s.nodes[p] && index[p] in s.store && Agree(index, s.nodes)
    ensures p.In? && (p.dir == Top || p.dir in index) && p.dir !in Beneath(s, p)
    ensures (forall q :: q in s.nodes.Keys - index.Keys ==> !Under(q, p)) <==> Beneath(s, p) - {p} <= index.Keys
    ensures s.store[index[p]].elem.ty.Directory? || Beneath(s, p) == {p}
  {
    LeafBeneath(s, p);
    if p.dir in Beneath(s, p) { UnderIsDeeper(p.dir, p); }
    if forall q :: q in s.nodes.Keys - index.Keys ==> !Under(q, p) {
      forall q | q in Beneath(s, p) ensures q in index { assert q in s.nodes.Keys; }
    } else {
      var q :| q in s.nodes.Keys - index.Keys && Under(q, p);
      assert q in s.nodes && q !in index && q != p;
      assert q in Beneath(s, p);
    }
  }

  /** What is left when a path and everything below it is gone from lists and index. */
  lemma Removed(s: Shape, index: Nodes, index': Nodes, p: Path, k: seq<Addr>, ordered: bool)
    requires s.Wired() && s.base == Top && Indexed(index, s) && p in index && (ordered ==> Ordered(s))
    requires Beneath(s, p) - {p} <= index.Keys && index'.Keys == index.Keys - (Beneath(s, p) - {p})
    requires Agree(index', s.nodes)
    requires p in s.nodes && p.In? && s.Has(p.dir) && NoDup(k)
    requires forall n :: n in k <==> n in s.Kids(p.dir) && n != s.nodes[p]
    requires DirsFirst(s.Kids(p.dir), s.store) ==> DirsFirst(k, s.store)
    ensures s.Without(p, k).Wired() && Indexed(index' - {p}, s.Without(p, k)) && (ordered ==> Ordered(s.Without(p, k)))
    ensures s.Without(p, k).Contents() == Cut(s.Contents(), p)
    ensures Cut(s.nodes, p).Keys - (index' - {p}).Keys == s.nodes.Keys - index.Keys
  {
    hide Shape.Wired, Ordered, NoDup, Shape.Contents, DirsFirst;
    WiredWithout(s, p, k);
    if ordered {
      OrderedKids(s, p.dir);
      OrderedWithout(s, p, k);
    }
    IndexedHas(index, s, p);
    IndexedWithout(index, index' - {p}, s, p, k);
  }

  lemma IndexedHas(index: Nodes, s: Shape, p: Path)
    requires s.Wired() && s.base == Top && Indexed(index, s) && p in index
    requires Beneath(s, p) - {p} <= index.Keys
    ensures p in s.nodes && index[p] == s.nodes[p] && index[p] in s.store
    ensures Agree(index, s.nodes) && Named(s.nodes, s.store)
    ensures Beneath(s, p) <= index.Keys
    ensures s.store[index[p]].elem.ty.Directory? || Beneath(s, p) == {p}
    ensures p in Beneath(s, p) && p.In? && (p.dir == Top || p.dir in index) && p.dir !in Beneath(s, p)
    ensures Cut(s.nodes, p).Keys == s.nodes.Keys - Beneath(s, p)
  {
    LeafBeneath(s, p);
    if p.dir in Beneath(s, p) { UnderIsDeeper(p.dir, p); }
  }

  lemma SweptEnds(s: Shape, p: Path)
    requires s.Wired() && p in s.nodes
    ensures p.In? && p != s.base && s.Has(p) && s.store[s.nodes[p]].elem.rp == p && p in Beneath(s, p)
    ensures Swept(s, s.Kids(p)[..0]) == {}
    ensures Swept(s, s.Kids(p)[..|s.Kids(p)|]) == Beneath(s, p) - {p}
  {
    SweptAll(s, p);
    assert s.Kids(p)[..0] == [] && s.Kids(p)[..|s.Kids(p)|] == s.Kids(p);
  }

  lemma AgreeMore(index: Nodes, nodes: Nodes, p: Path)
    requires Agree(index, nodes) && p in nodes
    ensures Agree(index[p := nodes[p]], nodes)
  {
  }

  ghost predicate Extends(a: Store, b: Store) {
    forall n :: n in a ==> n in b && b[n] == a[n]
  }

  lemma StaysOrdered(s: Shape, store: Store)
    requires s.Wired() && Extends(s.store, store)
    ensures Ordered(s) ==> Ordered(s.(store := store))
  {
    hide Shape.Wired, DirsFirst;
    if Ordered(s) { OrderedFrame(s, store); }
  }

  lemma OrderedKids(s: Shape, b: Path)
    requires Ordered(s) && s.Has(b)
    ensures DirsFirst(s.Kids(b), s.store)
  {
    hide DirsFirst;
  }

  lemma CopyNothing(src: Shape, store: Store, p: Path)
    requires src.Wired() && p in src.nodes && src.Has(p)
    ensures Shape(p, [], map[], store).Wired() && OrderedIn(map[], store)
    ensures Shape(p, [], map[], store).Contents() == Pick(src.Contents(), Swept(src, src.Kids(p)[..0]))
  {
    SweptEnds(src, p);
    WiredEmpty(p, store);
  }

  lemma TopKnown(f: Shape)
    requires f.Wired()
    ensures Known(f.top, f.store) && NoDup(f.top)
  {
    KidsOf(f, f.base);
  }

  lemma CopyTop(src: Shape, p: Path, f: Shape)
    requires src.Wired() && p in src.nodes && src.Has(p) && f.Wired()
    requires f.Contents() == Pick(src.Contents(), Beneath(src, p) - {p})
    ensures src.store[src.nodes[p]].elem.ty.Directory? || f.nodes == map[]
    ensures f.Contents()[p := src.store[src.nodes[p]].elem] == Pick(src.Contents(), Beneath(src, p))
  {
    LeafBeneath(src, p);
    ContentsKeys(f);
  }

  lemma OneMore(s: Shape, f: Shape, r: Addr)
    requires s.Wired() && f.Wired() && Fits(s, f) && f.top == [r] && r !in s.Kids(f.base)
    ensures Known(s.Kids(f.base) + [r], s.store) && NoDup(s.Kids(f.base) + [r])
  {
    KidsOf(s, f.base);
    KidsOf(f, f.base);
  }

  lemma IndexedIsDir(index: Nodes, s: Shape, p: Path)
    requires s.Wired() && s.base == Top && Indexed(index, s) && p.In?
    ensures p.dir in index ==> s.Has(p.dir) && index[p.dir] == s.nodes[p.dir]
    ensures p.dir in s.nodes && s.store[s.nodes[p.dir]].elem.ty.Directory? ==> p.dir in index
    ensures s.Has(p.dir) ==> Known(s.Kids(p.dir), s.store)
    ensures s.Has(p.dir) ==>
              (p in s.nodes <==> exists i :: 0 <= i < |s.Kids(p.dir)| && s.store[s.Kids(p.dir)[i]].elem.rp == p)
  {
    if s.Has(p.dir) {
      KidsOf(s, p.dir);
    }
  }

  lemma IndexedPath(index: Nodes, s: Shape, p: Path)
    requires s.Wired() && s.base == Top && Indexed(index, s) && p in index
    ensures p.In? && p in s.nodes && index[p] == s.nodes[p]
    ensures s.nodes[p] in s.store && s.store[s.nodes[p]].elem.rp == p && p in s.Contents()
    ensures s.Contents()[p] == s.store[s.nodes[p]].elem
  {
  }

  lemma CopyPaths(src: Shape, f: Shape, p: Path)
    requires src.Wired() && p in src.nodes
    requires f.Wired() && f.Contents() == Pick(src.Contents(), Beneath(src, p))
    ensures p in f.nodes && forall q :: q in f.nodes ==> Under(q, p)
    ensures f.Contents() == Subtree(src.Contents(), p)
  {
    ContentsKeys(f);
    ContentsKeys(src);
    hide Shape.Wired;
  }

  lemma CopyFits(s: Shape, f: Shape, p: Path, r: Addr)
    requires s.Wired() && s.base == Top && p.In? && p !in s.nodes && s.Has(p.dir)
    requires p.dir == Top || s.store[s.nodes[p.dir]].elem.ty.Directory?
    requires f.Wired() && f.base == p.dir && f.top == [r] && r !in s.store && Extends(s.store, f.store)
    requires p in f.nodes && forall q :: q in f.nodes ==> Under(q, p)
    ensures s.(store := f.store).Wired() && s.(store := f.store).Contents() == s.Contents()
    ensures Fits(s.(store := f.store), f) && r !in s.(store := f.store).Kids(p.dir)
    ensures f.nodes.Keys !! s.nodes.Keys && f.nodes[p] == r
  {
    hide Shape.Contents;
    WiredFrame(s, f.store);
    KidsOf(s, p.dir);
    KidsOf(f, p.dir);
    hide Lists;
    forall q | q in f.nodes ensures q !in s.nodes {
      if q in s.nodes { AncestorIn(s, q, p); }
    }
  }

  lemma CopyIndexed(s: Shape, f: Shape, p: Path, s': Shape, index: Nodes)
    requires s.Wired() && s.base == Top && p.In? && p !in s.nodes && p in f.nodes && Indexed(index, s)
    requires forall q :: q in f.nodes ==> Under(q, p)
    requires s'.nodes == s.nodes + f.nodes && f.nodes.Keys !! s.nodes.Keys
    ensures Beneath(s', p) == f.nodes.Keys && Beneath(s', p) !! index.Keys
    ensures Agree(index, s'.nodes)
  {
    forall q | q in Beneath(s', p) ensures q in f.nodes {
      if q in s.nodes { AncestorIn(s, q, p); }
    }
  }

  lemma IndexedMore(s: Shape, index: Nodes, f: Shape, s': Shape, index': Nodes)
    requires s.Wired() && Indexed(index, s) && f.Wired()
    requires s'.nodes == s.nodes + f.nodes && f.nodes.Keys !! s.nodes.Keys
    requires s'.Contents() == s.Contents() + f.Contents()
    requires Agree(index', s'.nodes) && index'.Keys == index.Keys + f.nodes.Keys
    ensures Indexed(index', s')
    ensures s'.nodes.Keys - index'.Keys == s.nodes.Keys - index.Keys
  {
    hide Shape.Wired, Shape.Contents;
    ContentsKeys(s); ContentsKeys(f);
  }

  lemma LinkPaths(f: Shape, e: Element, r: Addr)
    requires f.Wired() && f.Contents() == map[e.rp := e]
    ensures f.nodes.Keys == {e.rp}
  {
    ContentsKeys(f);
  }

  lemma IndexedLess(s: Shape, index: Nodes, f: Shape, s': Shape, e: Element)
    requires s.Wired() && Indexed(index, s) && e.ty.Symlink? && e.rp !in s.nodes
    requires f.nodes.Keys == {e.rp} && f.Contents() == map[e.rp := e]
    requires s'.Contents() == s.Contents() + f.Contents() && s'.nodes == s.nodes + f.nodes
    ensures Indexed(index, s')
    ensures s'.nodes.Keys - index.Keys == s.nodes.Keys - index.Keys + {e.rp}
  {
    hide Shape.Wired, Shape.Contents;
    ContentsKeys(s);
  }

  lemma IndexedEdited(s: Shape, index: Nodes, p: Path, e: Element)
    requires Indexed(index, s) && p in s.nodes && s.nodes[p] in s.store && p in index
    requires Edited(s, p, e).Contents() == s.Contents()[p := e]
    ensures Indexed(index, Edited(s, p, e))
  {
    hide Shape.Wired, Shape.Contents;
  }

  lemma NoTop(s: Shape, disk: Disk)
    requires s.Wired() && disk.Valid()
    ensures Top !in s.Contents() && Top !in disk.files
  {
  }
}
