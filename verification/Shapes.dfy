/**
 * Directory trees in memory. The nodes of a tree live at addresses in a store, each directory
 * keeps the list of the addresses of its entries, and `nodes` says which address a path has.
 */
module Shapes {
  import opened Elements
  import opened Catalogs

  type Addr = nat
  datatype Cell = Cell(elem: Element, content: seq<Addr>)
  type Store = map<Addr, Cell>
  type Nodes = map<Path, Addr>

  ghost predicate NoDup<T>(l: seq<T>) {
    forall i, j :: 0 <= i < j < |l| ==> l[i] != l[j]
  }

  predicate IsChild(p: Path, b: Path) {
    p.In? && p.dir == b
  }

  lemma ChildDeeper(p: Path, b: Path)
    requires IsChild(p, b)
    ensures Under(p, b) && Depth(p) == Depth(b) + 1
  {
  }

  /** `l` lists exactly the nodes one level below `b`, each once. */
  ghost predicate Lists(l: seq<Addr>, nodes: Nodes, store: Store, b: Path) {
    && (forall n :: n in l ==>
          && n in store && IsChild(store[n].elem.rp, b)
          && store[n].elem.rp in nodes && nodes[store[n].elem.rp] == n)
    && (forall p :: p in nodes && IsChild(p, b) ==> nodes[p] in l)
    && NoDup(l)
  }

  /** Every path has a node, which knows the path. */
  ghost predicate Named(nodes: Nodes, store: Store) {
    forall p :: p in nodes ==> p.In? && nodes[p] in store && store[nodes[p]].elem.rp == p
  }

  /** Every node below `base` sits in a directory. */
  ghost predicate Nested(nodes: Nodes, store: Store, base: Path)
    requires Named(nodes, store)
  {
    forall p {:trigger p.dir} :: p in nodes ==>
      p.dir == base || (p.dir in nodes && store[nodes[p.dir]].elem.ty.Directory?)
  }

  /** A forest below the directory `base`, whose own list is `top`. The whole tree has base `Top`. */
  datatype Shape = Shape(base: Path, top: seq<Addr>, nodes: Nodes, store: Store) {

    predicate Has(b: Path) {
      b == base || (b in nodes && nodes[b] in store)
    }

    function Kids(b: Path): seq<Addr>
      requires Has(b)
    {
      if b == base then top else store[nodes[b]].content
    }

    ghost predicate Wired() {
      && base !in nodes
      && Named(nodes, store)
      && Nested(nodes, store, base)
      && (forall b :: Has(b) ==> Lists(Kids(b), nodes, store, b))
    }

    ghost function Contents(): Catalog {
      map p | p in nodes && nodes[p] in store :: store[nodes[p]].elem
    }

    function WithKids(b: Path, l: seq<Addr>): Shape
      requires Has(b)
    {
      if b == base then this.(top := l)
      else this.(store := store[nodes[b] := store[nodes[b]].(content := l)])
    }

    /** The shape after the subtree at `p` is gone and `l` is the new list of its directory. */
    function Without(p: Path, l: seq<Addr>): Shape
      requires p.In? && Has(p.dir)
    {
      WithKids(p.dir, l).(nodes := Cut(nodes, p))
    }

    /** The shape after a forest below `b` has joined and `l` is the new list of `b`. */
    function With(b: Path, l: seq<Addr>, more: Nodes): Shape
      requires Has(b)
    {
      WithKids(b, l).(nodes := nodes + more)
    }
  }

  // ---------- removal ----------

  lemma KidsWithout(s: Shape, p: Path, l: seq<Addr>, b: Path)
    requires s.base !in s.nodes && Named(s.nodes, s.store) && p in s.nodes && s.Has(p.dir)
    requires s.Without(p, l).Has(b)
    ensures s.Has(b) && s.Without(p, l).Kids(b) == if b == p.dir then l else s.Kids(b)
    ensures b == s.base || !Under(b, p)
  {
  }

  lemma NamedWithout(s: Shape, p: Path, l: seq<Addr>)
    requires Named(s.nodes, s.store) && Nested(s.nodes, s.store, s.base) && p in s.nodes && s.Has(p.dir)
    ensures Named(s.Without(p, l).nodes, s.Without(p, l).store)
    ensures Nested(s.Without(p, l).nodes, s.Without(p, l).store, s.base)
  {
  }

  lemma ListsElsewhere(l: seq<Addr>, s: Shape, p: Path, k: seq<Addr>, b: Path)
    requires Named(s.nodes, s.store) && p in s.nodes && s.Has(p.dir)
    requires Lists(l, s.nodes, s.store, b) && b != p.dir && !Under(b, p)
    ensures Lists(l, s.Without(p, k).nodes, s.Without(p, k).store, b)
  {
    forall n | n in l ensures !Under(s.store[n].elem.rp, p) {}
  }

  lemma ListsParent(l: seq<Addr>, s: Shape, p: Path, k: seq<Addr>)
    requires Named(s.nodes, s.store) && p in s.nodes && s.Has(p.dir)
    requires Lists(l, s.nodes, s.store, p.dir)
    requires NoDup(k) && forall n :: n in k <==> n in l && n != s.nodes[p]
    ensures Lists(k, s.Without(p, k).nodes, s.Without(p, k).store, p.dir)
  {
    if Under(p.dir, p) { UnderIsDeeper(p.dir, p); }
  }

  lemma WiredWithout(s: Shape, p: Path, k: seq<Addr>)
    requires s.Wired() && s.base == Top && p in s.nodes && s.Has(p.dir)
    requires NoDup(k) && forall n :: n in k <==> n in s.Kids(p.dir) && n != s.nodes[p]
    ensures s.Without(p, k).Wired()
    ensures s.Without(p, k).Contents() == Cut(s.Contents(), p)
  {
    hide Lists, Shape.Kids;
    NamedWithout(s, p, k);
    var s' := s.Without(p, k);
    forall b | s'.Has(b) ensures Lists(s'.Kids(b), s'.nodes, s'.store, b) {
      KidsWithout(s, p, k, b);
      if b == p.dir {
        ListsParent(s.Kids(b), s, p, k);
      } else {
        ListsElsewhere(s.Kids(b), s, p, k, b);
      }
    }
  }

  // ---------- growth ----------

  /** Cells outside a forest do not matter to it. */
  lemma WiredFrame(s: Shape, store: Store)
    requires s.Wired()
    requires forall n :: n in s.store ==> n in store && store[n] == s.store[n]
    ensures s.(store := store).Wired()
    ensures s.(store := store).Contents() == s.Contents()
  {
    var s' := s.(store := store);
    forall b | s'.Has(b) ensures Lists(s'.Kids(b), s'.nodes, s'.store, b) {
      assert s.Has(b) && s.Kids(b) == s'.Kids(b);
    }
  }

  lemma {:induction false} BelowBase(s: Shape, p: Path)
    requires s.base !in s.nodes && Named(s.nodes, s.store) && Nested(s.nodes, s.store, s.base) && p in s.nodes
    ensures Under(p, s.base) && p != s.base
  {
    if p.dir != s.base { BelowBase(s, p.dir); }
  }

  /** A directory put on top of its entries. */
  function Wrap(s: Shape, r: Addr, e: Element): Shape
    requires e.rp.In?
  {
    Shape(e.rp.dir, [r], s.nodes[e.rp := r], s.store[r := Cell(e, s.top)])
  }

  lemma NamedWrap(s: Shape, r: Addr, e: Element)
    requires s.Wired() && s.base == e.rp && e.rp.In? && r !in s.store
    requires e.ty.Directory? || s.nodes == map[]
    ensures e.rp.dir !in s.nodes && e.rp.dir != e.rp
    ensures Named(Wrap(s, r, e).nodes, Wrap(s, r, e).store)
    ensures Nested(Wrap(s, r, e).nodes, Wrap(s, r, e).store, e.rp.dir)
  {
    if e.rp.dir in s.nodes {
      BelowBase(s, e.rp.dir);
      UnderIsDeeper(e.rp.dir, e.rp);
    }
  }

  lemma ListsWrap(s: Shape, r: Addr, e: Element, b: Path)
    requires s.base == e.rp && e.rp.In? && r !in s.store && e.rp !in s.nodes && e.rp.dir !in s.nodes
    requires Named(s.nodes, s.store) && Nested(s.nodes, s.store, s.base)
    requires s.Has(b) && Lists(s.Kids(b), s.nodes, s.store, b)
    ensures Wrap(s, r, e).Has(b) && Lists(Wrap(s, r, e).Kids(b), Wrap(s, r, e).nodes, Wrap(s, r, e).store, b)
  {
  }

  lemma TopWrap(s: Shape, r: Addr, e: Element)
    requires e.rp.In? && r !in s.store && Named(s.nodes, s.store) && Nested(s.nodes, s.store, e.rp) && e.rp.dir != e.rp
    requires e.rp.dir !in s.nodes
    ensures Lists([r], Wrap(s, r, e).nodes, Wrap(s, r, e).store, e.rp.dir)
  {
    forall p | p in s.nodes ensures !IsChild(p, e.rp.dir) {}
  }

  lemma WiredWrap(s: Shape, r: Addr, e: Element)
    requires s.Wired() && s.base == e.rp && e.rp.In? && r !in s.store
    requires e.ty.Directory? || s.nodes == map[]
    ensures Wrap(s, r, e).Wired()
    ensures Wrap(s, r, e).Contents() == s.Contents()[e.rp := e]
  {
    hide Lists;
    var s' := Wrap(s, r, e);
    NamedWrap(s, r, e);
    TopWrap(s, r, e);
    forall b | s'.Has(b) ensures Lists(s'.Kids(b), s'.nodes, s'.store, b) {
      if b != e.rp.dir { ListsWrap(s, r, e, b); }
    }
  }

  /** The forest `f` hangs from the directory `f.base` of `s` without sharing a path with it. */
  ghost predicate Fits(s: Shape, f: Shape) {
    && s.store == f.store && s.Has(f.base)
    && s.nodes.Keys !! f.nodes.Keys && s.base !in f.nodes && f.base !in f.nodes && s.base !in s.nodes
    && Named(s.nodes, s.store) && Nested(s.nodes, s.store, s.base)
    && Named(f.nodes, f.store) && Nested(f.nodes, f.store, f.base)
    && (f.base == s.base || s.store[s.nodes[f.base]].elem.ty.Directory?)
  }

  lemma NamedGraft(s: Shape, f: Shape, k: seq<Addr>)
    requires Fits(s, f)
    ensures Named(s.With(f.base, k, f.nodes).nodes, s.With(f.base, k, f.nodes).store)
    ensures Nested(s.With(f.base, k, f.nodes).nodes, s.With(f.base, k, f.nodes).store, s.base)
    ensures s.base !in s.With(f.base, k, f.nodes).nodes
  {
  }

  lemma ContentsGraft(s: Shape, f: Shape, k: seq<Addr>)
    requires Fits(s, f)
    ensures s.With(f.base, k, f.nodes).Contents() == s.Contents() + f.Contents()
  {
    hide Nested;
  }

  lemma KidsGraft(s: Shape, f: Shape, k: seq<Addr>, b: Path)
    requires Fits(s, f) && s.With(f.base, k, f.nodes).Has(b)
    ensures s.Has(b) || b in f.nodes
    ensures s.With(f.base, k, f.nodes).Kids(b)
         == if b == f.base then k else if b in f.nodes then f.Kids(b) else s.Kids(b)
  {
  }

  lemma ListsGraft(s: Shape, f: Shape, k: seq<Addr>, b: Path, l: seq<Addr>)
    requires Fits(s, f) && b != f.base
    requires if b in f.nodes then Lists(l, f.nodes, f.store, b) else s.Has(b) && Lists(l, s.nodes, s.store, b)
    ensures Lists(l, s.With(f.base, k, f.nodes).nodes, s.With(f.base, k, f.nodes).store, b)
  {
  }

  lemma ListsGraftBase(s: Shape, f: Shape, k: seq<Addr>)
    requires Fits(s, f)
    requires Lists(s.Kids(f.base), s.nodes, s.store, f.base) && Lists(f.top, f.nodes, f.store, f.base)
    requires NoDup(k) && forall n :: n in k <==> n in s.Kids(f.base) || n in f.top
    ensures Lists(k, s.With(f.base, k, f.nodes).nodes, s.With(f.base, k, f.nodes).store, f.base)
  {
  }

  lemma WiredGraft(s: Shape, f: Shape, k: seq<Addr>)
    requires s.Wired() && f.Wired() && Fits(s, f)
    requires NoDup(k) && forall n :: n in k <==> n in s.Kids(f.base) || n in f.top
    ensures s.With(f.base, k, f.nodes).Wired()
    ensures s.With(f.base, k, f.nodes).Contents() == s.Contents() + f.Contents()
  {
    assert f.Has(f.base) && f.Kids(f.base) == f.top;
    hide Lists, NoDup, Named, Nested, Shape.Kids, Shape.Contents;
    var s' := s.With(f.base, k, f.nodes);
    NamedGraft(s, f, k);
    ContentsGraft(s, f, k);
    forall b | s'.Has(b) ensures Lists(s'.Kids(b), s'.nodes, s'.store, b) {
      KidsGraft(s, f, k, b);
      if b == f.base {
        ListsGraftBase(s, f, k);
      } else {
        ListsGraft(s, f, k, b, s'.Kids(b));
      }
    }
  }

  lemma ContentsKeys(s: Shape)
    requires s.Wired()
    ensures s.Contents().Keys == s.nodes.Keys
  {
    hide Lists;
  }

  /** One more tree in a forest. */
  lemma WiredJoin(f: Shape, g: Shape, k: Addr)
    requires f.Wired() && g.Wired() && g.base == f.base && g.top == [k] && k !in f.store
    requires forall a :: a in f.store ==> a in g.store && g.store[a] == f.store[a]
    requires f.Contents().Keys !! g.Contents().Keys
    ensures Shape(f.base, f.top + [k], f.nodes + g.nodes, g.store).Wired()
    ensures Shape(f.base, f.top + [k], f.nodes + g.nodes, g.store).Contents() == f.Contents() + g.Contents()
  {
    ContentsKeys(f);
    ContentsKeys(g);
    KidsOf(f, f.base);
    WiredFrame(f, g.store);
    var f' := f.(store := g.store);
    assert Fits(f', g);
    assert NoDup(f.top + [k]);
    WiredGraft(f', g, f.top + [k]);
  }

  /** The order of the top list does not matter to the wiring. */
  lemma WiredPermute(s: Shape, k: seq<Addr>)
    requires s.Wired() && NoDup(k) && forall n :: n in k <==> n in s.top
    ensures s.(top := k).Wired() && s.(top := k).Contents() == s.Contents()
  {
    var s' := s.(top := k);
    assert Lists(s.Kids(s.base), s.nodes, s.store, s.base);
    forall b | s'.Has(b) ensures Lists(s'.Kids(b), s'.nodes, s'.store, b) {
      assert s.Has(b) && (b != s.base ==> s'.Kids(b) == s.Kids(b));
    }
  }

  lemma WiredEmpty(base: Path, store: Store)
    ensures Shape(base, [], map[], store).Wired()
    ensures Shape(base, [], map[], store).Contents() == map[]
  {
  }

  // ---------- editing in place ----------

  function Edited(s: Shape, p: Path, e: Element): Shape
    requires p in s.nodes && s.nodes[p] in s.store
  {
    s.(store := s.store[s.nodes[p] := s.store[s.nodes[p]].(elem := e)])
  }

  lemma WiredEdited(s: Shape, p: Path, e: Element)
    requires s.Wired() && p in s.nodes
    requires e.rp == p && e.ty == s.store[s.nodes[p]].elem.ty
    ensures Edited(s, p, e).Wired()
    ensures Edited(s, p, e).Contents() == s.Contents()[p := e]
  {
    var s' := Edited(s, p, e);
    forall b | s'.Has(b) ensures Lists(s'.Kids(b), s'.nodes, s'.store, b) {
      assert s.Has(b) && s'.Kids(b) == s.Kids(b);
    }
  }

  // ---------- reading ----------

  lemma WiredWellFormed(s: Shape)
    requires s.Wired() && s.base == Top
    ensures WellFormed(s.Contents()) && s.Contents().Keys == s.nodes.Keys
  {
    hide Lists;
  }

  /** What the list of a directory holds. */
  lemma KidsOf(s: Shape, b: Path)
    requires s.Wired() && s.Has(b)
    ensures NoDup(s.Kids(b))
    ensures forall n :: n in s.Kids(b) ==>
              n in s.store && s.store[n].elem.rp in s.nodes && s.nodes[s.store[n].elem.rp] == n
                  && IsChild(s.store[n].elem.rp, b)
    ensures forall p :: p in s.nodes && IsChild(p, b) ==> s.nodes[p] in s.Kids(b)
  {
  }

  /** The way down from a directory to a node below it starts with an entry of the directory. */
  lemma {:induction false} FirstStep(s: Shape, b: Path, q: Path) returns (c: Path)
    requires s.Wired() && s.Has(b) && q in s.nodes && Under(q, b) && q != b
    ensures c in s.nodes && IsChild(c, b) && Under(q, c)
  {
    if q.dir == b {
      c := q;
    } else {
      if q.dir == s.base {
        BelowBase(s, b);
        UnderIsDeeper(b, s.base); UnderIsDeeper(q.dir, b);
      }
      c := FirstStep(s, b, q.dir);
    }
  }

  /** Whatever has something below it is there itself. */
  lemma {:induction false} AncestorIn(s: Shape, q: Path, p: Path)
    requires s.Wired() && s.base == Top && q in s.nodes && Under(q, p) && p.In?
    ensures p in s.nodes
  {
    if q != p { AncestorIn(s, q.dir, p); }
  }

  /** Only directories have anything below them. */
  lemma LeafIsEmpty(s: Shape, b: Path, q: Path)
    requires s.Wired() && b in s.nodes && q in s.nodes && Under(q, b) && q != b
    ensures s.store[s.nodes[b]].elem.ty.Directory?
  {
    var c := FirstStep(s, b, q);
    if b == s.base { BelowBase(s, b); }
  }

  lemma Siblings(q: Path, c: Path, d: Path, b: Path)
    requires IsChild(c, b) && IsChild(d, b) && Under(q, c) && Under(q, d)
    ensures c == d
  {
    UnderChain(q, c, d);
    if c != d {
      if Under(c, d) { UnderIsDeeper(b, d); } else { UnderIsDeeper(b, c); }
    }
  }

  /** `p` and everything below it. */
  ghost function Beneath(s: Shape, p: Path): set<Path> {
    set q | q in s.nodes && Under(q, p)
  }

  /** The listed entries and everything below them. */
  ghost function Swept(s: Shape, l: seq<Addr>): set<Path> {
    set q | q in s.nodes && exists n :: n in l && n in s.store && Under(q, s.store[n].elem.rp)
  }

  /** Strictly below a directory means at or below one of its entries. */
  lemma SweptAll(s: Shape, b: Path)
    requires s.Wired() && s.Has(b)
    ensures Swept(s, []) == {}
    ensures Swept(s, s.Kids(b)) == Beneath(s, b) - {b}
  {
    KidsOf(s, b);
    forall q | q in Beneath(s, b) - {b} ensures q in Swept(s, s.Kids(b)) {
      var c := FirstStep(s, b, q);
      assert s.nodes[c] in s.Kids(b);
    }
    forall q | q in Swept(s, s.Kids(b)) ensures q in Beneath(s, b) - {b} {
      var n :| n in s.Kids(b) && Under(q, s.store[n].elem.rp);
      UnderTrans(q, s.store[n].elem.rp, b);
      UnderIsDeeper(q, s.store[n].elem.rp);
    }
  }

  /** The entry at position `i` of a directory: a smaller tree, apart from the entries before it. */
  lemma KidAt(s: Shape, b: Path, i: nat) returns (c: Path)
    requires s.Wired() && s.Has(b) && i < |s.Kids(b)|
    ensures c in s.nodes && s.nodes[c] == s.Kids(b)[i] && IsChild(c, b)
    ensures Beneath(s, c) <= Beneath(s, b) - {b}
    ensures Swept(s, s.Kids(b)[..i]) !! Beneath(s, c) && Swept(s, s.Kids(b)[..i]) <= Beneath(s, b) - {b}
    ensures Swept(s, s.Kids(b)[..i + 1]) == Swept(s, s.Kids(b)[..i]) + Beneath(s, c)
  {
    KidsOf(s, b);
    var l := s.Kids(b);
    c := s.store[l[i]].elem.rp;
    forall q | q in Beneath(s, c) ensures q in Beneath(s, b) - {b} {
      UnderTrans(q, c, b);
      UnderIsDeeper(q, c);
    }
    forall q | q in Beneath(s, c) ensures q !in Swept(s, l[..i]) {
      if q in Swept(s, l[..i]) {
        var m :| m in l[..i] && Under(q, s.store[m].elem.rp);
        Siblings(q, c, s.store[m].elem.rp, b);
      }
    }
    SweptStep(s, l[..i], l[i]);
    assert l[..i + 1] == l[..i] + [l[i]];
    SweptSome(s, b, i);
  }

  lemma SweptSome(s: Shape, b: Path, i: nat)
    requires s.Wired() && s.Has(b) && i <= |s.Kids(b)|
    ensures Swept(s, s.Kids(b)[..i]) <= Beneath(s, b) - {b}
  {
    SweptAll(s, b);
    assert Swept(s, s.Kids(b)[..i]) <= Swept(s, s.Kids(b));
  }

  lemma LeafBeneath(s: Shape, p: Path)
    requires s.Wired() && p in s.nodes
    ensures s.nodes[p] in s.store && s.store[s.nodes[p]].elem.rp == p && p in Beneath(s, p)
    ensures s.store[s.nodes[p]].elem.ty.Directory? || Beneath(s, p) == {p}
  {
    forall q | q in Beneath(s, p) && q != p ensures s.store[s.nodes[p]].elem.ty.Directory? {
      LeafIsEmpty(s, p, q);
    }
  }

  lemma SweptStep(s: Shape, l: seq<Addr>, n: Addr)
    requires n in s.store
    ensures Swept(s, l + [n]) == Swept(s, l) + Beneath(s, s.store[n].elem.rp)
  {
    assert n in l + [n];
    forall q | q in Swept(s, l) ensures q in Swept(s, l + [n]) {
      var x :| x in l && x in s.store && Under(q, s.store[x].elem.rp);
      assert x in l + [n];
    }
  }

  // ---------- order ----------

  /** No directory comes after an entry of another kind. */
  ghost predicate DirsFirst(l: seq<Addr>, store: Store) {
    forall i, j :: 0 <= i < j < |l| && l[i] in store && l[j] in store && store[l[j]].elem.ty.Directory? ==>
      store[l[i]].elem.ty.Directory?
  }

  /** The lists of all nodes have the directories first. */
  ghost predicate OrderedIn(nodes: Nodes, store: Store) {
    forall p :: p in nodes && nodes[p] in store ==> DirsFirst(store[nodes[p]].content, store)
  }

  ghost predicate Ordered(s: Shape) {
    DirsFirst(s.top, s.store) && OrderedIn(s.nodes, s.store)
  }

  /** The types of the listed nodes are the same in another store. */
  ghost predicate SameTypes(store: Store, store': Store) {
    forall n :: n in store ==> n in store' && store'[n].elem.ty == store[n].elem.ty
  }

  lemma FirstStill(l: seq<Addr>, store: Store, store': Store)
    requires DirsFirst(l, store) && SameTypes(store, store') && forall n :: n in l ==> n in store
    ensures DirsFirst(l, store')
  {
  }

  lemma ListedKnown(s: Shape, p: Path)
    requires s.Wired() && p in s.nodes
    ensures s.nodes[p] in s.store && forall n :: n in s.store[s.nodes[p]].content ==> n in s.store
  {
    KidsOf(s, p);
  }

  /** Another store with the same types and lists. */
  lemma OrderedFrame(s: Shape, store: Store)
    requires s.Wired() && SameTypes(s.store, store) && OrderedIn(s.nodes, s.store)
    requires forall n :: n in s.store ==> store[n].content == s.store[n].content
    ensures OrderedIn(s.nodes, store) && (DirsFirst(s.top, s.store) ==> DirsFirst(s.top, store))
  {
    hide Shape.Wired, DirsFirst;
    forall p | p in s.nodes && s.nodes[p] in store ensures DirsFirst(store[s.nodes[p]].content, store) {
      ListedKnown(s, p);
      FirstStill(s.store[s.nodes[p]].content, s.store, store);
    }
    KidsOf(s, s.base);
    if DirsFirst(s.top, s.store) { FirstStill(s.top, s.store, store); }
  }

  /** One list has changed, to one that has the directories first. */
  lemma OrderedWithKids(s: Shape, b: Path, k: seq<Addr>)
    requires s.Wired() && s.Has(b) && Ordered(s) && DirsFirst(k, s.store) && forall n :: n in k ==> n in s.store
    ensures Ordered(s.WithKids(b, k))
  {
    hide Shape.Wired, DirsFirst;
    var store := s.WithKids(b, k).store;
    FirstStill(k, s.store, store);
    KidsOf(s, s.base);
    FirstStill(s.top, s.store, store);
    forall p | p in s.nodes && s.nodes[p] in store ensures DirsFirst(store[s.nodes[p]].content, store) {
      ListedKnown(s, p);
      FirstStill(s.store[s.nodes[p]].content, s.store, store);
    }
  }

  lemma OrderedWithout(s: Shape, p: Path, k: seq<Addr>)
    requires s.Wired() && p in s.nodes && p.In? && s.Has(p.dir) && Ordered(s) && DirsFirst(k, s.store)
    requires forall n :: n in k <==> n in s.Kids(p.dir) && n != s.nodes[p]
    ensures Ordered(s.Without(p, k))
  {
    hide Shape.Wired, DirsFirst;
    KidsOf(s, p.dir);
    OrderedWithKids(s, p.dir, k);
  }

  lemma OrderedEdited(s: Shape, p: Path, e: Element)
    requires s.Wired() && p in s.nodes && s.nodes[p] in s.store && e.ty == s.store[s.nodes[p]].elem.ty && Ordered(s)
    ensures Ordered(Edited(s, p, e))
  {
    hide Shape.Wired, DirsFirst;
    OrderedFrame(s, Edited(s, p, e).store);
  }

  /** One more tree in a forest. */
  lemma OrderedJoin(f: Shape, g: Shape)
    requires f.Wired() && OrderedIn(f.nodes, f.store) && OrderedIn(g.nodes, g.store)
    requires forall n :: n in f.store ==> n in g.store && g.store[n] == f.store[n]
    ensures OrderedIn(f.nodes + g.nodes, g.store)
  {
    hide Shape.Wired, DirsFirst;
    OrderedFrame(f, g.store);
  }

  lemma OrderedWrap(s: Shape, r: Addr, e: Element)
    requires s.Wired() && r !in s.store && e.rp.In? && Ordered(s)
    ensures OrderedIn(Wrap(s, r, e).nodes, Wrap(s, r, e).store)
  {
    hide Shape.Wired, DirsFirst;
    OrderedFrame(s, Wrap(s, r, e).store);
  }

  /** A forest with a new list for the directory it joins. */
  lemma OrderedGraft(s: Shape, f: Shape, k: seq<Addr>)
    requires s.Wired() && Fits(s, f) && f.Wired() && Ordered(s) && OrderedIn(f.nodes, f.store)
    requires DirsFirst(k, s.store) && forall n :: n in k ==> n in s.store
    ensures Ordered(s.With(f.base, k, f.nodes))
  {
    hide Shape.Wired, DirsFirst, Named, Nested, Lists;
    OrderedWithKids(s, f.base, k);
    var s' := s.With(f.base, k, f.nodes);
    forall p | p in f.nodes && f.nodes[p] in s'.store ensures DirsFirst(s'.store[f.nodes[p]].content, s'.store) {
      NewAddress(s, f, k, p);
      ListedKnown(f, p);
      FirstStill(s'.store[f.nodes[p]].content, f.store, s'.store);
    }
  }

  lemma NewAddress(s: Shape, f: Shape, k: seq<Addr>, p: Path)
    requires Fits(s, f) && p in f.nodes
    ensures f.nodes[p] in f.store && s.With(f.base, k, f.nodes).store[f.nodes[p]].content == f.store[f.nodes[p]].content
    ensures SameTypes(f.store, s.With(f.base, k, f.nodes).store)
  {
  }
}
