/** The lists of a directory tree: what each directory holds, in order. */
module Listings {
  import opened Elements
  import opened Catalogs
  import opened Shapes
  import opened Order

  /** The entries of every directory that has any. */
  type Listing = map<Path, seq<Element>>

  function Elems(l: seq<Addr>, store: Store): (r: seq<Element>)
    requires Known(l, store)
    ensures |r| == |l| && forall i :: 0 <= i < |l| ==> r[i] == store[l[i]].elem
  {
    seq(|l|, i requires 0 <= i < |l| => store[l[i]].elem)
  }

  /** A wired tree, except that entries that are not directories may have entries as well. */
  ghost predicate Linked(s: Shape) {
    && s.base == Top && Top !in s.nodes
    && Named(s.nodes, s.store)
    && (forall p {:trigger p.dir} :: p in s.nodes ==> p.dir == Top || p.dir in s.nodes)
    && (forall b :: s.Has(b) ==> Lists(s.Kids(b), s.nodes, s.store, b))
  }

  ghost function ListsOf(s: Shape): Listing
    requires Linked(s)
  {
    map b | b in s.nodes.Keys + {Top} && s.Has(b) && s.Kids(b) != [] :: KidElems(s, b)
  }

  ghost function KidElems(s: Shape, b: Path): seq<Element>
    requires Linked(s) && s.Has(b)
  {
    Elems(s.Kids(b), s.store)
  }

  lemma InLists(s: Shape, b: Path)
    requires Linked(s)
    ensures b in ListsOf(s) <==> s.Has(b) && s.Kids(b) != []
    ensures b in ListsOf(s) ==> ListsOf(s)[b] == KidElems(s, b)
  {
    hide Lists, Named;
  }

  lemma WiredIsLinked(s: Shape)
    requires s.Wired() && s.base == Top
    ensures Linked(s)
  {
  }

  /** A linked tree is wired just when everything that has entries is a directory. */
  lemma LinkedIsWired(s: Shape)
    requires Linked(s)
    ensures s.Wired() <==> forall d :: d in ListsOf(s) ==> IsDir(s.Contents(), d)
  {
    hide Lists;
    forall p | p in s.nodes ensures p.dir in ListsOf(s) {
      HasList(s, p);
    }
    if s.Wired() {
      forall d | d in ListsOf(s) ensures IsDir(s.Contents(), d) {
        if d != Top {
          var p := SomeKid(s, d);
        }
      }
    }
  }

  lemma HasList(s: Shape, p: Path)
    requires Linked(s) && p in s.nodes
    ensures p.In? && s.Has(p.dir) && s.nodes[p] in s.Kids(p.dir) && p.dir in ListsOf(s)
  {
    assert Lists(s.Kids(p.dir), s.nodes, s.store, p.dir);
  }

  lemma SomeKid(s: Shape, d: Path) returns (p: Path)
    requires Linked(s) && d in ListsOf(s)
    ensures p in s.nodes && IsChild(p, d)
  {
    assert Lists(s.Kids(d), s.nodes, s.store, d);
    p := s.store[s.Kids(d)[0]].elem.rp;
    assert s.Kids(d)[0] in s.Kids(d);
  }

  lemma ListedElement(s: Shape, d: Path, e: Element)
    requires Linked(s) && d in ListsOf(s) && e in ListsOf(s)[d]
    ensures e.rp in s.nodes && e.rp in s.Contents() && s.Contents()[e.rp] == e
  {
    InLists(s, d);
    var l := s.Kids(d);
    assert Lists(l, s.nodes, s.store, d);
    var i :| 0 <= i < |l| && ListsOf(s)[d][i] == e;
    assert l[i] in l;
  }

  lemma ElementListed(s: Shape, p: Path)
    requires Linked(s) && p in s.Contents()
    ensures p.In? && p.dir in ListsOf(s) && s.Contents()[p] in ListsOf(s)[p.dir]
  {
    HasList(s, p);
    InLists(s, p.dir);
    var l := s.Kids(p.dir);
    var i :| 0 <= i < |l| && l[i] == s.nodes[p];
    assert Lists(l, s.nodes, s.store, p.dir);
    assert KidElems(s, p.dir)[i] == s.Contents()[p];
  }

  /** An entry of one of the lists is this directory. */
  ghost predicate ListedDir(l: Listing, d: Path) {
    d.In? && d.dir in l && exists e :: e in l[d.dir] && e.rp == d && e.ty.Directory?
  }

  lemma ListedDirIs(s: Shape, d: Path)
    requires Linked(s)
    ensures ListedDir(ListsOf(s), d) <==> d in s.Contents() && s.Contents()[d].ty.Directory?
  {
    hide Linked, ListsOf, Shape.Contents;
    if ListedDir(ListsOf(s), d) {
      var e :| e in ListsOf(s)[d.dir] && e.rp == d && e.ty.Directory?;
      ListedElement(s, d.dir, e);
    }
    if d in s.Contents() && s.Contents()[d].ty.Directory? {
      ElementListed(s, d);
      NamesItself(s, d);
    }
  }

  lemma NamesItself(s: Shape, p: Path)
    requires Linked(s) && p in s.Contents()
    ensures p in s.nodes && s.Contents()[p].rp == p
  {
    hide Lists;
  }

  /** A tree without top entries is empty. */
  lemma NoTopNoNodes(s: Shape)
    requires Linked(s) && s.top == []
    ensures s.nodes == map[] && ListsOf(s) == map[]
  {
    forall p ensures p !in s.nodes { NoTopNoNode(s, p); }
  }

  lemma {:induction false} NoTopNoNode(s: Shape, p: Path)
    requires Linked(s) && s.top == []
    ensures p !in s.nodes
  {
    if p in s.nodes {
      HasList(s, p);
      if p.dir != Top { NoTopNoNode(s, p.dir); }
    }
  }

  /** Directories come first in every list. */
  lemma OrderedByKids(s: Shape)
    requires s.base !in s.nodes && forall b :: s.Has(b) ==> DirsFirst(s.Kids(b), s.store)
    ensures Ordered(s)
  {
    hide DirsFirst;
    assert s.Has(s.base);
    forall p | p in s.nodes && s.nodes[p] in s.store ensures DirsFirst(s.store[s.nodes[p]].content, s.store) {
      assert s.Has(p);
    }
  }

  lemma OrderedAt(s: Shape, b: Path)
    requires Linked(s) && Ordered(s) && s.Has(b)
    ensures DirsFirst(s.Kids(b), s.store) && Known(s.Kids(b), s.store)
  {
    hide DirsFirst;
    assert Lists(s.Kids(b), s.nodes, s.store, b);
  }

  // ---------- a directory gets its entries ----------

  /** New nodes for the directory `d`, in a list `k`. */
  ghost predicate Joining(s: Shape, d: Path, k: seq<Addr>) {
    && NoDup(k)
    && (forall n :: n in k ==>
        n in s.store && s.store[n].content == [] && IsChild(s.store[n].elem.rp, d) && s.store[n].elem.rp !in s.nodes)
    && (forall i, j :: 0 <= i < j < |k| && k[i] in s.store && k[j] in s.store ==>
        s.store[k[i]].elem.rp != s.store[k[j]].elem.rp)
    && (forall p :: p in s.nodes ==> s.nodes[p] !in k)
  }

  /** `nodes` has been extended by the nodes in `k`. */
  ghost predicate Entered(s: Shape, k: seq<Addr>, nodes: Nodes) {
    && (forall p :: p in s.nodes ==> p in nodes && nodes[p] == s.nodes[p])
    && (forall n :: n in k && n in s.store ==> s.store[n].elem.rp in nodes && nodes[s.store[n].elem.rp] == n)
    && (forall p :: p in nodes ==>
        p in s.nodes || (nodes[p] in k && nodes[p] in s.store && s.store[nodes[p]].elem.rp == p))
  }

  function Attached(s: Shape, d: Path, k: seq<Addr>, nodes: Nodes): Shape
    requires s.Has(d)
  {
    s.WithKids(d, k).(nodes := nodes)
  }

  lemma AttachedNamed(s: Shape, d: Path, k: seq<Addr>, nodes: Nodes)
    requires Linked(s) && s.Has(d) && Joining(s, d, k) && Entered(s, k, nodes)
    ensures Top !in nodes && Named(nodes, Attached(s, d, k, nodes).store)
    ensures forall p {:trigger p.dir} :: p in nodes ==> p.dir == Top || p.dir in nodes
  {
    hide Lists, NoDup;
  }

  /** Nothing lies below what is not there. */
  lemma NoKids(s: Shape, b: Path)
    requires Linked(s) && b != Top && b !in s.nodes
    ensures forall p :: p in s.nodes ==> !IsChild(p, b)
  {
    hide Lists;
  }

  lemma AttachedKids(s: Shape, d: Path, k: seq<Addr>, nodes: Nodes, b: Path)
    requires Linked(s) && s.Has(d) && s.Kids(d) == [] && Joining(s, d, k) && Entered(s, k, nodes)
    requires Attached(s, d, k, nodes).Has(b)
    ensures Attached(s, d, k, nodes).Kids(b) == if b == d then k else if s.Has(b) then s.Kids(b) else []
  {
    hide Lists, NoDup;
  }

  lemma AttachedLists(s: Shape, d: Path, k: seq<Addr>, nodes: Nodes, b: Path)
    requires Linked(s) && s.Has(d) && s.Kids(d) == [] && Joining(s, d, k) && Entered(s, k, nodes)
    requires Attached(s, d, k, nodes).Has(b)
    ensures Lists(Attached(s, d, k, nodes).Kids(b), nodes, Attached(s, d, k, nodes).store, b)
  {
    hide Linked, NoDup;
    AttachedKids(s, d, k, nodes, b);
    if b == d {
      NewList(s, d, k, nodes);
    } else if s.Has(b) {
      OldList(s, d, k, nodes, b);
    } else {
      NewEmpty(s, d, k, nodes, b);
    }
  }

  lemma NewEmpty(s: Shape, d: Path, k: seq<Addr>, nodes: Nodes, b: Path)
    requires Linked(s) && s.Has(d) && Joining(s, d, k) && Entered(s, k, nodes) && !s.Has(b)
    ensures Lists([], nodes, Attached(s, d, k, nodes).store, b)
  {
    NoKids(s, b);
  }

  lemma NewList(s: Shape, d: Path, k: seq<Addr>, nodes: Nodes)
    requires Linked(s) && s.Has(d) && s.Kids(d) == [] && Joining(s, d, k) && Entered(s, k, nodes)
    ensures Lists(k, nodes, Attached(s, d, k, nodes).store, d)
  {
    assert Lists(s.Kids(d), s.nodes, s.store, d);
  }

  lemma OldList(s: Shape, d: Path, k: seq<Addr>, nodes: Nodes, b: Path)
    requires Linked(s) && s.Has(d) && Joining(s, d, k) && Entered(s, k, nodes) && s.Has(b) && b != d
    ensures Lists(s.Kids(b), nodes, Attached(s, d, k, nodes).store, b)
  {
    hide NoDup;
    assert Lists(s.Kids(b), s.nodes, s.store, b);
  }

  lemma Attach(s: Shape, d: Path, k: seq<Addr>, nodes: Nodes)
    requires Linked(s) && s.Has(d) && s.Kids(d) == [] && Joining(s, d, k) && Entered(s, k, nodes) && k != []
    ensures Linked(Attached(s, d, k, nodes))
    ensures ListsOf(Attached(s, d, k, nodes)) == ListsOf(s)[d := Elems(k, s.store)]
  {
    hide Lists, Linked, Joining, Entered, NoDup;
    var s' := Attached(s, d, k, nodes);
    AttachedLinked(s, d, k, nodes);
    forall b ensures b in ListsOf(s') <==> b in ListsOf(s)[d := Elems(k, s.store)] {
      AttachedListAt(s, d, k, nodes, b);
    }
    forall b | b in ListsOf(s') ensures ListsOf(s')[b] == ListsOf(s)[d := Elems(k, s.store)][b] {
      AttachedListAt(s, d, k, nodes, b);
    }
  }

  lemma AttachedLinked(s: Shape, d: Path, k: seq<Addr>, nodes: Nodes)
    requires Linked(s) && s.Has(d) && s.Kids(d) == [] && Joining(s, d, k) && Entered(s, k, nodes) && k != []
    ensures Linked(Attached(s, d, k, nodes)) && Known(k, s.store)
  {
    hide Lists, Entered, NoDup;
    var s' := Attached(s, d, k, nodes);
    AttachedNamed(s, d, k, nodes);
    forall b | s'.Has(b) ensures Lists(s'.Kids(b), s'.nodes, s'.store, b) {
      AttachedLists(s, d, k, nodes, b);
    }
  }

  lemma AttachedListAt(s: Shape, d: Path, k: seq<Addr>, nodes: Nodes, b: Path)
    requires Linked(s) && s.Has(d) && s.Kids(d) == [] && Joining(s, d, k) && Entered(s, k, nodes) && k != []
    requires Linked(Attached(s, d, k, nodes)) && Known(k, s.store)
    ensures b in ListsOf(Attached(s, d, k, nodes)) <==> b == d || b in ListsOf(s)
    ensures b in ListsOf(Attached(s, d, k, nodes)) ==>
              ListsOf(Attached(s, d, k, nodes))[b] == if b == d then Elems(k, s.store) else ListsOf(s)[b]
  {
    hide Linked, Joining, ListsOf, NoDup;
    var s' := Attached(s, d, k, nodes);
    InLists(s, b);
    InLists(s', b);
    if s'.Has(b) { AttachedKids(s, d, k, nodes, b); }
    KeptElems(s, d, k, nodes, b);
  }

  lemma KeptElems(s: Shape, d: Path, k: seq<Addr>, nodes: Nodes, b: Path)
    requires Linked(s) && s.Has(d) && Joining(s, d, k) && Entered(s, k, nodes)
    ensures s.Has(b) ==> Attached(s, d, k, nodes).Has(b)
    ensures forall l :: Known(l, s.store) ==>
              Known(l, Attached(s, d, k, nodes).store) && Elems(l, Attached(s, d, k, nodes).store) == Elems(l, s.store)
  {
    hide Lists, NoDup;
    var store := Attached(s, d, k, nodes).store;
    forall l | Known(l, s.store) ensures Known(l, store) && Elems(l, store) == Elems(l, s.store) {}
  }

  // ---------- the same lists ----------

  /** The lists say what the entries are. */
  lemma ListsTell(s: Shape, t: Shape)
    requires Linked(s) && Linked(t) && ListsOf(s) == ListsOf(t)
    ensures s.Contents() == t.Contents()
  {
    hide Linked, ListsOf;
    forall p ensures Look(s.Contents(), p) == Look(t.Contents(), p) {
      if p in s.nodes { Transfer(s, t, p); }
      if p in t.nodes { Transfer(t, s, p); }
    }
    assert forall p :: p in s.Contents() <==> Look(s.Contents(), p).Some?;
    assert forall p :: p in t.Contents() <==> Look(t.Contents(), p).Some?;
  }

  lemma Transfer(s: Shape, t: Shape, p: Path)
    requires Linked(s) && Linked(t) && ListsOf(s) == ListsOf(t) && p in s.nodes
    ensures p in t.nodes && p in s.Contents() && p in t.Contents() && s.Contents()[p] == t.Contents()[p]
  {
    HasList(s, p);
    var l, m := s.Kids(p.dir), t.Kids(p.dir);
    var i :| 0 <= i < |l| && l[i] == s.nodes[p];
    assert ListsOf(s)[p.dir][i] == s.store[l[i]].elem;
    assert ListsOf(t)[p.dir][i] == t.store[m[i]].elem;
    assert Lists(m, t.nodes, t.store, p.dir) && m[i] in m;
  }
}
