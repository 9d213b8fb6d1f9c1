/**
 * The value of a directory tree: a finite map from paths to entries.
 * The operations of the tree class are specified by the functions of this module.
 */
module Catalogs {
  import opened Elements

  type Catalog = map<Path, Element>

  function Look(m: Catalog, p: Path): Option<Element> {
    if p in m then Some(m[p]) else None
  }

  /** The top directory always exists and is not an entry. */
  predicate IsDir(m: Catalog, p: Path) {
    p == Top || (p in m && m[p].ty.Directory?)
  }

  /** Every entry knows its own path and sits in a directory. */
  ghost predicate WellFormed(m: Catalog) {
    && (forall p :: p in m ==> p.In? && m[p].rp == p)
    && (forall p {:trigger p.dir} :: p in m ==> IsDir(m, p.dir))
  }

  /** Removing a path removes everything below it. */
  function Cut<T>(m: map<Path, T>, p: Path): map<Path, T> {
    map q | q in m && !Under(q, p) :: m[q]
  }

  /** The part of a map at and below a path. */
  function Subtree<T>(m: map<Path, T>, p: Path): map<Path, T> {
    map q | q in m && Under(q, p) :: m[q]
  }

  /** The part of a map on a set of paths. */
  function Pick<T>(m: map<Path, T>, ps: set<Path>): map<Path, T> {
    map q | q in m && q in ps :: m[q]
  }

  lemma PickJoin<T>(m: map<Path, T>, ps: set<Path>, qs: set<Path>)
    ensures Pick(m, ps) + Pick(m, qs) == Pick(m, ps + qs)
    ensures ps !! qs ==> Pick(m, ps).Keys !! Pick(m, qs).Keys
  {
  }

  /** Whatever has something below it is an entry itself. */
  lemma {:induction false} Ancestor(m: Catalog, q: Path, p: Path)
    requires WellFormed(m) && q in m && Under(q, p) && p.In?
    ensures p in m && (q != p ==> m[p].ty.Directory?)
  {
    if q != p {
      if q.dir != p { Ancestor(m, q.dir, p); }
    }
  }

  lemma InItsDir(m: Catalog, p: Path)
    requires WellFormed(m) && p in m
    ensures p.In? && IsDir(m, p.dir)
  {
  }

  lemma SubtreeFacts(m: Catalog, s: Catalog, p: Path)
    requires WellFormed(m) && p.In? && p !in m
    ensures Subtree(s, p).Keys !! m.Keys && p.dir !in Subtree(s, p)
  {
    forall q | q in Subtree(s, p) ensures q !in m {
      if q in m { Ancestor(m, q, p); }
    }
    if p.dir in Subtree(s, p) { UnderIsDeeper(p.dir, p); }
  }

  /** A catalog without some of its entries. */
  ghost function Visible(m: Catalog, hidden: set<Path>): Catalog {
    map p | p in m && p !in hidden :: m[p]
  }

  lemma VisibleFormed(m: Catalog, hidden: set<Path>)
    requires WellFormed(m) && forall p :: p in hidden && p in m ==> !m[p].ty.Directory?
    ensures WellFormed(Visible(m, hidden)) && Visible(m, hidden).Keys == m.Keys - hidden
    ensures forall p :: IsDir(Visible(m, hidden), p) <==> IsDir(m, p)
    ensures hidden * m.Keys == {} ==> Visible(m, hidden) == m
  {
    forall p | p in m && p in hidden ensures p in hidden * m.Keys {}
  }

  lemma LookVisible(m: Catalog, hidden: set<Path>, p: Path)
    ensures Look(Visible(m, hidden), p) == if p in hidden then None else Look(m, p)
  {
  }
}
