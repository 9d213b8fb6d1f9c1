/**
 * How far three catalogs are from agreement: a number that every repair lowers.
 * A repair may upset whatever lies below the path it repairs, so paths count by depth, the upper levels first.
 */
module Ranks {
  import opened Elements
  import opened Catalogs

  /** All three are the same. */
  predicate Agreeing(x: Option<Element>, y: Option<Element>, z: Option<Element>) {
    SameOpt(x, y) && SameOpt(y, z)
  }

  /** 0 for agreement, 1 for agreement in content only between the backup and agreeing metadata, 2 for worse. */
  function Weight(x: Option<Element>, y: Option<Element>, z: Option<Element>): (w: nat)
    ensures w <= 2 && (w == 0 <==> Agreeing(x, y, z))
  {
    if Agreeing(x, y, z) then 0
    else if SameOpt(y, z) && x.Some? && y.Some? && SameContent(x.value, y.value) then 1
    else 2
  }

  datatype Trio = Trio(a: Catalog, b: Catalog, c: Catalog) {
    function WeightAt(p: Path): nat {
      Weight(Look(a, p), Look(b, p), Look(c, p))
    }

    ghost predicate Within(u: set<Path>) {
      a.Keys <= u && b.Keys <= u && c.Keys <= u
    }
  }

  /** The backup without some of its entries. */
  ghost function Hiding(t: Trio, hidden: set<Path>): Trio {
    t.(a := Visible(t.a, hidden))
  }

  /** Nothing has changed except at or below `p`. */
  ghost predicate Local(m: Catalog, m': Catalog, p: Path) {
    forall q :: !Under(q, p) ==> Look(m', q) == Look(m, q)
  }

  ghost predicate Local3(t: Trio, t': Trio, p: Path) {
    Local(t.a, t'.a, p) && Local(t.b, t'.b, p) && Local(t.c, t'.c, p)
  }

  /** The paths at one depth with at least one weight. */
  ghost function Heavy(u: set<Path>, t: Trio, k: nat, w: nat): set<Path> {
    set q | q in u && Depth(q) == k && t.WeightAt(q) >= w
  }

  ghost function LevelWeight(u: set<Path>, t: Trio, k: nat): nat {
    |Heavy(u, t, k, 1)| + |Heavy(u, t, k, 2)|
  }

  function Power(b: nat, n: nat): nat {
    if n == 0 then 1 else b * Power(b, n - 1)
  }

  /** The level weights from depth `k` on as the digits of a number. */
  ghost function Rank(u: set<Path>, t: Trio, k: nat, n: nat): nat
    decreases n
  {
    if n == 0 then 0 else LevelWeight(u, t, k) * Power(Base(u), n - 1) + Rank(u, t, k + 1, n - 1)
  }

  ghost function Base(u: set<Path>): nat {
    2 * |u| + 1
  }

  lemma SubsetSize<T>(x: set<T>, y: set<T>)
    requires x <= y
    ensures |x| <= |y| && (x != y ==> |x| < |y|)
  {
    assert y == x + (y - x);
    if x != y {
      var e :| e in y && e !in x;
      assert e in y - x && |y - x| > 0;
    }
  }

  lemma LevelBound(u: set<Path>, t: Trio, k: nat)
    ensures LevelWeight(u, t, k) < Base(u)
  {
    SubsetSize(Heavy(u, t, k, 1), u);
    SubsetSize(Heavy(u, t, k, 2), u);
  }

  lemma {:induction false} PowerPositive(b: nat, n: nat)
    requires b > 0
    ensures Power(b, n) > 0
  {
    if n > 0 { PowerPositive(b, n - 1); }
  }

  lemma {:induction false} RankBound(u: set<Path>, t: Trio, k: nat, n: nat)
    ensures Rank(u, t, k, n) < Power(Base(u), n)
    decreases n
  {
    hide LevelWeight, Base;
    if n > 0 {
      LevelBound(u, t, k);
      RankBound(u, t, k + 1, n - 1);
      PowerPositive(Base(u), n - 1);
      DigitDrop(LevelWeight(u, t, k), Base(u), Power(Base(u), n - 1));
    }
  }

  /** A smaller digit outweighs whatever comes after it. */
  lemma {:induction false} DigitDrop(w: nat, w': nat, q: nat)
    requires w < w'
    ensures w * q + q <= w' * q
    decreases w'
  {
    OneMore(w' - 1, q);
    if w < w' - 1 { DigitDrop(w, w' - 1, q); }
  }

  lemma OneMore(w: nat, q: nat)
    ensures (w + 1) * q == w * q + q
  {
  }

  /** Above the depth of the repaired path nothing has changed. */
  lemma SameLevel(u: set<Path>, t: Trio, t': Trio, p: Path, k: nat)
    requires Local3(t, t', p) && k < Depth(p)
    ensures LevelWeight(u, t', k) == LevelWeight(u, t, k)
  {
    forall q | Depth(q) == k ensures t'.WeightAt(q) == t.WeightAt(q) {
      if Under(q, p) { UnderIsDeeper(q, p); }
    }
    assert Heavy(u, t', k, 1) == Heavy(u, t, k, 1) && Heavy(u, t', k, 2) == Heavy(u, t, k, 2);
  }

  /** At the depth of the repaired path the weight has dropped. */
  lemma LighterLevel(u: set<Path>, t: Trio, t': Trio, p: Path)
    requires Local3(t, t', p) && p in u && t'.WeightAt(p) < t.WeightAt(p)
    ensures LevelWeight(u, t', Depth(p)) < LevelWeight(u, t, Depth(p))
  {
    var k := Depth(p);
    forall q | Depth(q) == k && q != p ensures t'.WeightAt(q) == t.WeightAt(q) {
      if Under(q, p) { UnderIsDeeper(q, p); }
    }
    SubsetSize(Heavy(u, t', k, 1), Heavy(u, t, k, 1));
    SubsetSize(Heavy(u, t', k, 2), Heavy(u, t, k, 2));
    var w := t.WeightAt(p);
    assert p in Heavy(u, t, k, w) && p !in Heavy(u, t', k, w);
  }

  lemma {:induction false} RankFrom(u: set<Path>, t: Trio, t': Trio, p: Path, k: nat, n: nat)
    requires Local3(t, t', p) && p in u && t'.WeightAt(p) < t.WeightAt(p)
    requires k <= Depth(p) < k + n
    ensures Rank(u, t', k, n) < Rank(u, t, k, n)
    decreases n
  {
    hide LevelWeight, Base, Power, Trio.WeightAt, Local3;
    if k < Depth(p) {
      SameLevel(u, t, t', p, k);
      RankFrom(u, t, t', p, k + 1, n - 1);
    } else {
      LighterLevel(u, t, t', p);
      RankBound(u, t', k + 1, n - 1);
      DigitDrop(LevelWeight(u, t', k), LevelWeight(u, t, k), Power(Base(u), n - 1));
    }
  }

  /** A depth that no path of the set exceeds. */
  ghost function MaxDepth(u: set<Path>): (n: nat)
    ensures forall p :: p in u ==> Depth(p) <= n
  {
    if u == {} then 0 else
      var p :| p in u;
      var n := MaxDepth(u - {p});
      assert forall q :: q in u ==> q == p || q in u - {p};
      if Depth(p) > n then Depth(p) else n
  }

  /** The distance from agreement of catalogs whose paths all lie in `u`. */
  ghost function Distance(u: set<Path>, t: Trio): nat {
    Rank(u, t, 0, MaxDepth(u) + 1)
  }

  /** The weights alone decide the distance. */
  lemma SameDistance(u: set<Path>, t: Trio, t': Trio)
    requires forall p :: t'.WeightAt(p) == t.WeightAt(p)
    ensures Distance(u, t') == Distance(u, t)
  {
    SameRank(u, t, t', 0, MaxDepth(u) + 1);
  }

  lemma {:induction false} SameRank(u: set<Path>, t: Trio, t': Trio, k: nat, n: nat)
    requires forall p :: t'.WeightAt(p) == t.WeightAt(p)
    ensures Rank(u, t', k, n) == Rank(u, t, k, n)
    decreases n
  {
    hide Trio.WeightAt, Power, Base;
    if n > 0 {
      assert Heavy(u, t', k, 1) == Heavy(u, t, k, 1) && Heavy(u, t', k, 2) == Heavy(u, t, k, 2);
      SameRank(u, t, t', k + 1, n - 1);
    }
  }

  /** Whatever a repair of `p` does below `p`, it brings the catalogs closer to agreement. */
  lemma RepairCloser(u: set<Path>, t: Trio, t': Trio, p: Path)
    requires t.Within(u) && Local3(t, t', p) && t'.WeightAt(p) < t.WeightAt(p)
    ensures Distance(u, t') < Distance(u, t)
  {
    assert p in t.a || p in t.b || p in t.c;
    RankFrom(u, t, t', p, 0, MaxDepth(u) + 1);
  }
}
