/** Paths, file system entries and their two comparisons. */
module Elements {

  datatype Option<+T> = None | Some(value: T) {
    predicate IsFailure() { None? }

    function PropagateFailure<U>(): Option<U>
      requires None?
    {
      None
    }

    function Extract(): T
      requires Some?
    {
      value
    }
  }

  /** A relative path: the top directory, or a name in a directory. */
  datatype Path = Top | In(dir: Path, name: string)

  /** `q` is `p` or lies below it. */
  predicate Under(q: Path, p: Path) {
    q == p || (q.In? && Under(q.dir, p))
  }

  function Depth(p: Path): nat {
    if p.In? then 1 + Depth(p.dir) else 0
  }

  lemma {:induction false} UnderIsDeeper(q: Path, p: Path)
    requires Under(q, p)
    ensures Depth(q) >= Depth(p)
    ensures q != p ==> Depth(q) > Depth(p)
  {
    if q != p { UnderIsDeeper(q.dir, p); }
  }

  lemma {:induction false} UnderTrans(r: Path, q: Path, p: Path)
    requires Under(r, q) && Under(q, p)
    ensures Under(r, p)
  {
    if r != q { UnderTrans(r.dir, q, p); }
  }

  lemma {:induction false} UnderTop(p: Path)
    ensures Under(p, Top)
  {
    if p.In? { UnderTop(p.dir); }
  }

  /** Two directories that contain a common path contain one another. */
  lemma {:induction false} UnderChain(r: Path, p: Path, q: Path)
    requires Under(r, p) && Under(r, q)
    ensures Under(p, q) || Under(q, p)
  {
    if r != p && r != q { UnderChain(r.dir, p, q); }
  }

  datatype FileType = Regular | Directory | Symlink | Unknown

  /**
   * One entry. `hash` is "" when the hash was not computed, `target` is the symlink target.
   * The hard link count is left out: it is never written and never compared.
   */
  datatype Element = Element(ty: FileType, per: nat, us: string, gs: string, mt: int,
                             sz: int, hash: string, rp: Path, target: string)

  datatype CompareOpt = CompareOpt(perm: bool, owner: bool, mtime: bool,
                                   size: bool, hash: bool, symlink: bool)

  /** Compare everything. */
  const ALL := CompareOpt(true, true, true, true, true, true)

  /** Compare only what a content change alters. */
  const CONTENT := CompareOpt(false, false, false, true, true, true)

  /** Compare only what a deliberate edit alters; entries alike in this and not in content have rotted. */
  const STAMP := CompareOpt(true, true, true, false, false, false)

  /** Type, size, target and, as far as both are known, hash are the same: so is the content. */
  predicate SameContent(a: Element, b: Element) {
    && a.ty == b.ty && a.rp == b.rp && a.sz == b.sz && a.target == b.target
    && (a.hash == b.hash || a.hash == "" || b.hash == "")
  }

  /** Permissions, owner and modified time are the same, which an edit would have changed. */
  predicate SameStamp(a: Element, b: Element) {
    a.ty == b.ty && a.rp == b.rp && a.per == b.per && a.us == b.us && a.gs == b.gs && a.mt == b.mt
  }

  /** The `compare` of the source. */
  predicate Compare(a: Element, b: Element, opt: CompareOpt) {
    && a.ty == b.ty
    && a.rp == b.rp
    && (opt.perm ==> a.per == b.per)
    && (opt.owner ==> a.us == b.us && a.gs == b.gs)
    && (opt.mtime ==> a.mt == b.mt)
    && (opt.size ==> a.sz == b.sz)
    && (opt.hash ==> a.hash == b.hash || a.hash == "" || b.hash == "")
    && (opt.symlink ==> a.target == b.target)
  }

  /** The `operator==` of the source, where an empty hash matches any hash. */
  predicate Same(a: Element, b: Element) {
    && a.ty == b.ty && a.per == b.per && a.us == b.us && a.gs == b.gs
    && a.mt == b.mt && a.sz == b.sz && a.rp == b.rp && a.target == b.target
    && (a.hash == "" || b.hash == "" || a.hash == b.hash)
  }

  /**
   * The comparisons by what they leave out: `operator==` leaves out nothing, that of content permissions, owner and
   * modified time, that of stamps size, target and hash. A missing hash matches any hash.
   */
  lemma FieldByField(a: Element, b: Element)
    ensures Same(a, b) <==> a.(hash := b.hash) == b && (a.hash == b.hash || a.hash == "" || b.hash == "")
    ensures SameContent(a, b) <==>
              a.(per := b.per, us := b.us, gs := b.gs, mt := b.mt, hash := b.hash) == b
              && (a.hash == b.hash || a.hash == "" || b.hash == "")
    ensures SameStamp(a, b) <==> a.(sz := b.sz, hash := b.hash, target := b.target) == b
  {
  }

  /** `operator==` lifted to `std::optional`. */
  predicate SameOpt(a: Option<Element>, b: Option<Element>) {
    match (a, b)
    case (None, None) => true
    case (Some(x), Some(y)) => Same(x, y)
    case _ => false
  }

  predicate IsDirOpt(a: Option<Element>) {
    a.Some? && a.value.ty.Directory?
  }

  /** Exactly the regular files carry a hash. */
  predicate Hashed(e: Element) {
    e.ty.Regular? <==> e.hash != ""
  }
}
