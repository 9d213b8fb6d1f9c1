/** What the repairs of a scrub do to the backup and to its two metadata files, as catalogs. */
module Repairs {
  import opened Elements
  import opened Catalogs
  import opened Disks
  import opened Ranks

  /** The result of a repair; `Threw` stands for an exception or a failed assertion. */
  datatype Fixup = Failed | Success | SuccessDiff | SuccessMeta | SuccessDiffMeta | Threw {
    predicate Redo() {
      SuccessDiff? || SuccessDiffMeta?
    }
  }

  /** Symbolic links are as the file system can have them. */
  ghost predicate SaneLinks(m: Catalog) {
    forall p :: p in m && m[p].ty.Symlink? ==> Sane(m[p])
  }

  ghost predicate AllHashed(m: Catalog) {
    forall p :: p in m ==> Hashed(m[p])
  }

  /** Nothing has changed except the entry of `p`, which is a directory if it was one. */
  ghost predicate Quiet(m: Catalog, m': Catalog, p: Path) {
    && (forall q :: q != p ==> Look(m', q) == Look(m, q))
    && (IsDirOpt(Look(m', p)) <==> IsDirOpt(Look(m, p)))
  }

  /** An edit at `p` that takes entries from `s` only. */
  ghost predicate Edit(m: Catalog, m': Catalog, s: Catalog, p: Path) {
    && Local(m, m', p)
    && m'.Keys <= m.Keys + s.Keys + {p}
    && (SaneLinks(m) && SaneLinks(s) ==> SaneLinks(m'))
    && (AllHashed(m) && AllHashed(s) ==> AllHashed(m'))
  }

  function Replaced(m: Catalog, s: Catalog, p: Path): Catalog {
    Cut(m, p) + Subtree(s, p)
  }

  lemma EditNothing(m: Catalog, s: Catalog, p: Path)
    ensures Edit(m, m, s, p) && Quiet(m, m, p)
  {
  }

  lemma EditReplace(m: Catalog, s: Catalog, p: Path)
    requires WellFormed(m) && WellFormed(s) && p in s
    ensures Edit(m, Replaced(m, s, p), s, p) && Look(Replaced(m, s, p), p) == Some(s[p])
    ensures !IsDirOpt(Look(m, p)) && !s[p].ty.Directory? ==> Quiet(m, Replaced(m, s, p), p)
    ensures p !in m ==> Replaced(m, s, p) == m + Subtree(s, p)
  {
    hide Edit, Quiet, WellFormed, Replaced;
    ReplaceEdits(m, s, p);
    if !IsDirOpt(Look(m, p)) && !s[p].ty.Directory? { ReplaceQuiet(m, s, p); }
    if p !in m {
      FormedPath(s, p);
      AddIsReplace(m, s, p);
    }
  }

  lemma FormedPath(s: Catalog, p: Path)
    requires WellFormed(s) && p in s
    ensures p.In?
  {
  }

  lemma ReplaceEdits(m: Catalog, s: Catalog, p: Path)
    requires p in s
    ensures Edit(m, Replaced(m, s, p), s, p) && Look(Replaced(m, s, p), p) == Some(s[p])
  {
  }

  lemma ReplaceQuiet(m: Catalog, s: Catalog, p: Path)
    requires WellFormed(m) && WellFormed(s) && p in s && !IsDirOpt(Look(m, p)) && !s[p].ty.Directory?
    ensures Quiet(m, Replaced(m, s, p), p)
  {
    forall q | Under(q, p) && q != p ensures q !in m && q !in s {
      if q in m { Ancestor(m, q, p); }
      if q in s { Ancestor(s, q, p); }
    }
  }

  lemma AddIsReplace(m: Catalog, s: Catalog, p: Path)
    requires WellFormed(m) && p.In? && p !in m
    ensures m + Subtree(s, p) == Replaced(m, s, p)
  {
    forall q | q in m ensures !Under(q, p) { if Under(q, p) { Ancestor(m, q, p); } }
  }

  lemma EditCut(m: Catalog, s: Catalog, p: Path)
    requires WellFormed(m) && p in m
    ensures Edit(m, Cut(m, p), s, p) && Look(Cut(m, p), p) == None
    ensures !m[p].ty.Directory? ==> Quiet(m, Cut(m, p), p)
  {
    forall q | q in m && Under(q, p) && q != p ensures m[p].ty.Directory? { Ancestor(m, q, p); }
  }

  lemma EditSet(m: Catalog, s: Catalog, p: Path, e: Element)
    requires || (p in m && e.ty == m[p].ty && e.hash == m[p].hash && (e.ty.Symlink? && Sane(m[p]) ==> Sane(e)))
             || (p !in m && !e.ty.Directory? && Sane(e))
    ensures Edit(m, m[p := e], s, p) && Quiet(m, m[p := e], p) && Look(m[p := e], p) == Some(e)
  {
  }

  function MergePer(base: Element, from: Element, ref: Element): Element {
    if from.per != ref.per then base.(per := from.per) else base
  }

  function MergeOwner(base: Element, from: Element, ref: Element): Element {
    if from.us != ref.us || from.gs != ref.gs then base.(us := from.us, gs := from.gs) else base
  }

  function MergeTime(base: Element, from: Element, ref: Element): Element {
    if from.mt != ref.mt then base.(mt := from.mt) else base
  }

  /**
   * `base` after every one of permissions, owner and modified time in which `from` and `ref` differ is set from `from`.
   */
  function Merge(base: Element, from: Element, ref: Element): Element {
    MergeTime(MergeOwner(MergePer(base, from, ref), from, ref), from, ref)
  }

  /** A field in which `from` and `ref` agree, and which is therefore not set, is wrong in `base`. */
  predicate Stuck(base: Element, from: Element, ref: Element) {
    || (from.per == ref.per && base.per != from.per)
    || (from.us == ref.us && from.gs == ref.gs && (base.us != from.us || base.gs != from.gs))
    || (from.mt == ref.mt && base.mt != from.mt)
  }

  /** Entries of the same content become the same, unless a field is stuck. */
  lemma MergeHeals(base: Element, from: Element, ref: Element)
    requires SameContent(base, from)
    ensures SameContent(Merge(base, from, ref), from)
    ensures Same(Merge(base, from, ref), from) <==> !Stuck(base, from, ref)
  {
  }

  /**
   * The repair of a content difference that leaves the backup entry half updated: the content of the source is that
   * of the backup, and a field is stuck. `s`, `x` and `y` are the entries of source, backup and metadata.
   */
  predicate HalfUpdate(s: Option<Element>, x: Option<Element>, y: Option<Element>) {
    && s.Some? && x.Some? && y.Some?
    && !SameContent(x.value, y.value) && !(x.value.ty.Symlink? && y.value.ty.Symlink?)
    && !Same(s.value, y.value) && !Same(s.value, x.value) && SameContent(s.value, x.value)
    && Stuck(x.value, s.value, y.value)
  }

  /** It happens: the file has its old content in source and backup, and the time of the metadata in the source. */
  lemma HalfUpdateHappens(rp: Path, h: string, h': string)
    requires h != h' && h != "" && h' != ""
    ensures HalfUpdate(Some(Element(Regular, 420, "u", "g", 2, 1, h, rp, "")),
            Some(Element(Regular, 420, "u", "g", 1, 1, h, rp, "")),
                       Some(Element(Regular, 420, "u", "g", 2, 1, h', rp, "")))
  {
  }

  /** A repair of this line makes a symbolic link from the metadata. */
  predicate Relinks(x: Option<Element>, y: Option<Element>) {
    && y.Some? && y.value.ty.Symlink?
    && (x.None? || (x.value.ty.Symlink? && !SameContent(x.value, y.value)))
  }

  /** Both entries are there, and their content is the same. */
  predicate Matched(x: Option<Element>, y: Option<Element>) {
    x.Some? && y.Some? && SameContent(x.value, y.value)
  }

  /** Both metadata files have the entry of the source, and the backup has its content. */
  ghost predicate HalfDone(t: Trio, s: Catalog, p: Path) {
    Matched(Look(t.a, p), Look(t.b, p)) && Look(t.b, p) == Look(s, p) && Look(t.c, p) == Look(s, p)
  }

  /** A whole repair: an edit of each catalog that heals `p`, or leaves its backup entry half updated. */
  ghost predicate Repaired(t: Trio, t': Trio, s: Catalog, p: Path, r: Fixup, mixed: bool) {
    && Edit(t.a, t'.a, s, p) && Edit(t.b, t'.b, s, p) && Edit(t.c, t'.c, s, p)
    && (r.Failed? ==> t' == t && !mixed)
    && (!r.Failed? ==> t'.WeightAt(p) == (if mixed then 1 else 0) < t.WeightAt(p))
    && (!r.Redo() ==> Quiet(t.a, t'.a, p) && Quiet(t.b, t'.b, p) && Quiet(t.c, t'.c, p))
    && (mixed && !r.Redo() ==> !IsDirOpt(Look(t'.a, p)))
    && (mixed ==> HalfDone(t', s, p))
  }

  lemma NotRepaired(t: Trio, s: Catalog, p: Path)
    ensures Repaired(t, t, s, p, Failed, false)
  {
    EditNothing(t.a, s, p);
    EditNothing(t.b, s, p);
    EditNothing(t.c, s, p);
  }

  ghost predicate Formed(t: Trio) {
    WellFormed(t.a) && WellFormed(t.b) && WellFormed(t.c)
  }

  /** The metadata files agree on `p`, and the backup does not agree with them. */
  ghost predicate Outvoted(t: Trio, p: Path) {
    SameOpt(Look(t.b, p), Look(t.c, p)) && !SameOpt(Look(t.a, p), Look(t.b, p))
  }

  lemma HealedBy(t: Trio, t': Trio, s: Catalog, p: Path, r: Fixup)
    requires Edit(t.a, t'.a, s, p) && Edit(t.b, t'.b, s, p) && Edit(t.c, t'.c, s, p) && !r.Failed?
    requires Outvoted(t, p) && Agreeing(Look(t'.a, p), Look(t'.b, p), Look(t'.c, p))
    requires !r.Redo() ==> Quiet(t.a, t'.a, p) && Quiet(t.b, t'.b, p) && Quiet(t.c, t'.c, p)
    ensures Repaired(t, t', s, p, r, false)
  {
    hide Edit, Quiet;
  }

  // ---------- an entry is missing in the backup ----------

  function CopyResult(t: Trio, s: Catalog, p: Path): Trio {
    t.(a := t.a + Subtree(s, p))
  }

  lemma CopyHeals(t: Trio, s: Catalog, p: Path)
    requires Formed(t) && WellFormed(s) && Outvoted(t, p) && p !in t.a && p in t.b && p in s && Same(s[p], t.b[p])
    ensures Repaired(t, CopyResult(t, s, p), s, p, if t.b[p].ty.Directory? then SuccessDiff else Success, false)
  {
    hide Edit, Quiet, WellFormed, Subtree, Repaired, Cut;
    EditReplace(t.a, s, p);
    EditNothing(t.b, s, p);
    EditNothing(t.c, s, p);
    HealedBy(t, CopyResult(t, s, p), s, p, if t.b[p].ty.Directory? then SuccessDiff else Success);
  }

  function AdoptResult(t: Trio, s: Catalog, p: Path): Trio
    requires p in t.b && p in t.c && p in s
  {
    Trio(t.a + Subtree(s, p), t.b[p := Merge(t.b[p], s[p], t.b[p])], t.c[p := Merge(t.c[p], s[p], t.b[p])])
  }

  lemma AdoptHeals(t: Trio, s: Catalog, p: Path)
    requires Formed(t) && WellFormed(s) && Outvoted(t, p) && p !in t.a && p in t.b && p in t.c && p in s
    requires SameContent(s[p], t.b[p]) && !s[p].ty.Symlink?
    ensures Repaired(t, AdoptResult(t, s, p), s, p, if t.b[p].ty.Directory? then SuccessDiffMeta
            else SuccessMeta, false)
  {
    hide Edit, Quiet, WellFormed, Subtree, Repaired, Cut;
    var r := if t.b[p].ty.Directory? then SuccessDiffMeta else SuccessMeta;
    EditReplace(t.a, s, p);
    EditSet(t.b, s, p, Merge(t.b[p], s[p], t.b[p]));
    EditSet(t.c, s, p, Merge(t.c[p], s[p], t.b[p]));
    HealedBy(t, AdoptResult(t, s, p), s, p, r);
  }

  function AllFromSource(t: Trio, s: Catalog, p: Path): Trio {
    Trio(Replaced(t.a, s, p), Replaced(t.b, s, p), Replaced(t.c, s, p))
  }

  /** Everything is taken from the source; the lists have to be made anew if a directory is involved. */
  lemma AllFromSourceHeals(t: Trio, s: Catalog, p: Path, r: Fixup)
    requires Formed(t) && WellFormed(s) && Outvoted(t, p) && p in s && !r.Failed?
    requires !r.Redo() ==> !s[p].ty.Directory? && !IsDirOpt(Look(t.a, p)) && !IsDirOpt(Look(t.b, p))
    ensures Repaired(t, AllFromSource(t, s, p), s, p, r, false)
  {
    hide Edit, Quiet, WellFormed, Subtree, Repaired, Cut, Replaced;
    EditReplace(t.a, s, p);
    EditReplace(t.b, s, p);
    EditReplace(t.c, s, p);
    HealedBy(t, AllFromSource(t, s, p), s, p, r);
  }

  lemma LinkHeals(t: Trio, s: Catalog, p: Path)
    requires Outvoted(t, p) && p !in t.a && p in t.b && t.b[p].ty.Symlink? && Sane(t.b[p])
    ensures Repaired(t, t.(a := t.a[p := t.b[p]]), s, p, Success, false)
  {
    hide Edit, Quiet, Repaired;
    EditSet(t.a, s, p, t.b[p]);
    EditNothing(t.b, s, p);
    EditNothing(t.c, s, p);
    HealedBy(t, t.(a := t.a[p := t.b[p]]), s, p, Success);
  }

  // ---------- an entry is in the backup only ----------

  lemma CutHeals(t: Trio, s: Catalog, p: Path)
    requires Formed(t) && Outvoted(t, p) && p in t.a && p !in t.b
    ensures Repaired(t, t.(a := Cut(t.a, p)), s, p, if t.a[p].ty.Directory? then SuccessDiff else Success, false)
  {
    hide Edit, Quiet, Repaired, Cut, WellFormed;
    EditCut(t.a, s, p);
    EditNothing(t.b, s, p);
    EditNothing(t.c, s, p);
    HealedBy(t, t.(a := Cut(t.a, p)), s, p, if t.a[p].ty.Directory? then SuccessDiff else Success);
  }

  // ---------- the entries differ ----------

  lemma TouchHeals(t: Trio, s: Catalog, p: Path)
    requires Outvoted(t, p) && p in t.a && p in t.b && SameContent(t.a[p], t.b[p])
    requires t.a[p].ty.Symlink? ==> Sane(t.a[p]) && Sane(t.b[p])
    ensures Repaired(t, t.(a := t.a[p := Merge(t.a[p], t.b[p], t.a[p])]), s, p, Success, false)
  {
    hide Edit, Quiet, Repaired;
    var e := Merge(t.a[p], t.b[p], t.a[p]);
    EditSet(t.a, s, p, e);
    EditNothing(t.b, s, p);
    EditNothing(t.c, s, p);
    MergeHeals(t.a[p], t.b[p], t.a[p]);
    HealedBy(t, t.(a := t.a[p := e]), s, p, Success);
  }

  lemma RelinkHeals(t: Trio, s: Catalog, p: Path)
    requires Formed(t) && Outvoted(t, p) && p in t.a && p in t.b && t.a[p].ty.Symlink? && t.b[p].ty.Symlink?
    requires Sane(t.b[p])
    ensures Repaired(t, t.(a := Cut(t.a, p)[p := t.b[p]]), s, p, Success, false)
  {
    hide WellFormed, Cut, Repaired;
    EditCut(t.a, s, p);
    EditSet(Cut(t.a, p), s, p, t.b[p]);
    EditNothing(t.b, s, p);
    EditNothing(t.c, s, p);
    HealedBy(t, t.(a := Cut(t.a, p)[p := t.b[p]]), s, p, Success);
  }

  lemma ReplaceHeals(t: Trio, s: Catalog, p: Path)
    requires Formed(t) && WellFormed(s) && Outvoted(t, p) && p in t.b && p in s && Same(s[p], t.b[p])
    ensures Repaired(t, t.(a := Replaced(t.a, s, p)), s, p,
                     if t.b[p].ty.Directory? || IsDirOpt(Look(t.a, p)) then SuccessDiff else Success, false)
  {
    hide Edit, Quiet, WellFormed, Replaced, Repaired;
    EditReplace(t.a, s, p);
    EditNothing(t.b, s, p);
    EditNothing(t.c, s, p);
    HealedBy(t, t.(a := Replaced(t.a, s, p)), s, p,
             if t.b[p].ty.Directory? || IsDirOpt(Look(t.a, p)) then SuccessDiff else Success);
  }

  lemma MetasHeal(t: Trio, s: Catalog, p: Path)
    requires Formed(t) && WellFormed(s) && Outvoted(t, p) && p in t.a && p in t.b && p in s && Same(s[p], t.a[p])
    ensures Repaired(t, t.(b := Replaced(t.b, s, p), c := Replaced(t.c, s, p)), s, p,
                     if s[p].ty.Directory? || t.b[p].ty.Directory? then SuccessDiffMeta else SuccessMeta, false)
  {
    hide Edit, Quiet, WellFormed, Replaced, Repaired;
    EditNothing(t.a, s, p);
    EditReplace(t.b, s, p);
    EditReplace(t.c, s, p);
    HealedBy(t, t.(b := Replaced(t.b, s, p), c := Replaced(t.c, s, p)), s, p,
             if s[p].ty.Directory? || t.b[p].ty.Directory? then SuccessDiffMeta else SuccessMeta);
  }

  function MixedResult(t: Trio, s: Catalog, p: Path): Trio
    requires p in t.a && p in t.b && p in s
  {
    Trio(t.a[p := Merge(t.a[p], s[p], t.b[p])], Replaced(t.b, s, p), Replaced(t.c, s, p))
  }

  /** The backup entry gets what differs between the source and the metadata, not what differs from the backup. */
  lemma MixedHeals(t: Trio, s: Catalog, p: Path)
    requires Formed(t) && WellFormed(s) && Outvoted(t, p) && p in t.a && p in t.b && p in s
    requires SameContent(s[p], t.a[p]) && !SameContent(t.a[p], t.b[p])
    requires s[p].ty.Symlink? ==> Sane(t.a[p]) && Sane(s[p])
    ensures Repaired(t, MixedResult(t, s, p), s, p,
                     if t.b[p].ty.Directory? || t.a[p].ty.Directory? then SuccessDiffMeta else SuccessMeta,
                     Stuck(t.a[p], s[p], t.b[p]))
  {
    hide Edit, Quiet, WellFormed, Replaced, Stuck;
    EditSet(t.a, s, p, Merge(t.a[p], s[p], t.b[p]));
    EditReplace(t.b, s, p);
    EditReplace(t.c, s, p);
    MergeHeals(t.a[p], s[p], t.b[p]);
  }

  // ---------- which repair it is ----------

  /**
   * What the repair of a line makes of backup and metadata, if there is one: links come from the metadata, what is not
   * in the metadata goes, other attributes are set from the metadata, and content comes from the source.
   */
  ghost function RepairOf(t: Trio, s: Catalog, p: Path): Trio
    requires p in t.b ==> p in t.c
  {
    if p !in t.b then t.(a := Cut(t.a, p))
    else if p !in t.a then
      if t.b[p].ty.Symlink? then t.(a := t.a[p := t.b[p]])
      else if p !in s then t
      else if Same(s[p], t.b[p]) then CopyResult(t, s, p)
      else if SameContent(s[p], t.b[p]) then AdoptResult(t, s, p)
      else AllFromSource(t, s, p)
    else if SameContent(t.a[p], t.b[p]) then t.(a := t.a[p := Merge(t.a[p], t.b[p], t.a[p])])
    else if t.a[p].ty.Symlink? && t.b[p].ty.Symlink? then t.(a := Cut(t.a, p)[p := t.b[p]])
    else if p !in s then t
    else if Same(s[p], t.b[p]) then t.(a := Replaced(t.a, s, p))
    else if Same(s[p], t.a[p]) then t.(b := Replaced(t.b, s, p), c := Replaced(t.c, s, p))
    else if SameContent(s[p], t.a[p]) then MixedResult(t, s, p)
    else AllFromSource(t, s, p)
  }

  /** Only the source could help, and it cannot. `i`, `x` and `y` are the entries of source, backup and metadata. */
  predicate Helpless(present: bool, i: Option<Element>, x: Option<Element>, y: Option<Element>) {
    && (!present || i.None?) && y.Some?
    && (if x.None? then !y.value.ty.Symlink?
        else !SameContent(x.value, y.value) && !(x.value.ty.Symlink? && y.value.ty.Symlink?))
  }

  /** The user is asked first: something would be deleted that has not rotted. */
  predicate Asked(i: Option<Element>, x: Option<Element>, y: Option<Element>) {
    x.Some? &&
    (y.None? ||
     (!SameContent(x.value, y.value) &&
      if x.value.ty.Symlink? && y.value.ty.Symlink? then !SameStamp(x.value, y.value)
      else i.Some? && if Same(i.value, y.value) then !SameStamp(x.value, y.value)
                      else !Same(i.value, x.value) && !SameContent(i.value, x.value)))
  }

  /** The program gets as far as asking. */
  predicate Questioned(present: bool, i: Option<Element>, x: Option<Element>, y: Option<Element>) {
    Asked(i, x, y) && !Helpless(present, i, x, y)
  }

  function DiffIf(dir: bool): Fixup {
    if dir then SuccessDiff else Success
  }

  function MetaIf(dir: bool): Fixup {
    if dir then SuccessDiffMeta else SuccessMeta
  }

  /**
   * What a repair returns: metadata are rewritten where the source has something else, and the list of differences is
   * upset where a directory comes or goes.
   */
  function ResultOf(i: Option<Element>, x: Option<Element>, y: Option<Element>): Fixup {
    if y.None? then DiffIf(IsDirOpt(x))
    else if x.None? then
      if y.value.ty.Symlink? then Success
      else if i.None? then Failed
      else if Same(i.value, y.value) then DiffIf(IsDirOpt(y))
      else if SameContent(i.value, y.value) then MetaIf(IsDirOpt(y))
      else MetaIf(IsDirOpt(i) || IsDirOpt(y))
    else if SameContent(x.value, y.value) || (x.value.ty.Symlink? && y.value.ty.Symlink?) then Success
    else if i.None? then Failed
    else if Same(i.value, y.value) then DiffIf(IsDirOpt(x) || IsDirOpt(y))
    else if Same(i.value, x.value) then MetaIf(IsDirOpt(i) || IsDirOpt(y))
    else if SameContent(i.value, x.value) then MetaIf(IsDirOpt(x) || IsDirOpt(y))
    else MetaIf(IsDirOpt(i) || IsDirOpt(x) || IsDirOpt(y))
  }

  /** The backup entry is removed first. */
  predicate Removes(i: Option<Element>, x: Option<Element>, y: Option<Element>) {
    x.Some? &&
    (y.None? ||
     (!SameContent(x.value, y.value) &&
      ((x.value.ty.Symlink? && y.value.ty.Symlink?) ||
       (i.Some? && (Same(i.value, y.value) || (!Same(i.value, x.value) && !SameContent(i.value, x.value)))))))
  }

  // ---------- every case of a repair, by what is where afterwards ----------

  /** `m'` has what `s` has at and below `p`, and what `m` has elsewhere. */
  ghost predicate TakenFrom(m: Catalog, m': Catalog, s: Catalog, p: Path) {
    forall q :: Look(m', q) == if Under(q, p) then Look(s, q) else Look(m, q)
  }

  /** `m'` has the entry `e` at `p`, and what `m` has elsewhere. */
  ghost predicate SetTo(m: Catalog, m': Catalog, p: Path, e: Element) {
    forall q :: Look(m', q) == if q == p then Some(e) else Look(m, q)
  }

  /** What a question and its answer come to: `due` tells whether there has to be a question. */
  ghost predicate Asks(due: bool, asked: bool, yes: bool, r: Fixup, result: Fixup, same: bool, done: bool) {
    asked == due && if due && !yes then r == Failed && same else r == result && done
  }

  /**
   * What is done about a line of `p` on which both metadata files agree against the backup, where `x`, `y` and `i` are
   * what backup, metadata and source have there: whether the user is asked, what is returned, and what the three trees
   * have afterwards.
   */
  ghost predicate Handling(t: Trio, t': Trio, s: Catalog, present: bool, p: Path, x: Option<Element>,
                           y: Option<Element>, asked: bool, yes: bool, r: Fixup) {
    var i := if present then Look(s, p) else None;
    var metas := t'.b == t.b && t'.c == t.c;
    var copied := TakenFrom(t.a, t'.a, s, p);
    var rewritten := TakenFrom(t.b, t'.b, s, p) && TakenFrom(t.c, t'.c, s, p);
    if y.None? then
      // only the backup has it: it goes, if the user wants that
      Asks(true, asked, yes, r, DiffIf(IsDirOpt(x)), t' == t, TakenFrom(t.a, t'.a, map[], p) && metas)
    else if y.value.ty.Symlink? && (x.None? || (x.value.ty.Symlink? && !SameContent(x.value, y.value))) then
      // a link is made from the metadata; one that was changed on purpose, if the user wants that
      Asks(x.Some? && !SameStamp(x.value, y.value), asked, yes, r, Success, t' == t,
           SetTo(t.a, t'.a, p, y.value) && metas)
    else if x.Some? && SameContent(x.value, y.value) then
      // the backup gets permissions, owner and modified time of the metadata
      Asks(false, asked, yes, r, Success, t' == t,
           SetTo(t.a, t'.a, p, x.value.(per := y.value.per, us := y.value.us, gs := y.value.gs, mt := y.value.mt))
           && metas)
    else if i.None? then
      // only the source could help
      Asks(false, asked, yes, r, Failed, t' == t, t' == t)
    else if Same(i.value, y.value) then
      // the source has what the metadata say: it is copied; what was changed on purpose, if the user wants that
      Asks(x.Some? && !SameStamp(x.value, y.value), asked, yes, r, DiffIf(IsDirOpt(x) || IsDirOpt(y)), t' == t,
           copied && metas)
    else if x.None? && SameContent(i.value, y.value) then
      // the source has the content: it is copied, and the metadata get its permissions, owner and modified time
      Asks(false, asked, yes, r, MetaIf(IsDirOpt(y)), t' == t,
           copied && p in t.b && p in t.c
           && SetTo(t.b, t'.b, p, t.b[p].(per := i.value.per, us := i.value.us, gs := i.value.gs, mt := i.value.mt))
           && SetTo(t.c, t'.c, p, t.c[p].(per := i.value.per, us := i.value.us, gs := i.value.gs, mt := i.value.mt)))
    else if x.None? then
      // the source has something else: it is copied, and the metadata follow
      Asks(false, asked, yes, r, MetaIf(IsDirOpt(i) || IsDirOpt(y)), t' == t, copied && rewritten)
    else if Same(i.value, x.value) then
      // source and backup are the same: the metadata follow
      Asks(false, asked, yes, r, MetaIf(IsDirOpt(i) || IsDirOpt(y)), t' == t, t'.a == t.a && rewritten)
    else if SameContent(i.value, x.value) then
      // source and backup have the same content: the metadata follow the source, and so does the backup in those of
      // permissions, owner and modified time in which source and metadata differ
      Asks(false, asked, yes, r, MetaIf(IsDirOpt(x) || IsDirOpt(y)), t' == t,
           SetTo(t.a, t'.a, p, x.value.(
             per := if i.value.per != y.value.per then i.value.per else x.value.per,
             us := if i.value.us != y.value.us || i.value.gs != y.value.gs then i.value.us else x.value.us,
             gs := if i.value.us != y.value.us || i.value.gs != y.value.gs then i.value.gs else x.value.gs,
             mt := if i.value.mt != y.value.mt then i.value.mt else x.value.mt))
           && rewritten)
    else
      // all three differ: everything follows the source, if the user wants that
      Asks(true, asked, yes, r, MetaIf(IsDirOpt(i) || IsDirOpt(x) || IsDirOpt(y)), t' == t, copied && rewritten)
  }

  /**
   * The same without comparisons: an entry that differs in permissions, owner and modified time only gets those of the
   * metadata, without a source and without a question; if the source has the entry of the metadata, these stay as they
   * are; after a no everything does.
   */
  lemma HandlingPlainly(t: Trio, t': Trio, s: Catalog, present: bool, p: Path, x: Option<Element>, y: Option<Element>,
                        asked: bool, yes: bool, r: Fixup)
    requires Handling(t, t', s, present, p, x, y, asked, yes, r)
    ensures x.Some? && y.Some?
            && x.value.(per := y.value.per, us := y.value.us, gs := y.value.gs, mt := y.value.mt) == y.value ==>
              r == Success && !asked && Look(t'.a, p) == y && t'.b == t.b && t'.c == t.c
    ensures present && y.Some? && Look(s, p) == y ==> t'.b == t.b && t'.c == t.c
    ensures asked && !yes ==> r == Failed && t' == t
  {
    hide TakenFrom;
  }

  /**
   * Nothing goes from the backup unless the metadata lack it and the user wants that, and nothing there gets another
   * type, size or target without a question, unless type, permissions, owner and modified time are those of the
   * metadata: then it has rotted.
   */
  lemma NothingLost(t: Trio, t': Trio, s: Catalog, present: bool, p: Path, x: Element, y: Option<Element>,
                    asked: bool, yes: bool, r: Fixup)
    requires Handling(t, t', s, present, p, Some(x), y, asked, yes, r) && Look(t.a, p) == Some(x)
    ensures Look(t'.a, p).None? ==> asked && yes && y.None?
    ensures y.Some? && !asked && Look(t'.a, p).Some?
            && (Look(t'.a, p).value.ty != x.ty || Look(t'.a, p).value.sz != x.sz
                || Look(t'.a, p).value.target != x.target) ==>
              x.ty == y.value.ty && x.per == y.value.per && x.us == y.value.us && x.gs == y.value.gs
              && x.mt == y.value.mt
  {
    hide TakenFrom, SetTo, Look, Same, SameContent;
    TakenThere(t, t', s, p);
  }

  lemma TakenThere(t: Trio, t': Trio, s: Catalog, p: Path)
    ensures TakenFrom(t.a, t'.a, s, p) ==> Look(t'.a, p) == Look(s, p)
    ensures forall e | SetTo(t.a, t'.a, p, e) :: Look(t'.a, p) == Some(e)
  {
    assert Under(p, p);
  }

  lemma FailedHandling(t: Trio, s: Catalog, present: bool, p: Path, x: Option<Element>, y: Option<Element>, yes: bool)
    requires Helpless(present, Look(s, p), x, y) || (Questioned(present, Look(s, p), x, y) && !yes)
    ensures Handling(t, t, s, present, p, x, y, Questioned(present, Look(s, p), x, y), yes, Failed)
  {
    hide Same, SameContent, SameStamp;
  }

  lemma RepairHandling(t: Trio, s: Catalog, present: bool, p: Path, yes: bool)
    requires Formed(t) && WellFormed(s) && p.In? && SameOpt(Look(t.b, p), Look(t.c, p))
    requires var i, x, y := Look(s, p), Look(t.a, p), Look(t.b, p);
             !Helpless(present, i, x, y) && (Questioned(present, i, x, y) ==> yes) && (x.Some? || y.Some?)
    ensures var i, x, y := Look(s, p), Look(t.a, p), Look(t.b, p);
            Handling(t, RepairOf(t, s, p), s, present, p, x, y, Questioned(present, i, x, y), yes, ResultOf(i, x, y))
  {
    hide Handling, RepairOf, ResultOf, WellFormed;
    if p !in t.b {
      ExtraHandling(t, s, present, p, yes);
    } else if p !in t.a {
      MissingHandling(t, s, present, p, yes);
    } else {
      DifferingHandling(t, s, present, p, yes);
    }
  }

  lemma ExtraHandling(t: Trio, s: Catalog, present: bool, p: Path, yes: bool)
    requires p !in t.b && p in t.a && yes
    ensures var i, x, y := Look(s, p), Look(t.a, p), Look(t.b, p);
            Handling(t, RepairOf(t, s, p), s, present, p, x, y, Questioned(present, i, x, y), yes, ResultOf(i, x, y))
  {
    hide Cut, TakenFrom;
    TakenCut(t.a, p);
  }

  lemma MissingHandling(t: Trio, s: Catalog, present: bool, p: Path, yes: bool)
    requires WellFormed(t.a) && p !in t.a && p in t.b && p in t.c && Same(t.b[p], t.c[p]) && p.In?
    requires !Helpless(present, Look(s, p), None, Look(t.b, p))
    ensures var i, x, y := Look(s, p), Look(t.a, p), Look(t.b, p);
            Handling(t, RepairOf(t, s, p), s, present, p, x, y, Questioned(present, i, x, y), yes, ResultOf(i, x, y))
  {
    hide WellFormed, Cut, Subtree, Replaced, TakenFrom, SetTo, SameContent, SameStamp, Merge;
    TakenAdded(t.a, s, p);
    TakenReplaced(t.a, s, p);
    TakenReplaced(t.b, s, p);
    TakenReplaced(t.c, s, p);
    if p in s { MergeSets(t.b[p], t.c[p], s[p]); }
    AddIsReplace(t.a, s, p);
    SetIs(t.a, p, t.b[p]);
    if p in s {
      SetIs(t.b, p, Merge(t.b[p], s[p], t.b[p]));
      SetIs(t.c, p, Merge(t.c[p], s[p], t.b[p]));
    }
  }

  lemma DifferingHandling(t: Trio, s: Catalog, present: bool, p: Path, yes: bool)
    requires WellFormed(t.a) && p in t.a && p in t.b && p in t.c && p.In?
    requires !Helpless(present, Look(s, p), Look(t.a, p), Look(t.b, p))
    requires Questioned(present, Look(s, p), Look(t.a, p), Look(t.b, p)) ==> yes
    ensures var i, x, y := Look(s, p), Look(t.a, p), Look(t.b, p);
            Handling(t, RepairOf(t, s, p), s, present, p, x, y, Questioned(present, i, x, y), yes, ResultOf(i, x, y))
  {
    hide WellFormed, Cut, Subtree, Replaced, TakenFrom, SetTo, Merge, Same, SameStamp;
    TakenReplaced(t.a, s, p);
    TakenReplaced(t.b, s, p);
    TakenReplaced(t.c, s, p);
    MergeSets(t.a[p], t.a[p], t.b[p]);
    SetIs(t.a, p, Merge(t.a[p], t.b[p], t.a[p]));
    if t.a[p].ty.Symlink? { SetAgain(t.a, p, t.b[p]); }
    if p in s {
      SetIs(t.a, p, Merge(t.a[p], s[p], t.b[p]));
      MergeIs(t.a[p], s[p], t.b[p]);
    }
  }

  lemma TakenCut(m: Catalog, p: Path)
    ensures TakenFrom(m, Cut(m, p), map[], p)
  {
  }

  lemma TakenReplaced(m: Catalog, s: Catalog, p: Path)
    ensures TakenFrom(m, Replaced(m, s, p), s, p)
  {
  }

  lemma TakenAdded(m: Catalog, s: Catalog, p: Path)
    requires WellFormed(m) && p !in m && p.In?
    ensures TakenFrom(m, m + Subtree(s, p), s, p)
  {
    hide WellFormed;
    forall q | Under(q, p) ensures q !in m { if q in m { Ancestor(m, q, p); } }
  }

  lemma SetIs(m: Catalog, p: Path, e: Element)
    ensures SetTo(m, m[p := e], p, e)
  {
  }

  lemma SetAgain(m: Catalog, p: Path, e: Element)
    requires WellFormed(m) && p in m && !m[p].ty.Directory? && p.In?
    ensures SetTo(m, Cut(m, p)[p := e], p, e)
  {
    hide WellFormed;
    forall q | Under(q, p) && q != p ensures q !in m { if q in m { Ancestor(m, q, p); } }
  }

  lemma MergeSets(b: Element, c: Element, e: Element)
    requires b.per == c.per && b.us == c.us && b.gs == c.gs && b.mt == c.mt
    ensures Merge(b, e, b) == b.(per := e.per, us := e.us, gs := e.gs, mt := e.mt)
    ensures Merge(c, e, b) == c.(per := e.per, us := e.us, gs := e.gs, mt := e.mt)
  {
  }

  lemma MergeIs(x: Element, i: Element, y: Element)
    ensures Merge(x, i, y) == x.(
              per := if i.per != y.per then i.per else x.per,
              us := if i.us != y.us || i.gs != y.gs then i.us else x.us,
              gs := if i.us != y.us || i.gs != y.gs then i.gs else x.gs,
              mt := if i.mt != y.mt then i.mt else x.mt)
  {
  }

  // ---------- a metadata file is outvoted ----------

  /** What the backup has at and below `p` takes the place of what the metadata has there. */
  function Corrected(m: Catalog, a: Catalog, p: Path): Catalog {
    if p in a then Replaced(m, a, p) else Cut(m, p)
  }

  lemma LookCorrected(m: Catalog, a: Catalog, p: Path, q: Path)
    requires WellFormed(a) && p.In?
    ensures Look(Corrected(m, a, p), q) == if Under(q, p) then Look(a, q) else Look(m, q)
  {
    if Under(q, p) && q in a { Ancestor(a, q, p); }
  }
}
