/** The scrub: vote on every difference, repair, and look again if a repair upset the list of differences. */
module Scrub {
  import opened Elements
  import opened Catalogs
  import opened Trees
  import opened Diffs
  import opened Ranks
  import opened Repairs
  import opened Votes
  import opened Users
  import opened Manager

  // ---------- one line ----------

  datatype Flags = Flags(unrecoverable: bool, maybeRecoverable: bool, redo: bool, updateMeta1: bool,
      updateMeta2: bool) {
    /** Something was given up. */
    predicate Bad() {
      unrecoverable || maybeRecoverable
    }
  }

  ghost function Keys(t: Trio): set<Path> {
    t.a.Keys + t.b.Keys + t.c.Keys
  }

  ghost predicate Quiet3(t: Trio, t': Trio, p: Path) {
    Quiet(t.a, t'.a, p) && Quiet(t.b, t'.b, p) && Quiet(t.c, t'.c, p)
  }

  ghost predicate Hashed3(t: Trio) {
    AllHashed(t.a) && AllHashed(t.b) && AllHashed(t.c)
  }

  /** A metadata tree that has changed is marked, and a mark stays. */
  ghost predicate Marked(t: Trio, t': Trio, f: Flags, f': Flags) {
    && (f.updateMeta1 ==> f'.updateMeta1) && (f.updateMeta2 ==> f'.updateMeta2)
    && (t'.b == t.b || f'.updateMeta1) && (t'.c == t.c || f'.updateMeta2)
  }

  /** What handling the line of `p` does: nothing, or a repair that stays at or below `p` and lightens `p`. */
  ghost predicate Stepped(t: Trio, t': Trio, s: Catalog, p: Path, f: Flags, f': Flags, half: bool, left: bool) {
    && Local3(t, t', p) && Marked(t, t', f, f')
    && (t' == t || t'.WeightAt(p) < t.WeightAt(p))
    && (f'.redo ==> t'.WeightAt(p) < t.WeightAt(p))
    && (!f'.redo ==> Quiet3(t, t', p))
    && (half ==> t'.WeightAt(p) == 1 && HalfDone(t', s, p) && (!f'.redo ==> !IsDirOpt(Look(t'.a, p))))
    && (t'.WeightAt(p) == 0 || half || left) && (left ==> t' == t)
    && (f'.Bad() <==> f.Bad() || left)
    && (f.unrecoverable ==> f'.unrecoverable) && (f.maybeRecoverable ==> f'.maybeRecoverable)
  }

  /** No path and no missing hash comes from elsewhere. */
  ghost predicate Kept(t: Trio, t': Trio, s: Catalog, p: Path) {
    && Keys(t') <= Keys(t) + s.Keys + {p}
    && (AllHashed(s) && Hashed3(t) ==> Hashed3(t'))
  }

  /**
   * The line of `p` has been handled, where `hidden` are the links that the last look did not see; `un` and `un'` are
   * the links without an index entry before and after. What is seen has made a step, and the trees have made the step
   * of the vote; `v` is the answer of the user, if there was a question.
   */
  ghost predicate Handles(t: Trio, t': Trio, g: Setting, hidden: set<Path>, un: set<Path>, un': set<Path>, p: Path,
                          f: Flags, f': Flags, half: bool, left: bool, v: Option<bool>) {
    var e := Event(p, p !in hidden, left, v);
    && Kept(t, t', g.s, p) && Stepped(Hiding(t, hidden), Hiding(t', hidden), g.s, p, f, f', half, left)
    && Legal(t, g, e) && t' == Step(t, g, e) && (left ==> t' == t && !half && Excused(Hiding(t, hidden), g, p))
    && (half <==> DueHalf(Hiding(t, hidden), g, p)) && (f'.redo <==> Upsets(t, g, e))
    && (f'.updateMeta1 <==> f.updateMeta1 || Writes1(t, g, e))
    && (f'.updateMeta2 <==> f.updateMeta2 || Writes2(t, g, e))
    && un <= un' <= un + {p}
    && (p in hidden ==> un' == un && (left || p !in t.b || p !in t.c))
    && (un' != un ==> g.fixup && Mends(t, e) && Relinks(Look(t.a, p), Look(t.b, p)) && !left && !f'.redo)
    && (un' != un ==> t'.b == t.b && t'.c == t.c)
  }

  lemma StepNothing(t: Trio, s: Catalog, p: Path, f: Flags, f': Flags)
    requires !f'.redo && f'.Bad() && Marked(t, t, f, f')
    requires (f.unrecoverable ==> f'.unrecoverable) && (f.maybeRecoverable ==> f'.maybeRecoverable)
    ensures Stepped(t, t, s, p, f, f', false, true) && Kept(t, t, s, p)
  {
  }

  lemma StepRepaired(t: Trio, t': Trio, s: Catalog, p: Path, r: Fixup, half: bool, f: Flags, f': Flags,
                     hidden: set<Path>)
    requires Repaired(t, t', s, p, r, half) && (f'.redo <==> r.Redo()) && f'.maybeRecoverable == f.maybeRecoverable
    requires f'.unrecoverable == (f.unrecoverable || r.Failed?) && Marked(t, t', f, f') && (p in hidden ==> r.Failed?)
    ensures Stepped(Hiding(t, hidden), Hiding(t', hidden), s, p, f, f', half, r.Failed?)
  {
    hide Quiet, SaneLinks, AllHashed, Local;
    UnseenLocal(t.a, t'.a, p, hidden);
    if !r.Redo() { UnseenQuiet(t.a, t'.a, p, hidden); }
    LookVisible(t.a, hidden, p);
    LookVisible(t'.a, hidden, p);
  }

  lemma UnseenLocal(m: Catalog, m': Catalog, p: Path, hidden: set<Path>)
    requires Local(m, m', p)
    ensures Local(Visible(m, hidden), Visible(m', hidden), p)
  {
    hide Visible;
    forall q | !Under(q, p) ensures Look(Visible(m', hidden), q) == Look(Visible(m, hidden), q) {
      LookVisible(m, hidden, q);
      LookVisible(m', hidden, q);
    }
  }

  lemma UnseenQuiet(m: Catalog, m': Catalog, p: Path, hidden: set<Path>)
    requires Quiet(m, m', p)
    ensures Quiet(Visible(m, hidden), Visible(m', hidden), p)
  {
    hide Visible;
    forall q ensures (q != p ==> Look(Visible(m', hidden), q) == Look(Visible(m, hidden), q))
                     && (IsDirOpt(Look(Visible(m', hidden), p)) <==> IsDirOpt(Look(Visible(m, hidden), p))) {
      LookVisible(m, hidden, q);
      LookVisible(m', hidden, q);
      LookVisible(m, hidden, p);
      LookVisible(m', hidden, p);
    }
  }

  lemma RepairKept(t: Trio, t': Trio, s: Catalog, p: Path, r: Fixup, half: bool)
    requires Repaired(t, t', s, p, r, half)
    ensures Kept(t, t', s, p)
  {
    hide Quiet, SaneLinks, AllHashed, Local;
  }

  /** An outvoted metadata catalog takes over what is seen of the backup `a` at `p`, and what it has below. */
  ghost function Voted(m: Catalog, a: Catalog, hidden: set<Path>, p: Path): Catalog {
    if p in Visible(a, hidden) then Replaced(m, a, p) else Cut(m, p)
  }

  lemma VotedFacts(m: Catalog, a: Catalog, hidden: set<Path>, s: Catalog, p: Path)
    requires WellFormed(m) && WellFormed(a) && p.In? && (p in m || p in Visible(a, hidden))
    ensures Local(m, Voted(m, a, hidden, p), p) && Look(Voted(m, a, hidden, p), p) == Look(Visible(a, hidden), p)
    ensures !IsDirOpt(Look(Visible(a, hidden), p)) && !IsDirOpt(Look(m, p)) ==> Quiet(m, Voted(m, a, hidden, p), p)
    ensures SaneLinks(m) && SaneLinks(a) ==> SaneLinks(Voted(m, a, hidden, p))
    ensures AllHashed(m) && AllHashed(a) ==> AllHashed(Voted(m, a, hidden, p))
    ensures Voted(m, a, hidden, p).Keys <= m.Keys + a.Keys
    ensures p !in hidden ==> Voted(m, a, hidden, p) == Corrected(m, a, p)
  {
    hide WellFormed, Replaced, Cut, Visible, Quiet, SaneLinks, AllHashed;
    LookVisible(a, hidden, p);
    if p in Visible(a, hidden) { EditReplace(m, a, p); } else { EditCut(m, a, p); }
    VotedKeys(m, a, hidden, p);
  }

  lemma VotedKeys(m: Catalog, a: Catalog, hidden: set<Path>, p: Path)
    ensures Voted(m, a, hidden, p).Keys <= m.Keys + a.Keys
  {
  }

  lemma StepVoted2(t: Trio, c: Catalog, s: Catalog, p: Path, f: Flags, f': Flags)
    requires Against2(Look(t.a, p), Look(t.b, p), Look(t.c, p)) && t.WeightAt(p) > 0
    requires Local(t.c, c, p) && Look(c, p) == Look(t.a, p) && (!f'.redo ==> Quiet(t.c, c, p))
    requires f' == f.(updateMeta2 := true, redo := f'.redo)
    ensures Stepped(t, t.(c := c), s, p, f, f', false, false)
  {
    hide Quiet, Local;
    EditNothing(t.a, s, p);
    EditNothing(t.b, s, p);
  }

  lemma StepVoted1(t: Trio, b: Catalog, s: Catalog, p: Path, f: Flags, f': Flags)
    requires Against1(Look(t.a, p), Look(t.b, p), Look(t.c, p))
    requires Local(t.b, b, p) && Look(b, p) == Look(t.a, p) && (!f'.redo ==> Quiet(t.b, b, p))
    requires f' == f.(updateMeta1 := true, redo := f'.redo)
    ensures Stepped(t, t.(b := b), s, p, f, f', false, false)
  {
    hide Quiet, Local;
    EditNothing(t.a, s, p);
    EditNothing(t.c, s, p);
  }

  /** The line `d` of the path `p` is what is seen of the trees now, apart from links made since the last look. */
  ghost predicate Current(tm: TreeManager, d: Line3, p: Path, hidden: set<Path>)
    reads tm.src, tm.dst, tm.meta1, tm.meta2, tm.dst.disk, tm.src.disk
  {
    && tm.Sound() && p.In? && hidden <= tm.dst.Unindexed()
    && (forall q :: q in tm.dst.Unindexed() && Under(q, p) ==> q in hidden)
    && d == LineAt3(tm.View(hidden).a, tm.View(hidden).b, tm.View(hidden).c, p) && ReportedAt(tm.View(hidden), p)
  }

  ghost function Of(tm: TreeManager, fixup: bool): Setting
    reads tm.src
  {
    Setting(tm.Source(), tm.srcTreePresent, fixup)
  }

  /**
   * Handle one line of the diff. It survives unless the vote does not cover the line, or a repair is `jam`med by a link
   * without an index entry that the last look did not see.
   */
  method ProcessLine(tm: TreeManager, d: Line3, p: Path, fixup: bool, f: Flags, user: User, ghost hidden: set<Path>)
      returns (ok: bool, f': Flags, half: bool, ghost left: bool, ghost v: Option<bool>, ghost jam: bool)
    requires Current(tm, d, p, hidden) && !f.redo
    modifies tm.dst, tm.meta1, tm.meta2, tm.dst.disk, user
    ensures user.asked == old(user.asked) + if v.Some? then 1 else 0
    ensures v.Some? ==> v.value == user.answers(old(user.asked))
    ensures tm.dst.disk == old(tm.dst.disk)
    ensures ok ==> !HashSplit(d.a, d.b, d.c) && !jam && tm.Sound()
    ensures ok ==>
              Handles(old(tm.Now()), tm.Now(), Of(tm, fixup), hidden, old(tm.dst.Unindexed()), tm.dst.Unindexed(), p, f,
                  f', half, left, v)
    ensures !ok && !jam ==> HashSplit(d.a, d.b, d.c) && tm.Sound() && tm.Now() == old(tm.Now())
    ensures jam ==> fixup && hidden != {} && old(tm.Jammed(d, p)) && SameOpt(d.b, d.c) && !SameOpt(d.a, d.b)
    ensures ok && !fixup ==> (left <==> !Against1(d.a, d.b, d.c) && !Against2(d.a, d.b, d.c))
    ensures !fixup ==> tm.Now().a == old(tm.Now().a)
    ensures !fixup ==> (tm.dst.disk != null ==> tm.dst.disk.files == old(tm.dst.disk.files))
    ensures ok && !fixup ==> (f'.redo ==> DirVote(d.a, d.b, d.c)) && VotedAt(old(tm.View(hidden)), tm.View(hidden), p)
  {
    hide TreeManager.Sound, TreeManager.Source, Handles, HashSplit, SameOpt, DirectoryTree.Contents, Hiding, ReportedAt,
         TreeManager.Jammed;
    ok, f', half, left, v, jam := true, f, false, false, None, false;
    VoteFacts(tm, d, p, hidden);
    if Against2(d.a, d.b, d.c) {
      f' := VoteAgainst2(tm, d, p, fixup, f, hidden);
    } else if Against1(d.a, d.b, d.c) {
      f' := VoteAgainst1(tm, d, p, fixup, f, hidden);
    } else if SameOpt(d.b, d.c) && !SameOpt(d.a, d.b) {
      if fixup {
        ok, f', half, left, v := VoteAgainstBackup(tm, d, p, f, user, hidden);
        jam := !ok;
      } else {
        f', left := f.(maybeRecoverable := true), true;
        LeaveLine(tm.Now(), Of(tm, fixup), hidden, tm.dst.Unindexed(), d, p, f, f');
      }
    } else if !SameOpt(d.a, d.b) && !SameOpt(d.b, d.c) {
      f', left := f.(unrecoverable := true), true;
      LeaveLine(tm.Now(), Of(tm, fixup), hidden, tm.dst.Unindexed(), d, p, f, f');
    } else {
      ok := false;
    }
  }

  lemma VoteFacts(tm: TreeManager, d: Line3, p: Path, hidden: set<Path>)
    requires Current(tm, d, p, hidden)
    ensures tm.Sound() && tm.dst != tm.meta1 && tm.dst != tm.meta2
    ensures Gap(d.a, d.b, d.c) <==> HashSplit(d.a, d.b, d.c)
    ensures d == LineAt3(Hiding(tm.Now(), hidden).a, tm.Now().b, tm.Now().c, p)
    ensures Formed(tm.Now()) && p.In? && (p !in hidden ==> ReportedAt(tm.Now(), p))
  {
    ViewFormed(tm, hidden);
    LineNow(tm, d, p, hidden);
    VoteCoverage(tm.View(hidden).a, tm.View(hidden).b, tm.View(hidden).c, p);
  }

  /** What is seen is three trees as well, with the same directories. */
  lemma ViewFormed(tm: TreeManager, hidden: set<Path>)
    requires tm.Fit() && hidden <= tm.dst.Unindexed()
    ensures Formed(tm.Now()) && Formed(tm.View(hidden)) && WellFormed(tm.Source())
    ensures forall q :: IsDir(tm.View(hidden).a, q) <==> IsDir(tm.Now().a, q)
    ensures forall q :: q in hidden ==> q in tm.Now().a && q.In? && tm.Now().a[q].ty.Symlink?
  {
    hide DirectoryTree.Valid, DirectoryTree.Contents, WellFormed, IsDir, Visible;
    tm.AllFormed();
    tm.dst.Facts();
    VisibleFormed(tm.dst.Contents(), hidden);
    forall q | q in hidden ensures q.In? { FormedPath(tm.dst.Contents(), q); }
  }

  /** Left alone for a reason. */
  lemma LeaveLine(t: Trio, g: Setting, hidden: set<Path>, un: set<Path>, d: Line3, p: Path, f: Flags, f': Flags)
    requires d == LineAt3(Hiding(t, hidden).a, t.b, t.c, p)
    requires !f.redo && !Against1(d.a, d.b, d.c) && !Against2(d.a, d.b, d.c) && !SameOpt(d.a, d.b)
    requires f' == (if SameOpt(d.b, d.c) then f.(maybeRecoverable := true) else f.(unrecoverable := true))
    requires SameOpt(d.b, d.c) ==> !g.fixup
    requires Formed(t) && p.In? && (p !in hidden ==> ReportedAt(t, p))
    ensures Handles(t, t, g, hidden, un, un, p, f, f', false, true, None)
    ensures VotedAt(Hiding(t, hidden), Hiding(t, hidden), p)
  {
    hide Stepped, Kept, SameOpt, Helpless, Asked, Visible, Legal, Step, Upsets, Writes1, Writes2, Mends, Relinks,
         HalfUpdate, Reported3;
    LookVisible(t.a, hidden, p);
    StepNothing(Hiding(t, hidden), g.s, p, f, f');
    KeptNothing(t, g.s, p);
    LeaveLegal(t, g, Event(p, p !in hidden, true, None));
  }

  lemma LeaveLegal(t: Trio, g: Setting, e: Event)
    requires Formed(t) && e.p.In? && (e.seen ==> ReportedAt(t, e.p)) && e.left && e.answer == None
    requires var x, y, z := SeenAt(t, e), Look(t.b, e.p), Look(t.c, e.p);
             !Against1(x, y, z) && !Against2(x, y, z) && !SameOpt(x, y) && (SameOpt(y, z) ==> !g.fixup)
    ensures Legal(t, g, e) && Step(t, g, e) == t && !Upsets(t, g, e) && !Writes1(t, g, e) && !Writes2(t, g, e)
  {
    hide SameOpt, Helpless, Asked, WellFormed, Reported3;
  }

  lemma KeptNothing(t: Trio, s: Catalog, p: Path)
    ensures Kept(t, t, s, p)
  {
  }

  method VoteAgainst2(tm: TreeManager, d: Line3, p: Path, ghost fixup: bool, f: Flags, ghost hidden: set<Path>)
      returns (f': Flags)
    requires Current(tm, d, p, hidden) && !f.redo && Against2(d.a, d.b, d.c)
    modifies tm.meta2
    ensures tm.Sound() && (f'.redo ==> DirVote(d.a, d.b, d.c))
    ensures Handles(old(tm.Now()), tm.Now(), Of(tm, fixup), hidden, tm.dst.Unindexed(), tm.dst.Unindexed(), p, f, f',
            false, false, None)
    ensures VotedAt(old(tm.View(hidden)), tm.View(hidden), p)
  {
    hide TreeManager.Fit, Handles, ReportedAt, SaneLinks, Formed, WellFormed, SameOpt, Voted, Visible,
         DirectoryTree.Contents;
    tm.Apart();
    LineNow(tm, d, p, hidden);
    ghost var t := tm.Now();
    var r := tm.FixMetadataEntry(tm.meta2, d.a, d.c, p);
    f' := f.(updateMeta2 := true, redo := r.SuccessDiffMeta?);
    AfterVote2(t, tm.Now(), Of(tm, fixup), hidden, tm.dst.Unindexed(), d, p, f, f');
  }

  method VoteAgainst1(tm: TreeManager, d: Line3, p: Path, ghost fixup: bool, f: Flags, ghost hidden: set<Path>)
      returns (f': Flags)
    requires Current(tm, d, p, hidden) && !f.redo && Against1(d.a, d.b, d.c) && !Against2(d.a, d.b, d.c)
    modifies tm.meta1
    ensures tm.Sound() && (f'.redo ==> DirVote(d.a, d.b, d.c))
    ensures Handles(old(tm.Now()), tm.Now(), Of(tm, fixup), hidden, tm.dst.Unindexed(), tm.dst.Unindexed(), p, f, f',
            false, false, None)
    ensures VotedAt(old(tm.View(hidden)), tm.View(hidden), p)
  {
    hide TreeManager.Fit, Handles, ReportedAt, SaneLinks, Formed, WellFormed, SameOpt, Voted, Visible,
         DirectoryTree.Contents;
    tm.Apart();
    LineNow(tm, d, p, hidden);
    ghost var t := tm.Now();
    var r := tm.FixMetadataEntry(tm.meta1, d.a, d.b, p);
    f' := f.(updateMeta1 := true, redo := r.SuccessDiffMeta?);
    AfterVote1(t, tm.Now(), Of(tm, fixup), hidden, tm.dst.Unindexed(), d, p, f, f');
  }

  /** What a current line says about the trees. */
  lemma LineNow(tm: TreeManager, d: Line3, p: Path, hidden: set<Path>)
    requires Current(tm, d, p, hidden)
    ensures tm.Fit() && Formed(tm.Now()) && Formed(tm.View(hidden)) && WellFormed(tm.Source()) && p.In?
    ensures ReportedAt(tm.View(hidden), p)
    ensures SaneLinks(tm.Now().a) && SaneLinks(tm.Now().b) && SaneLinks(tm.Now().c)
    ensures d.a == Look(tm.dst.Seen(), p) == Look(tm.View(hidden).a, p) && d.b == Look(tm.Now().b, p)
    ensures d.c == Look(tm.Now().c, p)
    ensures d.a == (if p in hidden then None else Look(tm.Now().a, p)) && (p in hidden <==> p in tm.dst.Unindexed())
    ensures p !in hidden ==> ReportedAt(tm.Now(), p)
    ensures Against2(d.a, d.b, d.c) && d.a.Some? ==> IsDir(tm.Now().c, p.dir)
    ensures Against1(d.a, d.b, d.c) && d.a.Some? ==> IsDir(tm.Now().b, p.dir)
    ensures SameOpt(d.b, d.c) && !SameOpt(d.a, d.b) && d.b.Some? ==> IsDir(tm.Now().a, p.dir)
    ensures tm.View(hidden).WeightAt(p) > 0
    ensures (Against2(d.a, d.b, d.c) ==> d.a.Some? || d.c.Some?) && (Against1(d.a, d.b, d.c) ==> d.a.Some? || d.b.Some?)
  {
    hide TreeManager.Fit, WellFormed, SameOpt, DirectoryTree.Contents, DirectoryTree.Valid, Visible, IsDir;
    ViewFormed(tm, hidden);
    var v := tm.View(hidden);
    assert Under(p, p);
    FitValid(tm);
    SeenEntry(tm.dst, p);
    LookVisible(tm.Now().a, hidden, p);
    VoteParents(v.a, v.b, v.c, p);
    ReportedPath(v, p);
    SomeEntry(d);
  }

  lemma ReportedPath(t: Trio, p: Path)
    requires Formed(t) && ReportedAt(t, p)
    ensures p.In? && t.WeightAt(p) > 0
  {
    ReportedHeavy(t.a, t.b, t.c, p);
  }

  lemma SomeEntry(d: Line3)
    ensures (Against2(d.a, d.b, d.c) ==> d.a.Some? || d.c.Some?) && (Against1(d.a, d.b, d.c) ==> d.a.Some? || d.b.Some?)
  {
  }

  lemma FitValid(tm: TreeManager)
    requires tm.Fit()
    ensures tm.dst.Valid()
  {
  }

  lemma AfterVote2(t: Trio, t': Trio, g: Setting, hidden: set<Path>, un: set<Path>, d: Line3, p: Path, f: Flags,
                   f': Flags)
    requires Formed(t) && p.In? && Against2(d.a, d.b, d.c) && d == LineAt3(Hiding(t, hidden).a, t.b, t.c, p)
    requires Hiding(t, hidden).WeightAt(p) > 0 && (p !in hidden ==> ReportedAt(t, p))
    requires t' == t.(c := if d.a.Some? then Replaced(t.c, t.a, p) else Cut(t.c, p))
    requires f' == f.(updateMeta2 := true, redo := IsDirOpt(d.a) || IsDirOpt(d.c))
    ensures Handles(t, t', g, hidden, un, un, p, f, f', false, false, None)
    ensures VotedAt(Hiding(t, hidden), Hiding(t', hidden), p)
    ensures SaneLinks(t.a) && SaneLinks(t.c) ==> SaneLinks(t'.c)
  {
    hide WellFormed, Replaced, Cut, Visible, Quiet, Local, SaneLinks, AllHashed, Stepped, Reported3, Voted,
         Trio.WeightAt, Corrected, RepairOf;
    LookVisible(t.a, hidden, p);
    VotedFacts(t.c, t.a, hidden, g.s, p);
    VotedIs(t.c, t.a, hidden, p);
    StepVoted2(Hiding(t, hidden), t'.c, g.s, p, f, f');
  }

  lemma AfterVote1(t: Trio, t': Trio, g: Setting, hidden: set<Path>, un: set<Path>, d: Line3, p: Path, f: Flags,
                   f': Flags)
    requires Formed(t) && p.In? && Against1(d.a, d.b, d.c) && !Against2(d.a, d.b, d.c)
    requires d == LineAt3(Hiding(t, hidden).a, t.b, t.c, p)
    requires p !in hidden ==> ReportedAt(t, p)
    requires t' == t.(b := if d.a.Some? then Replaced(t.b, t.a, p) else Cut(t.b, p))
    requires f' == f.(updateMeta1 := true, redo := IsDirOpt(d.a) || IsDirOpt(d.b))
    ensures Handles(t, t', g, hidden, un, un, p, f, f', false, false, None)
    ensures VotedAt(Hiding(t, hidden), Hiding(t', hidden), p)
    ensures SaneLinks(t.a) && SaneLinks(t.b) ==> SaneLinks(t'.b)
  {
    hide WellFormed, Replaced, Cut, Visible, Quiet, Local, SaneLinks, AllHashed, Stepped, Reported3, Voted,
         Trio.WeightAt, Corrected, RepairOf;
    LookVisible(t.a, hidden, p);
    VotedFacts(t.b, t.a, hidden, g.s, p);
    VotedIs(t.b, t.a, hidden, p);
    StepVoted1(Hiding(t, hidden), t'.b, g.s, p, f, f');
  }

  lemma VotedIs(m: Catalog, a: Catalog, hidden: set<Path>, p: Path)
    ensures Voted(m, a, hidden, p) == if Look(Visible(a, hidden), p).Some? then Replaced(m, a, p) else Cut(m, p)
  {
  }

  function FlagsAfter(f: Flags, r: Fixup): Flags {
    match r
    case Failed => f.(unrecoverable := true)
    case SuccessDiff => f.(redo := true)
    case SuccessMeta => f.(updateMeta1 := true, updateMeta2 := true)
    case SuccessDiffMeta => f.(updateMeta1 := true, updateMeta2 := true, redo := true)
    case _ => f
  }

  method VoteAgainstBackup(tm: TreeManager, d: Line3, p: Path, f: Flags, user: User, ghost hidden: set<Path>)
      returns (ok: bool, f': Flags, half: bool, ghost left: bool, ghost v: Option<bool>)
    requires Current(tm, d, p, hidden) && !f.redo && SameOpt(d.b, d.c) && !SameOpt(d.a, d.b)
    requires !Against1(d.a, d.b, d.c) && !Against2(d.a, d.b, d.c)
    modifies tm.dst, tm.meta1, tm.meta2, tm.dst.disk, user
    ensures tm.dst.disk == old(tm.dst.disk) && (!ok ==> hidden != {} && old(tm.Jammed(d, p)))
    ensures old(tm.Jammed(d, p)) ==> !ok || left
    ensures user.asked == old(user.asked) + if v.Some? then 1 else 0
    ensures v.Some? ==> v.value == user.answers(old(user.asked))
    ensures ok ==> tm.Sound()
    ensures ok ==>
              Handles(old(tm.Now()), tm.Now(), Of(tm, true), hidden, old(tm.dst.Unindexed()), tm.dst.Unindexed(), p, f,
                  f', half, left, v)
  {
    hide TreeManager.Fit, Handles, ReportedAt, SaneLinks, Formed, WellFormed, SameOpt, Visible, DirectoryTree.Contents,
         Repaired, TreeManager.Chosen, TreeManager.Jammed, Relinks, HalfUpdate, Helpless, Asked, Removes, Handling,
         TreeManager.Doubtful;
    LineNow(tm, d, p, hidden);
    JamHidden(tm, d, p, hidden);
    tm.Apart();
    ghost var t := tm.Now();
    var r;
    v := if tm.Doubtful(d, p) then Some(user.answers(user.asked)) else None;
    r, half := tm.TryToFixBackupEntry(d, p, user);
    ok, f', left := true, f, r.Failed?;
    if r.Threw? { return false, f, half, left, v; }
    f' := FlagsAfter(f, r);
    tm.AnswerCounts(t, tm.Now(), d, p, r, user.answers(old(user.asked)));
    AfterRepair(tm, t, tm.Now(), hidden, old(tm.dst.Unindexed()), tm.dst.Unindexed(), d, p, r, half, v, f, f');
  }

  lemma JamHidden(tm: TreeManager, d: Line3, p: Path, hidden: set<Path>)
    requires Current(tm, d, p, hidden)
    ensures tm.Jammed(d, p) ==> hidden != {}
  {
    if tm.Jammed(d, p) && p !in tm.dst.Unindexed() {
      var q :| q in tm.dst.Unindexed() && Under(q, p);
    }
    assert Under(p, p);
  }

  lemma AfterRepair(tm: TreeManager, t: Trio, t': Trio, hidden: set<Path>, un: set<Path>, un': set<Path>, d: Line3,
                    p: Path, r: Fixup, half: bool, v: Option<bool>, f: Flags, f': Flags)
    requires Formed(t) && p.In? && SameOpt(d.b, d.c) && !SameOpt(d.a, d.b) && !Against1(d.a, d.b, d.c)
    requires !Against2(d.a, d.b, d.c)
    requires d == LineAt3(Hiding(t, hidden).a, t.b, t.c, p) && (p !in hidden ==> ReportedAt(t, p))
    requires p in hidden ==> r.Failed?
    requires Repaired(t, t', tm.Source(), p, r, half) && !r.Threw? && (v.Some? <==> tm.Doubtful(d, p))
    requires tm.Chosen(t, t', d, p, v.Some? && v.value, r)
    requires half <==> tm.srcTreePresent && HalfUpdate(Look(tm.Source(), p), d.a, d.b)
    requires un' == un + if r.Success? && Relinks(d.a, d.b) then {p} else {}
    requires !f.redo && f' == FlagsAfter(f, r)
    ensures Handles(t, t', Of(tm, true), hidden, un, un', p, f, f', half, r.Failed?, v)
  {
    hide WellFormed, Repaired, Stepped, Kept, Visible, Helpless, Asked, Relinks, HalfUpdate, Reported3, SameOpt,
         RepairOf, Corrected, DirectoryTree.Contents, Legal, Step, Upsets, Writes1, Writes2, Mends;
    LookVisible(t.a, hidden, p);
    StepRepaired(t, t', tm.Source(), p, r, half, f, f', hidden);
    RepairKept(t, t', tm.Source(), p, r, half);
    FailedWhole(t, t', tm.Source(), p, r, half);
    RepairLegal(tm, t, t', Event(p, p !in hidden, r.Failed?, v), d, p, r);
  }

  lemma RepairLegal(tm: TreeManager, t: Trio, t': Trio, e: Event, d: Line3, p: Path, r: Fixup)
    requires Formed(t) && e.p == p && p.In? && (e.seen ==> ReportedAt(t, p)) && (!e.seen ==> r.Failed?)
    requires d == Line3(SeenAt(t, e), Look(t.b, p), Look(t.c, p)) && SameOpt(d.b, d.c) && !SameOpt(d.a, d.b)
    requires !Against1(d.a, d.b, d.c) && !Against2(d.a, d.b, d.c) && !r.Threw? && e.left == r.Failed?
    requires (e.answer.Some? <==> tm.Doubtful(d, p)) && tm.Chosen(t, t', d, p, e.answer.Some? && e.answer.value, r)
    ensures Legal(t, Of(tm, true), e) && t' == Step(t, Of(tm, true), e) && (!e.left ==> Mends(t, e))
    ensures Upsets(t, Of(tm, true), e) <==> r.Redo()
    ensures Writes1(t, Of(tm, true), e) <==> r.SuccessMeta? || r.SuccessDiffMeta?
    ensures Writes2(t, Of(tm, true), e) <==> r.SuccessMeta? || r.SuccessDiffMeta?
  {
    hide SameOpt, Helpless, Asked, WellFormed, Reported3, RepairOf, Corrected, ResultOf, DirectoryTree.Contents;
  }

  lemma FailedWhole(t: Trio, t': Trio, s: Catalog, p: Path, r: Fixup, half: bool)
    requires Repaired(t, t', s, p, r, half)
    ensures r.Failed? ==> !half
  {
  }

  // ---------- one pass over the lines ----------

  /**
   * Since the start of the pass only the first `i` lines have been handled, and no entry has become or ceased to be a
   * directory.
   */
  ghost predicate InPass(t0: Trio, t: Trio, ps: seq<Path>, i: nat)
    requires i <= |ps|
  {
    && (forall q :: q !in ps[..i] ==> Untouched(t0, t, q))
    && (forall q :: SamePlace(t0, t, q))
  }

  lemma InPassStep(t0: Trio, t: Trio, t': Trio, ps: seq<Path>, i: nat)
    requires i < |ps| && InPass(t0, t, ps, i) && Quiet3(t, t', ps[i])
    ensures InPass(t0, t', ps, i + 1)
  {
    hide Quiet, IsDir;
    var p := ps[i];
    assert ps[..i + 1] == ps[..i] + [p];
    forall q ensures SamePlace(t, t', q) && (q != p ==> Untouched(t, t', q)) {
      QuietAt(t.a, t'.a, p, q);
      QuietAt(t.b, t'.b, p, q);
      QuietAt(t.c, t'.c, p, q);
    }
    forall q ensures SamePlace(t0, t', q) && (q !in ps[..i + 1] ==> Untouched(t0, t', q)) {
      assert SamePlace(t0, t, q) && SamePlace(t, t', q);
      if q !in ps[..i + 1] { assert Untouched(t0, t, q) && Untouched(t, t', q); }
    }
  }

  lemma QuietAt(m: Catalog, m': Catalog, p: Path, q: Path)
    requires Quiet(m, m', p)
    ensures (IsDir(m', q) <==> IsDir(m, q)) && (q != p ==> Look(m', q) == Look(m, q))
  {
  }

  /** A line that has not been handled is still what it was. */
  lemma InPassSame(t0: Trio, t: Trio, ps: seq<Path>, i: nat, p: Path)
    requires i <= |ps| && InPass(t0, t, ps, i) && p !in ps[..i]
    ensures LineAt3(t.a, t.b, t.c, p) == LineAt3(t0.a, t0.b, t0.c, p)
    ensures ReportedAt(t, p) <==> ReportedAt(t0, p)
  {
    assert Untouched(t0, t, p);
    if p.In? { assert SamePlace(t0, t, p.dir); }
  }

  /** Every handled line has agreement, or was half updated, or was left as it is with an excuse. */
  ghost predicate Handled(t: Trio, g: Setting, ps: seq<Path>, i: nat, half: set<Path>, left: set<Path>)
    requires i <= |ps|
  {
    && (forall q :: q in half ==> q in ps[..i] && t.WeightAt(q) == 1 && !IsDirOpt(Look(t.a, q)) && HalfDone(t, g.s, q))
    && (forall q :: q in left ==> q in ps[..i] && Excused(t, g, q))
    && (forall q :: q in ps[..i] && q !in half && q !in left ==> t.WeightAt(q) == 0)
  }

  lemma HandledStep(t: Trio, t': Trio, g: Setting, ps: seq<Path>, i: nat, half: set<Path>, left: set<Path>, f: Flags,
                    f': Flags, h: bool, l: bool)
    requires i < |ps| && Handled(t, g, ps, i, half, left) && Stepped(t, t', g.s, ps[i], f, f', h, l) && !f'.redo
    requires ps[i] !in ps[..i]
    requires l ==> Excused(t, g, ps[i])
    ensures Handled(t', g, ps, i + 1, if h then half + {ps[i]} else half, if l then left + {ps[i]} else left)
  {
    hide Local3, Excused, HalfDone, Trio.WeightAt;
    var p := ps[i];
    assert ps[..i + 1] == ps[..i] + [p];
    forall q | q != p
      ensures t'.WeightAt(q) == t.WeightAt(q) && Look(t'.a, q) == Look(t.a, q)
      ensures (Excused(t', g, q) <==> Excused(t, g, q)) && (HalfDone(t', g.s, q) <==> HalfDone(t, g.s, q))
    {
      SameLine(t, t', g, p, q);
    }
  }

  lemma SameLine(t: Trio, t': Trio, g: Setting, p: Path, q: Path)
    requires Quiet3(t, t', p) && q != p
    ensures t'.WeightAt(q) == t.WeightAt(q) && Look(t'.a, q) == Look(t.a, q)
    ensures (Excused(t', g, q) <==> Excused(t, g, q)) && (HalfDone(t', g.s, q) <==> HalfDone(t, g.s, q))
  {
    hide SameOpt, Helpless, Asked;
    assert Look(t'.b, q) == Look(t.b, q) && Look(t'.c, q) == Look(t.c, q);
  }

  /**
   * Exactly the paths of `half` differ; there both metadata files are what the source is, and the backup has its
   * content.
   */
  ghost predicate OnlyHalf(t: Trio, s: Catalog, half: set<Path>) {
    && (forall p :: t.WeightAt(p) == 0 <==> p !in half)
    && (forall p :: p in half ==> HalfDone(t, s, p))
  }

  /** Everything that is still reported is half updated or has an excuse. */
  ghost predicate AllExcused(t: Trio, g: Setting, half: set<Path>) {
    && (forall p :: ReportedAt(t, p) ==> p in half || Excused(t, g, p))
    && (forall p :: p in half ==> HalfDone(t, g.s, p))
  }

  /** After a pass, what is left has an excuse; if nothing was left, exactly the half updated entries differ. */
  lemma PassAgrees(t0: Trio, t: Trio, g: Setting, ps: seq<Path>, half: set<Path>, left: set<Path>)
    requires Formed(t) && InPass(t0, t, ps, |ps|) && Handled(t, g, ps, |ps|, half, left) && half !! left
    requires IsDiff3(ps, t0.a, t0.b, t0.c, ALL)
    ensures AllExcused(t, g, half)
    ensures left == {} <==> OnlyHalf(t, g.s, half)
  {
    hide Formed, InPass, TopDown, Excused, Trio.WeightAt, Reported3, HalfDone;
    assert ps[..|ps|] == ps;
    forall q | ReportedAt(t, q) ensures q in half || q in left {
      if q !in ps { InPassSame(t0, t, ps, |ps|, q); }
      ReportedPath(t, q);
    }
    if left == {} {
      forall p | t.WeightAt(p) != 0 ensures p in half {
        DifferAbove(t, p);
        var q := ReportedAbove3(t.a, t.b, t.c, ALL, p);
        assert ReportedAt(t, q) && q in half;
        ReportedPath(t, q);
        if q != p { NoneBelow3(t, q, p); }
      }
    } else {
      var q :| q in left;
      ExcusedHeavy(t, g, q);
    }
  }

  lemma ExcusedHeavy(t: Trio, g: Setting, p: Path)
    requires Excused(t, g, p)
    ensures t.WeightAt(p) > 0
  {
    hide SameOpt, Helpless, Asked;
  }

  lemma DifferAbove(t: Trio, p: Path)
    requires Formed(t) && t.WeightAt(p) != 0
    ensures WellFormed(t.a) && WellFormed(t.b) && WellFormed(t.c)
    ensures Differ3(Look(t.a, p), Look(t.b, p), Look(t.c, p), ALL)
  {
    SameIsCompare(Look(t.a, p), Look(t.b, p));
    SameIsCompare(Look(t.b, p), Look(t.c, p));
  }

  lemma NoneBelow3(t: Trio, q: Path, p: Path)
    requires Formed(t) && t.WeightAt(q) == 1 && !IsDirOpt(Look(t.a, q)) && Under(p, q) && p != q && q.In?
    ensures t.WeightAt(p) == 0
  {
    if p in t.a { Ancestor(t.a, p, q); }
    if p in t.b { Ancestor(t.b, p, q); }
    if p in t.c { Ancestor(t.c, p, q); }
  }

  /** The path that the entries of a line have. */
  function PathOf(d: Line3): Path {
    if d.a.Some? then d.a.value.rp else if d.b.Some? then d.b.value.rp else if d.c.Some? then d.c.value.rp else Top
  }

  ghost predicate DirVoteAt(t: Trio, p: Path) {
    DirVote(Look(t.a, p), Look(t.b, p), Look(t.c, p))
  }

  ghost predicate NoDirVote(t: Trio) {
    forall p :: ReportedAt(t, p) ==> !DirVoteAt(t, p)
  }

  /** No metadata file stands alone against the two others. */
  ghost predicate Undecided(t: Trio, p: Path) {
    !Against1(Look(t.a, p), Look(t.b, p), Look(t.c, p)) && !Against2(Look(t.a, p), Look(t.b, p), Look(t.c, p))
  }

  /** The lines that were left are the undecided ones. */
  ghost predicate LeftUndecided(t0: Trio, ps: seq<Path>, i: nat, left: set<Path>)
    requires i <= |ps|
  {
    forall q :: q in left <==> q in ps[..i] && Undecided(t0, q)
  }

  ghost predicate HasUndecided(t0: Trio) {
    exists p :: ReportedAt(t0, p) && Undecided(t0, p)
  }

  lemma LeftStep(t0: Trio, ps: seq<Path>, i: nat, left: set<Path>, l: bool)
    requires i < |ps| && LeftUndecided(t0, ps, i, left) && (l <==> Undecided(t0, ps[i])) && ps[i] !in ps[..i]
    ensures LeftUndecided(t0, ps, i + 1, if l then left + {ps[i]} else left)
  {
    hide Undecided;
    assert ps[..i + 1] == ps[..i] + [ps[i]];
  }

  lemma LeftAll(t0: Trio, ps: seq<Path>, left: set<Path>)
    requires LeftUndecided(t0, ps, |ps|, left) && IsDiff3(ps, t0.a, t0.b, t0.c, ALL)
    ensures left != {} <==> HasUndecided(t0)
  {
    hide Undecided, TopDown, Reported3;
    assert ps[..|ps|] == ps;
    if left != {} {
      var q :| q in left;
      assert ReportedAt(t0, q) && Undecided(t0, q);
    }
    if p :| ReportedAt(t0, p) && Undecided(t0, p) {
      assert p in left;
    }
  }

  /** The first `i` lines have been decided by the vote alone. */
  ghost predicate Polled(t0: Trio, t: Trio, ps: seq<Path>, i: nat)
    requires i <= |ps|
  {
    forall q :: if q in ps[..i] then VotedAt(t0, t, q)
        else Look(t.b, q) == Look(t0.b, q) && Look(t.c, q) == Look(t0.c, q)
  }

  lemma PolledStep(t0: Trio, t: Trio, t': Trio, ps: seq<Path>, i: nat)
    requires i < |ps| && InPass(t0, t, ps, i) && Polled(t0, t, ps, i) && ps[i] !in ps[..i]
    requires Quiet3(t, t', ps[i]) && VotedAt(t, t', ps[i])
    ensures Polled(t0, t', ps, i + 1)
  {
    hide Against1, Against2, SamePlace;
    assert ps[..i + 1] == ps[..i] + [ps[i]];
    assert Untouched(t0, t, ps[i]);
  }

  // ---------- links that the index does not have ----------

  /** Wherever a metadata file does not have `p`, it does not have the directory of `p`. */
  ghost predicate Anchored(t: Trio, p: Path) {
    p.In? && (p !in t.b ==> !IsDir(t.b, p.dir)) && (p !in t.c ==> !IsDir(t.c, p.dir))
  }

  ghost predicate Gone(t: Trio, p: Path) {
    p !in t.b && p !in t.c
  }

  /** Links without an index entry are anchored, unless they have been handled and are gone from both metadata files. */
  ghost predicate Anchors(t: Trio, un: set<Path>, ps: seq<Path>) {
    forall p :: p in un ==> Anchored(t, p) || (Gone(t, p) && p in ps)
  }

  lemma DroppedGone(t: Trio, p: Path)
    requires p !in t.b || p !in t.c
    ensures Gone(Dropped(t, p), p)
  {
    LookCut(t.b, p, p);
    LookCut(t.c, p, p);
  }

  /** A step that does not upset the list keeps the anchors. */
  lemma AnchorQuiet(t: Trio, t': Trio, g: Setting, hidden: set<Path>, un: set<Path>, un': set<Path>, p: Path, f: Flags,
                    f': Flags, h: bool, l: bool, v: Option<bool>, ps: seq<Path>)
    requires Handles(t, t', g, hidden, un, un', p, f, f', h, l, v) && !f'.redo && Anchors(t, un, ps)
    requires p in un ==> p in hidden
    ensures Anchors(t', un', ps + [p])
  {
    hide Kept, Local3, Trio.WeightAt, Excused, RepairOf, WellFormed, Corrected, Quiet, Visible, IsDir, HalfUpdate,
         Resolved, Dropped, Helpless, Reported3, Anchored, Gone;
    forall q | q in un' ensures Anchored(t', q) || (Gone(t', q) && q in ps + [p]) {
      if q != p {
        AnchorApart(t, t', p, q);
      } else if p in un {
        if !l { DroppedGone(t, p); }
      } else {
        AnchorNew(t, t', p);
      }
    }
  }

  lemma AnchorApart(t: Trio, t': Trio, p: Path, q: Path)
    requires Quiet(t.b, t'.b, p) && Quiet(t.c, t'.c, p) && q != p
    ensures (Anchored(t', q) <==> Anchored(t, q)) && (Gone(t', q) <==> Gone(t, q))
  {
    hide Quiet, IsDir;
    QuietAt(t.b, t'.b, p, q);
    QuietAt(t.c, t'.c, p, q);
    if q.In? {
      QuietAt(t.b, t'.b, p, q.dir);
      QuietAt(t.c, t'.c, p, q.dir);
    }
  }

  lemma AnchorNew(t: Trio, t': Trio, p: Path)
    requires Outvoted(t, p) && Relinks(Look(t.a, p), Look(t.b, p)) && t'.b == t.b && t'.c == t.c && p.In?
    ensures Anchored(t', p)
  {
  }

  /** After a step that upsets the list, a link that has lost its anchor is gone from both metadata files. */
  lemma AnchorRedo(t: Trio, t': Trio, g: Setting, hidden: set<Path>, un: set<Path>, un': set<Path>, p: Path, f: Flags,
                   f': Flags, h: bool, l: bool, v: Option<bool>, ps: seq<Path>)
    requires Handles(t, t', g, hidden, un, un', p, f, f', h, l, v) && f'.redo && Anchors(t, un, ps) && WellFormed(g.s)
    requires Formed(t)
    requires forall q :: q in un ==> q in t.a && q in t'.a && t.a[q].ty.Symlink?
    requires hidden <= un && (p in un ==> p in hidden) && forall q :: q in ps ==> !Under(q, p)
    ensures forall q :: q in un' ==> Anchored(t', q) || Gone(t', q)
  {
    hide Kept, Stepped, Excused, RepairOf, WellFormed, Corrected, Visible, IsDir, HalfUpdate, Resolved, Dropped,
         Helpless, Reported3, Anchored, Gone;
    forall q | q in un' ensures Anchored(t', q) || Gone(t', q) {
      if l {
      } else if !Under(q, p) {
        AnchorBeside(t, g, Event(p, p !in hidden, false, v), q);
      } else if p in hidden {
        if q != p { NoneUnder(t.a, p, q); }
        DroppedGone(t, p);
      } else {
        AnchorUnder(t, g, p, v, q);
      }
    }
  }

  lemma AnchorBeside(t: Trio, g: Setting, e: Event, q: Path)
    requires Legal(t, g, e) && !Under(q, e.p)
    ensures (Anchored(Step(t, g, e), q) <==> Anchored(t, q)) && (Gone(Step(t, g, e), q) <==> Gone(t, q))
  {
    hide WellFormed, Helpless, Reported3, Corrected, Cut, RepairOf, SameOpt, Legal;
    StepBeside(t, g, e, q);
    if q.In? { StepBeside(t, g, e, q.dir); }
    assert forall m: Catalog, r: Path :: IsDir(m, r) <==> r == Top || IsDirOpt(Look(m, r));
  }

  lemma AnchorUnder(t: Trio, g: Setting, p: Path, v: Option<bool>, q: Path)
    requires Legal(t, g, Event(p, true, false, v)) && Under(q, p) && q != p && q in t.a && q in Resolved(t, g, p).a
    requires Anchored(t, q)
    ensures Anchored(Resolved(t, g, p), q) || Gone(Resolved(t, g, p), q)
  {
    hide WellFormed, Helpless, Reported3, Corrected, Cut, RepairOf, SameOpt;
    LookCorrected(t.b, t.a, p, q);
    LookCorrected(t.c, t.a, p, q);
    if Mends(t, Event(p, true, false, v)) { AnchorMend(t, g.s, p, q); }
  }

  lemma AnchorMend(t: Trio, s: Catalog, p: Path, q: Path)
    requires Formed(t) && Outvoted(t, p) && Under(q, p) && q != p && p.In? && q in t.a && q in RepairOf(t, s, p).a
    requires Anchored(t, q)
    ensures Anchored(RepairOf(t, s, p), q) || Gone(RepairOf(t, s, p), q)
  {
    hide WellFormed, Cut, Replaced, Merge, Subtree, SameContent;
    LookCut(t.a, p, q);
    LookReplaced(t.b, s, p, q);
    LookReplaced(t.c, s, p, q);
    if p !in t.a { NoneUnder(t.a, p, q); }
  }

  // ---------- the loop ----------

  /**
   * The lines of the first `i` paths have been handled since the look at `v0`; `v` is what would be seen now of the
   * same entries.
   */
  ghost predicate Progress(v0: Trio, v: Trio, g: Setting, ps: seq<Path>, i: nat, half: set<Path>, left: set<Path>,
                           f0: Flags, f: Flags) {
    && i <= |ps| && InPass(v0, v, ps, i) && Handled(v, g, ps, i, half, left) && Marked(v0, v, f0, f)
    && (f.Bad() <==> f0.Bad() || left != {})
    && (f0.unrecoverable ==> f.unrecoverable) && (f0.maybeRecoverable ==> f.maybeRecoverable)
    && half !! left && HalfUpTo(v0, g, ps, i, half)
  }

  /** Exactly those of the first `i` lines that called for it were left half updated. */
  ghost predicate HalfUpTo(v0: Trio, g: Setting, ps: seq<Path>, i: nat, half: set<Path>)
    requires i <= |ps|
  {
    forall p :: p in half <==> p in ps[..i] && DueHalf(v0, g, p)
  }

  lemma HalfMore(v0: Trio, v: Trio, g: Setting, ps: seq<Path>, i: nat, half: set<Path>, h: bool)
    requires i < |ps| && HalfUpTo(v0, g, ps, i, half) && InPass(v0, v, ps, i) && ps[i] !in ps[..i]
    requires h <==> DueHalf(v, g, ps[i])
    ensures HalfUpTo(v0, g, ps, i + 1, if h then half + {ps[i]} else half) && ps[i] !in half
  {
    hide HalfUpdate, SamePlace;
    assert ps[..i + 1] == ps[..i] + [ps[i]];
    assert Untouched(v0, v, ps[i]);
  }

  lemma ProgressStep(v0: Trio, v: Trio, v': Trio, g: Setting, ps: seq<Path>, i: nat, half: set<Path>, left: set<Path>,
                     f0: Flags, f: Flags, f': Flags, h: bool, l: bool)
    requires Progress(v0, v, g, ps, i, half, left, f0, f) && i < |ps| && ps[i] !in ps[..i]
    requires Stepped(v, v', g.s, ps[i], f, f', h, l) && !f'.redo && (l ==> Excused(v, g, ps[i]) && !h)
    requires h <==> DueHalf(v, g, ps[i])
    ensures Progress(v0, v', g, ps, i + 1, if h then half + {ps[i]} else half, if l then left + {ps[i]} else left,
                     f0, f')
  {
    hide InPass, Local3, Trio.WeightAt, Excused, HalfDone, HalfUpTo, DueHalf;
    HandledStep(v, v', g, ps, i, half, left, f, f', h, l);
    HalfMore(v0, v, g, ps, i, half, h);
    InPassStep(v0, v, v', ps, i);
  }

  /** Hidden links whose lines were handled and not left have been missing in one of the metadata files. */
  ghost predicate DropsOnly(v0: Trio, hidden: set<Path>, ps: seq<Path>, left: set<Path>) {
    forall q :: q in ps && q in hidden ==> q in left || q !in v0.b || q !in v0.c
  }

  /** The lines of the first `i` paths have been handled since the events `log0`, one event each. */
  ghost predicate Recorded(log0: seq<Event>, log: seq<Event>, ps: seq<Path>, i: nat, left: set<Path>) {
    && log0 <= log && |log| == |log0| + i && i <= |ps|
    && (forall j :: 0 <= j < i ==> log[|log0| + j].p == ps[j])
    && (left != {} <==> SomeLeft(log[|log0|..]))
  }

  lemma RecordedStep(log0: seq<Event>, log: seq<Event>, ps: seq<Path>, i: nat, left: set<Path>, e: Event)
    requires Recorded(log0, log, ps, i, left) && i < |ps| && e.p == ps[i]
    ensures Recorded(log0, log + [e], ps, i + 1, if e.left then left + {e.p} else left)
  {
    assert (log + [e])[|log0|..] == log[|log0|..] + [e];
    SomeLeftMore(log[|log0|..], [e]);
    assert e in [e];
  }

  /** The events of the lines of one look. */
  ghost predicate Heard(v0: Trio, log: seq<Event>, from: nat) {
    forall p :: ReportedAt(v0, p) <==> exists j :: from <= j < |log| && log[j].p == p
  }

  lemma RecordedTurn(log0: seq<Event>, log: seq<Event>, ps: seq<Path>, i: nat, left: set<Path>)
    requires Recorded(log0, log, ps, i, left) && TopDown(ps)
    ensures OneTurn(log, |log0|, |log|)
  {
    forall k, l | |log0| <= k < l < |log| ensures !Under(log[k].p, log[l].p) {
      assert log[|log0| + (k - |log0|)].p == ps[k - |log0|] && log[|log0| + (l - |log0|)].p == ps[l - |log0|];
    }
  }

  lemma RecordedAll(v0: Trio, log0: seq<Event>, log: seq<Event>, ps: seq<Path>, left: set<Path>)
    requires Recorded(log0, log, ps, |ps|, left) && IsDiff3(ps, v0.a, v0.b, v0.c, ALL)
    ensures Heard(v0, log, |log0|)
  {
    hide TopDown, Reported3;
    forall p ensures p in ps <==> exists j :: |log0| <= j < |log| && log[j].p == p {
      if p in ps {
        var k :| 0 <= k < |ps| && ps[k] == p;
        assert log[|log0| + k].p == p;
      }
      if j :| |log0| <= j < |log| && log[j].p == p { assert log[|log0| + (j - |log0|)].p == ps[j - |log0|]; }
    }
  }

  /** The flags tell whether a line was left, and which metadata files were written to. */
  ghost predicate Noted(t0: Trio, g: Setting, log: seq<Event>, f: Flags) {
    && (f.Bad() <==> SomeLeft(log)) && (f.updateMeta1 <==> Wrote1(t0, g, log))
    && (f.updateMeta2 <==> Wrote2(t0, g, log))
  }

  lemma NotedMore(t0: Trio, t: Trio, t': Trio, g: Setting, hidden: set<Path>, un: set<Path>, un': set<Path>, p: Path,
                  f: Flags, f': Flags, h: bool, l: bool, v: Option<bool>, log: seq<Event>)
    requires Noted(t0, g, log, f) && History(t0, g, log, t)
    requires Handles(t, t', g, hidden, un, un', p, f, f', h, l, v)
    ensures Noted(t0, g, log + [Event(p, p !in hidden, l, v)], f')
  {
    hide Kept, Legal, Step, Mends, Relinks, DueHalf, HalfDone, Trio.WeightAt, Local3, Quiet3, Excused, Marked, Writes1,
         Writes2, Upsets, Lawful, After, Wrote1, Wrote2;
    var e := Event(p, p !in hidden, l, v);
    HistoryMore(t0, g, log, t, e);
    SomeLeftMore(log, [e]);
    assert e in [e];
  }

  /** What has happened since the start of the scrub. */
  ghost predicate Chronicle(t0: Trio, g: Setting, log: seq<Event>, t: Trio, un: set<Path>, half: set<Path>) {
    && History(t0, g, log, t) && Remade(t0, g, log, un)
    && (forall p :: p in half ==> g.fixup && g.present && HalfUpdate(Look(g.s, p), Look(t0.a, p), Look(t0.b, p)))
  }

  lemma ChronicleStep(t0: Trio, t: Trio, t': Trio, g: Setting, hidden: set<Path>, un: set<Path>, un': set<Path>,
                      p: Path, f: Flags, f': Flags, h: bool, l: bool, v: Option<bool>, log: seq<Event>, half: set<Path>)
    requires Chronicle(t0, g, log, t, un, half) && Handles(t, t', g, hidden, un, un', p, f, f', h, l, v)
    requires WellFormed(g.s)
    ensures Chronicle(t0, g, log + [Event(p, p !in hidden, l, v)], t', un', if h then half + {p} else half)
  {
    hide Kept, Stepped, Excused, Step, HalfUpdate, Relinks, Legal, Mends, Lawful, MadeAgain, After, DueHalf;
    var e := Event(p, p !in hidden, l, v);
    HistoryMore(t0, g, log, t, e);
    forall q | q in un' ensures MadeAgain(t0, g, log + [e], q) { MadeMore(t0, g, log, t, e, q); }
    if h {
      DueNow(t, g, hidden, p);
      HalfFromStart(t0, g, log, t, p);
    }
  }

  lemma DueNow(t: Trio, g: Setting, hidden: set<Path>, p: Path)
    requires DueHalf(Hiding(t, hidden), g, p)
    ensures g.fixup && g.present && HalfUpdate(Look(g.s, p), Look(t.a, p), Look(t.b, p))
  {
    LookVisible(t.a, hidden, p);
  }

  lemma MadeMore(t0: Trio, g: Setting, log: seq<Event>, t: Trio, e: Event, q: Path)
    requires History(t0, g, log, t)
    requires MadeAgain(t0, g, log, q) || (e.p == q && Mends(t, e) && Relinks(Look(t.a, q), Look(t.b, q)))
    ensures MadeAgain(t0, g, log + [e], q)
  {
    hide Mends, Relinks;
    assert (log + [e])[..|log|] == log;
  }

  /** The distance that a scrub has before it: what is seen has to agree. */
  lemma Closer(u: set<Path>, t: Trio, t': Trio, g: Setting, hidden: set<Path>, un: set<Path>, un': set<Path>, p: Path,
               f: Flags, f': Flags, h: bool, l: bool, v: Option<bool>)
    requires Handles(t, t', g, hidden, un, un', p, f, f', h, l, v) && Keys(t) <= u && g.s.Keys <= u && hidden <= un
    requires p in un ==> p in hidden
    requires Hiding(t, hidden).WeightAt(p) > 0
    ensures Keys(t') <= u && (AllHashed(g.s) && Hashed3(t) ==> Hashed3(t'))
    ensures Distance(u, Hiding(t', un')) <= Distance(u, Hiding(t, un))
    ensures f'.redo ==> Distance(u, Hiding(t', un')) < Distance(u, Hiding(t, un))
  {
    hide Distance, Excused, Step, HalfUpdate, Legal, Mends, Relinks, AllHashed, Local3, Local, Quiet, Visible, HalfDone,
         Trio.WeightAt;
    WeightInKeys(t, hidden, p);
    if un' != un {
      assert un' == un + {p};
      RelinkedWeights(t, t', hidden, un, p);
      SameDistance(u, Hiding(t, un), Hiding(t', un'));
    } else {
      NarrowView(t, t', hidden, un, p);
      WithinKeys(t, un, u);
      if Hiding(t', hidden) != Hiding(t, hidden) { RepairCloser(u, Hiding(t, un), Hiding(t', un), p); }
    }
  }

  lemma WeightInKeys(t: Trio, hidden: set<Path>, p: Path)
    requires Hiding(t, hidden).WeightAt(p) > 0
    ensures p in Keys(t)
  {
    LookVisible(t.a, hidden, p);
  }

  lemma WithinKeys(t: Trio, un: set<Path>, u: set<Path>)
    requires Keys(t) <= u
    ensures Hiding(t, un).Within(u)
  {
  }

  /** A step that is seen with some links hidden is seen with more links hidden, if they are not at its path. */
  lemma NarrowView(t: Trio, t': Trio, hidden: set<Path>, un: set<Path>, p: Path)
    requires Local3(Hiding(t, hidden), Hiding(t', hidden), p) && hidden <= un && (p in un ==> p in hidden)
    ensures Local3(Hiding(t, un), Hiding(t', un), p)
    ensures Hiding(t, un).WeightAt(p) == Hiding(t, hidden).WeightAt(p)
    ensures Hiding(t', un).WeightAt(p) == Hiding(t', hidden).WeightAt(p)
    ensures Hiding(t', hidden) == Hiding(t, hidden) ==> Hiding(t', un) == Hiding(t, un)
  {
    assert Visible(t.a, un) == Visible(Visible(t.a, hidden), un)
        && Visible(t'.a, un) == Visible(Visible(t'.a, hidden), un);
    UnseenLocal(Visible(t.a, hidden), Visible(t'.a, hidden), p, un);
  }

  /** A link that is made and not indexed is still not seen. */
  lemma RelinkedWeights(t: Trio, t': Trio, hidden: set<Path>, un: set<Path>, p: Path)
    requires Quiet(Visible(t.a, hidden), Visible(t'.a, hidden), p) && t'.b == t.b && t'.c == t.c && hidden <= un
    requires p !in un
    requires Relinks(Look(t.a, p), Look(t.b, p))
    ensures forall q :: Hiding(t', un + {p}).WeightAt(q) == Hiding(t, un).WeightAt(q)
  {
    hide Quiet, Visible;
    forall q ensures Hiding(t', un + {p}).WeightAt(q) == Hiding(t, un).WeightAt(q) {
      LookVisible(t.a, un, q);
      LookVisible(t'.a, un + {p}, q);
      LookVisible(t.a, hidden, q);
      LookVisible(t'.a, hidden, q);
      QuietAt(Visible(t.a, hidden), Visible(t'.a, hidden), p, q);
    }
  }

  /** The next line to be handled is still what is seen. */
  lemma PassLine(tm: TreeManager, d: Line3, ps: seq<Path>, v0: Trio, i: nat, hidden: set<Path>)
    requires tm.Sound() && i < |ps| && d == LineAt3(v0.a, v0.b, v0.c, ps[i]) && IsDiff3(ps, v0.a, v0.b, v0.c, ALL)
    requires InPass(v0, tm.View(hidden), ps, i) && hidden <= tm.dst.Unindexed() <= hidden + set q | q in ps[..i]
    ensures Current(tm, d, ps[i], hidden) && PathOf(d) == ps[i] && ps[i] !in ps[..i]
    ensures d == LineAt3(tm.View(hidden).a, tm.View(hidden).b, tm.View(hidden).c, ps[i])
    ensures tm.View(hidden).WeightAt(ps[i]) > 0
    ensures (ps[i] in tm.dst.Unindexed() ==> ps[i] in hidden) && forall q :: q in ps[..i] ==> !Under(q, ps[i])
    ensures TopDown(ps)
  {
    hide TreeManager.Fit, TreeManager.View, InPass, Formed, Reported3, WellFormed, Trio.WeightAt, PathOf, SaneLinks;
    var p := ps[i];
    forall q | q in ps[..i] ensures !Under(q, p) {
      var j :| 0 <= j < i && ps[j] == q;
    }
    assert Under(p, p);
    ViewFormed(tm, hidden);
    InPassSame(v0, tm.View(hidden), ps, i, p);
    assert p in ps && ReportedAt(v0, p);
    ReportedPath(tm.View(hidden), p);
    LinePath(tm.View(hidden), p);
  }

  lemma LinePath(t: Trio, p: Path)
    requires Formed(t) && t.WeightAt(p) > 0
    ensures PathOf(LineAt3(t.a, t.b, t.c, p)) == p
  {
  }

  /** A line falls through the vote. */
  ghost predicate AnySplit(t: Trio) {
    exists p :: HashSplit(Look(t.a, p), Look(t.b, p), Look(t.c, p))
  }

  lemma SplitLine(t: Trio, d: Line3, p: Path)
    requires HashSplit(d.a, d.b, d.c) && d == LineAt3(t.a, t.b, t.c, p)
    ensures AnySplit(t)
  {
    hide HashSplit;
    assert HashSplit(Look(t.a, p), Look(t.b, p), Look(t.c, p));
  }

  lemma SoundFormed(tm: TreeManager)
    requires tm.Sound()
    ensures Formed(tm.Now()) && WellFormed(tm.Source())
    ensures tm.src != tm.dst && tm.src != tm.meta1 && tm.src != tm.meta2
    ensures forall q :: q in tm.dst.Unindexed() ==> q in tm.Now().a && q.In? && tm.Now().a[q].ty.Symlink?
  {
    ViewFormed(tm, tm.dst.Unindexed());
  }

  /**
   * A pass that comes to its end with nothing left has started without hidden links: such a link would have to be
   * anchored in both metadata files, and its line cannot be handled then.
   */
  lemma NothingHidden(t0: Trio, v: Trio, g: Setting, hidden: set<Path>, ps: seq<Path>, half: set<Path>)
    requires Formed(t0) && Anchors(t0, hidden, []) && (forall p :: p in hidden ==> p in t0.a)
    requires InPass(Hiding(t0, hidden), v, ps, |ps|) && OnlyHalf(v, g.s, half)
    requires forall p :: p in hidden ==> p !in v.a
    requires IsDiff3(ps, Hiding(t0, hidden).a, t0.b, t0.c, ALL) && DropsOnly(Hiding(t0, hidden), hidden, ps, {})
    requires forall q :: IsDir(Hiding(t0, hidden).a, q) <==> IsDir(t0.a, q)
    ensures hidden == {}
  {
    hide TopDown, WellFormed, Visible, IsDir, Trio.WeightAt, HalfDone, Reported3;
    if hidden != {} {
      var p :| p in hidden;
      LookVisible(t0.a, hidden, p);
      InItsDir(t0.a, p);
      assert SamePlace(Hiding(t0, hidden), v, p.dir);
      AgreesBelow(v, g.s, half, p);
      assert p in t0.b && p in t0.c;
      MissingReported(Hiding(t0, hidden), p);
    }
  }

  /**
   * Where all agree, or the entry is half updated, the directories agree; below them an entry missing in the backup is
   * gone.
   */
  lemma AgreesBelow(v: Trio, s: Catalog, half: set<Path>, p: Path)
    requires OnlyHalf(v, s, half) && p !in v.a && p.In? && IsDir(v.a, p.dir)
    ensures IsDir(v.b, p.dir) && IsDir(v.c, p.dir)
  {
    assert v.WeightAt(p.dir) == 0 <==> p.dir !in half;
  }

  lemma MissingReported(t: Trio, p: Path)
    requires p.In? && IsDir(t.a, p.dir) && IsDir(t.b, p.dir) && IsDir(t.c, p.dir) && p !in t.a && p in t.b && p in t.c
    ensures ReportedAt(t, p)
  {
  }

  /**
   * What the loop over the lines knows when it comes to line `i`; `t0` and `hidden` are from the look that the lines
   * are from.
   */
  ghost predicate MidPass(tm: TreeManager, t0: Trio, hidden: set<Path>, ps: seq<Path>, i: nat, fixup: bool,
                          half: set<Path>, left: set<Path>, f0: Flags, f: Flags, start: Trio, log0: seq<Event>,
                          log: seq<Event>)
    reads tm.src, tm.dst, tm.meta1, tm.meta2, tm.dst.disk, tm.src.disk
  {
    && tm.Sound() && i <= |ps| && Recorded(log0, log, ps, i, left)
    && hidden <= tm.dst.Unindexed() <= hidden + (set q | q in ps[..i]) && !f.redo
    && Progress(Hiding(t0, hidden), tm.View(hidden), Of(tm, fixup), ps, i, half, left, f0, f)
    && Chronicle(start, Of(tm, fixup), log, tm.Now(), tm.dst.Unindexed(), half)
    && Noted(start, Of(tm, fixup), log, f) && Undisturbed(start, Of(tm, fixup), log, |log0|, |log|)
    && Anchors(tm.Now(), tm.dst.Unindexed(), ps[..i])
    && DropsOnly(Hiding(t0, hidden), hidden, ps[..i], left)
  }

  lemma MidPassStart(tm: TreeManager, ps: seq<Path>, fixup: bool, f: Flags, start: Trio, log: seq<Event>)
    requires tm.Sound() && !f.redo && Chronicle(start, Of(tm, fixup), log, tm.Now(), tm.dst.Unindexed(), {})
    requires Anchors(tm.Now(), tm.dst.Unindexed(), []) && Noted(start, Of(tm, fixup), log, f)
    ensures MidPass(tm, tm.Now(), tm.dst.Unindexed(), ps, 0, fixup, {}, {}, f, f, start, log, log)
    ensures Polled(tm.View(tm.dst.Unindexed()), tm.View(tm.dst.Unindexed()), ps, 0)
    ensures LeftUndecided(tm.View(tm.dst.Unindexed()), ps, 0, {})
  {
    hide TreeManager.Sound, Visible, Chronicle, TreeManager.Now, Anchored, Gone, HalfDone, Trio.WeightAt, Excused,
         IsDir, Noted, UpsetAt;
    assert ps[..0] == [];
  }

  lemma MidPassStep(tm: TreeManager, t0: Trio, t: Trio, hidden: set<Path>, un: set<Path>, ps: seq<Path>, i: nat,
                    fixup: bool, half: set<Path>, left: set<Path>, f0: Flags, f: Flags, f': Flags, start: Trio,
                    log0: seq<Event>, log: seq<Event>, h: bool, l: bool, v: Option<bool>)
    requires tm.Sound() && i < |ps| && hidden <= un <= hidden + (set q | q in ps[..i]) && !f'.redo && ps[i] !in ps[..i]
    requires Recorded(log0, log, ps, i, left)
    requires Progress(Hiding(t0, hidden), Hiding(t, hidden), Of(tm, fixup), ps, i, half, left, f0, f)
    requires Chronicle(start, Of(tm, fixup), log, t, un, half) && Anchors(t, un, ps[..i])
    requires Noted(start, Of(tm, fixup), log, f) && Undisturbed(start, Of(tm, fixup), log, |log0|, |log|)
    requires DropsOnly(Hiding(t0, hidden), hidden, ps[..i], left)
    requires Handles(t, tm.Now(), Of(tm, fixup), hidden, un, tm.dst.Unindexed(), ps[i], f, f', h, l, v)
    requires ps[i] in un ==> ps[i] in hidden
    ensures MidPass(tm, t0, hidden, ps, i + 1, fixup,
                    if h then half + {ps[i]} else half, if l then left + {ps[i]} else left, f0, f', start,
                    log0, log + [Event(ps[i], ps[i] !in hidden, l, v)])
  {
    hide TreeManager.Fit, TreeManager.Source, TreeManager.Now, Progress, Chronicle, Anchors, Stepped, Kept, Excused,
         Legal, Step, Visible, HalfUpdate, Relinks, Mends, DueHalf, Recorded, Noted, Undisturbed, Upsets, Writes1,
         Writes2;
    var g, p := Of(tm, fixup), ps[i];
    Recent(start, g, log, t, un, half);
    NotedMore(start, t, tm.Now(), g, hidden, un, tm.dst.Unindexed(), p, f, f', h, l, v, log);
    UndisturbedMore(start, g, log, t, Event(p, p !in hidden, l, v), |log0|);
    RecordedStep(log0, log, ps, i, left, Event(p, p !in hidden, l, v));
    assert ps[..i + 1] == ps[..i] + [p];
    SoundFormed(tm);
    ProgressStep(Hiding(t0, hidden), Hiding(t, hidden), tm.View(hidden), g, ps, i, half, left, f0, f, f', h, l);
    ChronicleStep(start, t, tm.Now(), g, hidden, un, tm.dst.Unindexed(), p, f, f', h, l, v, log, half);
    AnchorQuiet(t, tm.Now(), g, hidden, un, tm.dst.Unindexed(), p, f, f', h, l, v, ps[..i]);
    DropsMore(t0, t, hidden, ps, i, left, l, f0, f, g, half);
  }

  lemma Recent(t0: Trio, g: Setting, log: seq<Event>, t: Trio, un: set<Path>, half: set<Path>)
    requires Chronicle(t0, g, log, t, un, half)
    ensures History(t0, g, log, t)
  {
  }

  lemma DropsMore(t0: Trio, t: Trio, hidden: set<Path>, ps: seq<Path>, i: nat, left: set<Path>, l: bool, f0: Flags,
                  f: Flags, g: Setting, half: set<Path>)
    requires Progress(Hiding(t0, hidden), Hiding(t, hidden), g, ps, i, half, left, f0, f) && i < |ps|
    requires ps[i] !in ps[..i]
    requires DropsOnly(Hiding(t0, hidden), hidden, ps[..i], left)
    requires ps[i] in hidden ==> l || ps[i] !in t.b || ps[i] !in t.c
    ensures DropsOnly(Hiding(t0, hidden), hidden, ps[..i + 1], if l then left + {ps[i]} else left)
  {
    hide Handled, SamePlace, Visible;
    assert ps[..i + 1] == ps[..i] + [ps[i]];
    assert Untouched(Hiding(t0, hidden), Hiding(t, hidden), ps[i]);
  }

  /** With nothing hidden, what is seen is what there is. */
  lemma AllSeen(t: Trio)
    ensures Hiding(t, {}) == t
  {
    assert Visible(t.a, {}) == t.a;
  }

  /** What a pass has achieved that came to its end. */
  lemma PassEnds(tm: TreeManager, t0: Trio, hidden: set<Path>, ps: seq<Path>, fixup: bool, half: set<Path>,
                 left: set<Path>, f0: Flags, f: Flags, start: Trio, log0: seq<Event>, log: seq<Event>)
    requires MidPass(tm, t0, hidden, ps, |ps|, fixup, half, left, f0, f, start, log0, log) && Formed(t0)
    requires Anchors(t0, hidden, [])
    requires IsDiff3(ps, Hiding(t0, hidden).a, t0.b, t0.c, ALL)
    requires forall p :: p in hidden ==> p in t0.a && !t0.a[p].ty.Directory?
    ensures Ended(tm, t0, hidden, fixup, f0, f, start, log0, log, half) && (f.Bad() <==> f0.Bad() || left != {})
  {
    hide TreeManager.Fit, TreeManager.Source, TreeManager.Now, Chronicle, Anchors, WellFormed, Visible, InPass, Handled,
         AllExcused, OnlyHalf, TopDown, Reported3, IsDir, Heard, HalfExact, HalfUpTo, OneTurn, Noted, Undisturbed;
    ViewFormed(tm, hidden);
    assert ps[..|ps|] == ps;
    RecordedTurn(log0, log, ps, |ps|, left);
    RecordedAll(Hiding(t0, hidden), log0, log, ps, left);
    HalfAll(Hiding(t0, hidden), Of(tm, fixup), ps, half);
    PassAgrees(Hiding(t0, hidden), tm.View(hidden), Of(tm, fixup), ps, half, left);
    if !f.Bad() {
      VisibleFormed(t0.a, hidden);
      forall p | p in hidden ensures p !in tm.View(hidden).a { LookVisible(tm.Now().a, hidden, p); }
      NothingHidden(t0, tm.View(hidden), Of(tm, fixup), hidden, ps, half);
      AllSeen(tm.Now());
    }
  }

  lemma HalfAll(v0: Trio, g: Setting, ps: seq<Path>, half: set<Path>)
    requires HalfUpTo(v0, g, ps, |ps|, half) && IsDiff3(ps, v0.a, v0.b, v0.c, ALL)
    ensures HalfExact(v0, g, half)
  {
    hide DueHalf, TopDown, Reported3;
    assert ps[..|ps|] == ps;
  }

  /** One line of the loop. */
  method PassOne(tm: TreeManager, d: Line3, fixup: bool, f: Flags, half: set<Path>, ghost t0: Trio,
                 ghost hidden: set<Path>, ghost ps: seq<Path>, ghost i: nat, ghost left: set<Path>, ghost f0: Flags,
                 ghost u: set<Path>, ghost start: Trio, ghost log0: seq<Event>, ghost log: seq<Event>, user: User,
                 ghost n: nat)
      returns (ok: bool, f': Flags, half': set<Path>, ghost left': set<Path>, ghost log': seq<Event>, ghost jam: bool)
    requires MidPass(tm, t0, hidden, ps, i, fixup, half, left, f0, f, start, log0, log) && i < |ps|
    requires Keys(tm.Now()) <= u && tm.Source().Keys <= u
    requires d == LineAt3(Hiding(t0, hidden).a, t0.b, t0.c, ps[i]) && IsDiff3(ps, Hiding(t0, hidden).a, t0.b, t0.c, ALL)
    requires !fixup ==> Polled(Hiding(t0, hidden), tm.View(hidden), ps, i)
    requires !fixup ==> LeftUndecided(Hiding(t0, hidden), ps, i, left)
    requires Heeded(log, user.answers, n, user.asked)
    modifies tm.dst, tm.meta1, tm.meta2, tm.dst.disk, user
    ensures tm.dst.disk == old(tm.dst.disk) && (jam ==> !ok && fixup && hidden != {})
    ensures ok ==> Heeded(log', user.answers, n, user.asked)
    ensures !ok && !jam ==> tm.Sound() && AnySplit(tm.View(hidden)) && AnySplit(Hiding(t0, hidden))
    ensures ok ==> tm.Sound() && Keys(tm.Now()) <= u
    ensures ok ==> (AllHashed(tm.Source()) && Hashed3(old(tm.Now())) ==> Hashed3(tm.Now()))
    ensures ok && !f'.redo ==> MidPass(tm, t0, hidden, ps, i + 1, fixup, half', left', f0, f', start, log0, log')
    ensures ok && !f'.redo ==> Distance(u, tm.Sight()) <= old(Distance(u, tm.Sight()))
    ensures ok && f'.redo ==> half' == {} && Distance(u, tm.Sight()) < old(Distance(u, tm.Sight()))
    ensures ok && f'.redo ==> Upset(tm, t0, hidden, fixup, f0, f', start, log0, log')
    ensures !fixup ==> tm.Now().a == old(tm.Now().a)
    ensures !fixup ==> (tm.dst.disk != null ==> tm.dst.disk.files == old(tm.dst.disk.files))
    ensures ok && !fixup && f'.redo ==> DirVoteAt(Hiding(t0, hidden), ps[i])
    ensures ok && !fixup && !f'.redo ==> Polled(Hiding(t0, hidden), tm.View(hidden), ps, i + 1)
    ensures ok && !fixup && !f'.redo ==> LeftUndecided(Hiding(t0, hidden), ps, i + 1, left')
  {
    hide TreeManager.Sound, TreeManager.Now, TreeManager.Source, Handles, HashSplit, MidPass, Progress, Chronicle,
         Trio.WeightAt, Distance, Hashed3, AllHashed, IsDiff3, Keys, Polled, VotedAt, DirVote, Current, PathOf, Formed,
         LeftUndecided, AnySplit, Anchors, Visible, Upset, Against1, Against2, Heeded, Noted, Undisturbed;
    half', left', log' := half, left, log;
    MidPassNow(tm, t0, hidden, ps, i, fixup, half, left, f0, f, start, log0, log);
    SoundFormed(tm);
    PassLine(tm, d, ps, Hiding(t0, hidden), i, hidden);
    ghost var t, un := tm.Now(), tm.dst.Unindexed();
    var h;
    ghost var l, v;
    var p := PathOf(d);
    ghost var m := user.asked;
    ok, f', h, l, v, jam := ProcessLine(tm, d, p, fixup, f, user, hidden);
    if !ok {
      if !jam {
        SplitLine(Hiding(t0, hidden), d, p);
        SplitLine(Hiding(t, hidden), d, p);
      }
      return;
    }
    Closer(u, t, tm.Now(), Of(tm, fixup), hidden, un, tm.dst.Unindexed(), p, f, f', h, l, v);
    log' := log + [Event(p, p !in hidden, l, v)];
    HeededMore(log, Event(p, p !in hidden, l, v), user.answers, n, m);
    if f'.redo {
      PassBreaks(tm, t0, t, hidden, un, ps, i, fixup, half, left, f0, f, f', start, log0, log, h, l, v);
      half' := {};
      return;
    }
    MidPassStep(tm, t0, t, hidden, un, ps, i, fixup, half, left, f0, f, f', start, log0, log, h, l, v);
    if !fixup { PollMore(Hiding(t0, hidden), t, tm.Now(), Of(tm, fixup), hidden, un, tm.dst.Unindexed(), ps, i, left, f,
        f', h, l, v); }
    if h { half' := half + {p}; }
    if l { left' := left + {p}; }
  }

  /** The loop over the lines of one diff. */
  method Pass(tm: TreeManager, lines: seq<Line3>, fixup: bool, f: Flags, ghost ps: seq<Path>, ghost u: set<Path>,
              ghost start: Trio, ghost log0: seq<Event>, user: User, ghost n: nat)
      returns (ok: bool, f': Flags, half: set<Path>, ghost log: seq<Event>, ghost jam: bool)
    requires tm.Sound() && !f.redo && (!fixup ==> tm.dst.Unindexed() == {})
    requires lines == Lines3(tm.Sight().a, tm.Sight().b, tm.Sight().c, ps)
    requires IsDiff3(ps, tm.Sight().a, tm.Sight().b, tm.Sight().c, ALL)
    requires Keys(tm.Now()) <= u && tm.Source().Keys <= u
    requires Chronicle(start, Of(tm, fixup), log0, tm.Now(), tm.dst.Unindexed(), {})
    requires Anchors(tm.Now(), tm.dst.Unindexed(), []) && Noted(start, Of(tm, fixup), log0, f)
    requires Heeded(log0, user.answers, n, user.asked)
    modifies tm.dst, tm.meta1, tm.meta2, tm.dst.disk, user
    ensures tm.dst.disk == old(tm.dst.disk) && (ok ==> Heeded(log, user.answers, n, user.asked))
    ensures jam ==> !ok && fixup && old(tm.dst.Unindexed()) != {}
    ensures !ok && !jam ==> tm.Sound() && AnySplit(tm.View(old(tm.dst.Unindexed()))) && AnySplit(old(tm.Sight()))
    ensures ok ==> tm.Sound() && Keys(tm.Now()) <= u
    ensures ok ==> (AllHashed(tm.Source()) && Hashed3(old(tm.Now())) ==> Hashed3(tm.Now()))
    ensures ok && f'.redo ==> half == {} && Distance(u, tm.Sight()) < old(Distance(u, tm.Sight()))
    ensures ok && f'.redo ==> Upset(tm, old(tm.Now()), old(tm.dst.Unindexed()), fixup, f, f', start, log0, log)
    ensures ok && !f'.redo ==> Ended(tm, old(tm.Now()), old(tm.dst.Unindexed()), fixup, f, f', start, log0, log, half)
    ensures !fixup ==> tm.Now().a == old(tm.Now().a)
    ensures !fixup ==> (tm.dst.disk != null ==> tm.dst.disk.files == old(tm.dst.disk.files))
    ensures ok && !fixup && f'.redo ==> exists p :: p in ps && DirVoteAt(old(tm.Now()), p)
    ensures ok && !fixup && !f'.redo ==> Polled(old(tm.Now()), tm.Now(), ps, |ps|)
    ensures ok && !fixup && !f'.redo ==> (f'.Bad() <==> f.Bad() || HasUndecided(old(tm.Now())))
  {
    hide TreeManager.Sound, TreeManager.Now, TreeManager.Source, MidPass, Progress, Chronicle, Distance, Hashed3,
         AllHashed, Lines3, IsDiff3, Keys, Polled, Formed, HasUndecided, LeftUndecided, AnySplit, Anchors, Visible,
         Upset, Ended, DirVoteAt, Heeded, Noted;
    ghost var t0, hidden := tm.Now(), tm.dst.Unindexed();
    ghost var v0 := tm.Sight();
    ok, f', half, log, jam := true, f, {}, log0, false;
    SoundFormed(tm);
    ghost var left := {};
    MidPassStart(tm, ps, fixup, f, start, log);
    if !fixup { AllSeen(t0); }
    LinesCount(v0, lines, ps);
    for i := 0 to |lines|
      invariant tm.dst.disk == old(tm.dst.disk) && ok && !jam && Heeded(log, user.answers, n, user.asked)
      invariant MidPass(tm, t0, hidden, ps, i, fixup, half, left, f, f', start, log0, log)
      invariant Keys(tm.Now()) <= u && (AllHashed(tm.Source()) && Hashed3(t0) ==> Hashed3(tm.Now()))
      invariant Distance(u, tm.Sight()) <= Distance(u, v0)
      invariant !fixup ==> tm.Now().a == t0.a && (tm.dst.disk != null ==> tm.dst.disk.files == old(tm.dst.disk.files))
      invariant !fixup ==> Polled(v0, tm.View(hidden), ps, i) && LeftUndecided(v0, ps, i, left)
    {
      LineIs(v0, lines, ps, i);
      ok, f', half, left, log, jam := PassOne(tm, lines[i], fixup, f', half, t0, hidden, ps, i, left, f, u, start, log0,
                                                 log, user, n);
      if !ok { return; }
      if f'.redo {
        assert !fixup ==> ps[i] in ps && DirVoteAt(t0, ps[i]);
        return;
      }
    }
    MidPassNow(tm, t0, hidden, ps, |ps|, fixup, half, left, f, f', start, log0, log);
    PassEnds(tm, t0, hidden, ps, fixup, half, left, f, f', start, log0, log);
    if !fixup {
      AllSeen(tm.Now());
      LeftAll(v0, ps, left);
    }
  }

  /** The events `log` go on from `log0` with those of one list of lines. */
  ghost predicate TurnTaken(log0: seq<Event>, log: seq<Event>) {
    log0 <= log && OneTurn(log, |log0|, |log|)
  }

  /** Exactly the reported lines that called for it were left half updated. */
  ghost predicate HalfExact(v0: Trio, g: Setting, half: set<Path>) {
    forall p :: p in half <==> ReportedAt(v0, p) && DueHalf(v0, g, p)
  }

  /**
   * The events since `from` are those of the lines of the look at `v0`, and `v` is what is seen of the same entries
   * now: exactly the half updated entries differ just when no line was left.
   */
  ghost predicate LastTurn(v0: Trio, v: Trio, g: Setting, log: seq<Event>, from: nat, half: set<Path>)
    requires from <= |log|
  {
    && Heard(v0, log, from) && HalfExact(v0, g, half) && AllExcused(v, g, half)
    && (OnlyHalf(v, g.s, half) <==> !SomeLeft(log[from..]))
  }

  /** A line has upset the list of lines; `t0` and `hidden` are from the last look. */
  ghost predicate Upset(tm: TreeManager, t0: Trio, hidden: set<Path>, fixup: bool, f0: Flags, f: Flags, start: Trio,
                        log0: seq<Event>, log: seq<Event>)
    reads tm.src, tm.dst, tm.meta1, tm.meta2
  {
    && TurnTaken(log0, log) && |log| > |log0| && Noted(start, Of(tm, fixup), log, f)
    && Undisturbed(start, Of(tm, fixup), log, |log0|, |log| - 1) && UpsetAt(start, Of(tm, fixup), log, |log| - 1)
    && Chronicle(start, Of(tm, fixup), log, tm.Now(), tm.dst.Unindexed(), {})
    && Marked(t0, tm.Now(), f0, f) && (f0.unrecoverable ==> f.unrecoverable)
    && (f0.maybeRecoverable ==> f.maybeRecoverable)
    && (forall p :: p in tm.dst.Unindexed() ==> Anchored(tm.Now(), p) || Gone(tm.Now(), p))
  }

  /**
   * The pass has come to its end. If nothing was left, there were no hidden links, and exactly the half updated entries
   * differ.
   */
  ghost predicate Ended(tm: TreeManager, t0: Trio, hidden: set<Path>, fixup: bool, f0: Flags, f: Flags, start: Trio,
                        log0: seq<Event>, log: seq<Event>, half: set<Path>)
    reads tm.src, tm.dst, tm.meta1, tm.meta2
  {
    && TurnTaken(log0, log) && Noted(start, Of(tm, fixup), log, f)
    && Undisturbed(start, Of(tm, fixup), log, |log0|, |log|)
    && Chronicle(start, Of(tm, fixup), log, tm.Now(), tm.dst.Unindexed(), half) && hidden <= tm.dst.Unindexed()
    && Marked(t0, tm.Now(), f0, f) && (f0.unrecoverable ==> f.unrecoverable)
    && (f0.maybeRecoverable ==> f.maybeRecoverable)
    && LastTurn(Hiding(t0, hidden), tm.View(hidden), Of(tm, fixup), log, |log0|, half)
    && (!f.Bad() ==> hidden == {} && OnlyHalf(tm.Now(), tm.Source(), half))
  }

  lemma LineIs(t: Trio, lines: seq<Line3>, ps: seq<Path>, i: nat)
    requires lines == Lines3(t.a, t.b, t.c, ps) && i < |lines|
    ensures |lines| == |ps| && lines[i] == LineAt3(t.a, t.b, t.c, ps[i])
  {
  }

  lemma PollMore(v0: Trio, t: Trio, t': Trio, g: Setting, hidden: set<Path>, un: set<Path>, un': set<Path>,
                 ps: seq<Path>, i: nat, left: set<Path>, f: Flags, f': Flags, h: bool, l: bool, v: Option<bool>)
    requires i < |ps| && InPass(v0, Hiding(t, hidden), ps, i) && Polled(v0, Hiding(t, hidden), ps, i)
    requires ps[i] !in ps[..i]
    requires Handles(t, t', g, hidden, un, un', ps[i], f, f', h, l, v) && !f'.redo
    requires VotedAt(Hiding(t, hidden), Hiding(t', hidden), ps[i])
    requires LeftUndecided(v0, ps, i, left) && (l <==> Undecided(v0, ps[i]))
    ensures Polled(v0, Hiding(t', hidden), ps, i + 1)
    ensures LeftUndecided(v0, ps, i + 1, if l then left + {ps[i]} else left)
  {
    hide InPass, Polled, LeftUndecided, Undecided, VotedAt, Visible, Kept, Excused, Legal, Step, Mends, Relinks,
         HalfUpdate, Quiet3, Trio.WeightAt, Marked, HalfDone, Local3;
    PolledStep(v0, Hiding(t, hidden), Hiding(t', hidden), ps, i);
    LeftStep(v0, ps, i, left, l);
  }

  /** What is known when a line has upset the list of lines. */
  lemma PassBreaks(tm: TreeManager, t0: Trio, t: Trio, hidden: set<Path>, un: set<Path>, ps: seq<Path>, i: nat,
                   fixup: bool, half: set<Path>, left: set<Path>, f0: Flags, f: Flags, f': Flags, start: Trio,
                   log0: seq<Event>, log: seq<Event>, h: bool, l: bool, v: Option<bool>)
    requires tm.Sound() && i < |ps| && hidden <= un && f'.redo && (ps[i] in un ==> ps[i] in hidden)
    requires Recorded(log0, log, ps, i, left) && TopDown(ps)
    requires forall q :: q in ps[..i] ==> !Under(q, ps[i])
    requires Progress(Hiding(t0, hidden), Hiding(t, hidden), Of(tm, fixup), ps, i, half, left, f0, f)
    requires Chronicle(start, Of(tm, fixup), log, t, un, half) && Anchors(t, un, ps[..i]) && Formed(t)
    requires Noted(start, Of(tm, fixup), log, f) && Undisturbed(start, Of(tm, fixup), log, |log0|, |log|)
    requires Handles(t, tm.Now(), Of(tm, fixup), hidden, un, tm.dst.Unindexed(), ps[i], f, f', h, l, v)
    requires forall q :: q in un ==> q in t.a && t.a[q].ty.Symlink?
    ensures Upset(tm, t0, hidden, fixup, f0, f', start, log0, log + [Event(ps[i], ps[i] !in hidden, l, v)])
  {
    hide TreeManager.Fit, TreeManager.Source, TreeManager.Now, History, Anchors, Anchored, Gone, Kept, Excused, Legal,
         Step, Visible, HalfUpdate, Relinks, Mends, InPass, Handled, Formed, WellFormed, Aside, Local3, Trio.WeightAt,
         Quiet3, HalfDone, Remade, DueHalf, HalfUpTo, TopDown, OneTurn, Noted, Undisturbed, UpsetAt, Upsets, Writes1,
         Writes2;
    SoundFormed(tm);
    Recent(start, Of(tm, fixup), log, t, un, half);
    NotedMore(start, t, tm.Now(), Of(tm, fixup), hidden, un, tm.dst.Unindexed(), ps[i], f, f', h, l, v, log);
    UndisturbedMore(start, Of(tm, fixup), log, t, Event(ps[i], ps[i] !in hidden, l, v), |log0|);
    RecordedStep(log0, log, ps, i, left, Event(ps[i], ps[i] !in hidden, l, v));
    RecordedTurn(log0, log + [Event(ps[i], ps[i] !in hidden, l, v)], ps, i + 1, left);
    ChronicleStep(start, t, tm.Now(), Of(tm, fixup), hidden, un, tm.dst.Unindexed(), ps[i], f, f', h, l, v, log, half);
    AnchorRedo(t, tm.Now(), Of(tm, fixup), hidden, un, tm.dst.Unindexed(), ps[i], f, f', h, l, v, ps[..i]);
  }

  lemma LinesCount(t: Trio, lines: seq<Line3>, ps: seq<Path>)
    requires lines == Lines3(t.a, t.b, t.c, ps)
    ensures |lines| == |ps|
  {
  }

  lemma MidPassNow(tm: TreeManager, t0: Trio, hidden: set<Path>, ps: seq<Path>, i: nat, fixup: bool, half: set<Path>,
                   left: set<Path>, f0: Flags, f: Flags, start: Trio, log0: seq<Event>, log: seq<Event>)
    requires MidPass(tm, t0, hidden, ps, i, fixup, half, left, f0, f, start, log0, log)
    ensures Recorded(log0, log, ps, i, left) && Noted(start, Of(tm, fixup), log, f)
    ensures Undisturbed(start, Of(tm, fixup), log, |log0|, |log|)
    ensures tm.Sound() && i <= |ps| && hidden <= tm.dst.Unindexed() <= hidden + (set q | q in ps[..i]) && !f.redo
    ensures Progress(Hiding(t0, hidden), tm.View(hidden), Of(tm, fixup), ps, i, half, left, f0, f)
    ensures InPass(Hiding(t0, hidden), tm.View(hidden), ps, i)
    ensures Chronicle(start, Of(tm, fixup), log, tm.Now(), tm.dst.Unindexed(), half)
    ensures Anchors(tm.Now(), tm.dst.Unindexed(), ps[..i])
    ensures DropsOnly(Hiding(t0, hidden), hidden, ps[..i], left)
  {
  }

  // ---------- the whole scrub ----------

  /** The return value; `Aborted` is an exception or a failed assertion. */
  datatype Outcome = Code(n: nat) | Aborted

  /** Agreement of fully hashed catalogs is equality. */
  lemma HashedAgree(t: Trio)
    requires Hashed3(t) && forall p :: t.WeightAt(p) == 0
    ensures t.a == t.b && t.b == t.c
  {
    forall p ensures Look(t.a, p) == Look(t.b, p) && Look(t.b, p) == Look(t.c, p) {
      assert t.WeightAt(p) == 0;
    }
    assert forall p :: p in t.a <==> Look(t.a, p).Some?;
    assert forall p :: p in t.b <==> Look(t.b, p).Some?;
    assert forall p :: p in t.c <==> Look(t.c, p).Some?;
  }

  /** The comparison cannot be finished. */
  ghost predicate AnySkew(t: Trio) {
    exists p :: Skewed(Look(t.a, p), Look(t.b, p), Look(t.c, p), ALL)
  }

  /** What is seen of the trees is compared. If it sees everything, it fails just when a line is skewed. */
  method Recheck(tm: TreeManager) returns (ok: bool, lines: seq<Line3>, ghost ps: seq<Path>)
    requires tm.Sound() && forall p :: p in tm.dst.Unindexed() ==> Anchored(tm.Now(), p) || Gone(tm.Now(), p)
    ensures tm.dst.Unindexed() == {} ==> (ok <==> !AnySkew(tm.Now())) && (Hashed3(tm.Now()) ==> ok)
    ensures ok ==> lines == Lines3(tm.Sight().a, tm.Sight().b, tm.Sight().c, ps)
    ensures ok ==> IsDiff3(ps, tm.Sight().a, tm.Sight().b, tm.Sight().c, ALL)
    ensures ok ==> Anchors(tm.Now(), tm.dst.Unindexed(), [])
  {
    hide DirectoryTree.Valid, DirectoryTree.Contents, Lines3, IsDiff3, AllHashed, SaneLinks, NoUnknown, Misfit3,
         AnySkew, Hashed3, Anchored, Gone, Visible;
    ok, lines, ps := Diff3(tm.dst, tm.meta1, tm.meta2, ALL);
    AllIndexed(tm.meta1);
    AllIndexed(tm.meta2);
    if ok {
      forall p | p in tm.dst.Unindexed() ensures Anchored(tm.Now(), p) {
        assert !Misfit3(tm.dst, tm.meta1, tm.meta2, ALL, p);
        NotStray(tm, p);
      }
    }
    if tm.dst.Unindexed() == {} { OnlySkew(tm); }
  }

  lemma AllIndexed(t: DirectoryTree)
    requires t.Valid()
    ensures t.Unindexed() == {} ==> t.Seen() == t.Contents()
  {
    t.SeenFacts();
  }

  /** A path that no index has would have been noticed. */
  lemma NotStray(tm: TreeManager, p: Path)
    requires tm.Sound() && p in tm.dst.Unindexed() && !Misfit3(tm.dst, tm.meta1, tm.meta2, ALL, p)
    requires Anchored(tm.Now(), p) || Gone(tm.Now(), p)
    ensures Anchored(tm.Now(), p)
  {
    hide DirectoryTree.Valid, DirectoryTree.Contents, DirectoryTree.Seen, Skewed, SaneLinks, NoUnknown, IsDir;
    SoundFormed(tm);
    tm.dst.SeenFacts();
    tm.meta1.SeenFacts();
    tm.meta2.SeenFacts();
    SeenEntry(tm.dst, p);
    InItsDir(tm.Now().a, p);
  }

  lemma OnlySkew(tm: TreeManager)
    requires tm.Sound() && tm.dst.Unindexed() == {}
    ensures (forall p :: !Misfit3(tm.dst, tm.meta1, tm.meta2, ALL, p)) <==> !AnySkew(tm.Now())
    ensures Hashed3(tm.Now()) ==> !AnySkew(tm.Now())
  {
    hide DirectoryTree.Valid, DirectoryTree.Contents, DirectoryTree.Seen, Skewed, SaneLinks, NoUnknown, IsDir,
         AllHashed;
    AllIndexed(tm.dst);
    AllIndexed(tm.meta1);
    AllIndexed(tm.meta2);
    forall p ensures Misfit3(tm.dst, tm.meta1, tm.meta2, ALL, p) <==>
        Skewed(Look(tm.Now().a, p), Look(tm.Now().b, p), Look(tm.Now().c, p), ALL) {
    }
    if Hashed3(tm.Now()) {
      forall p ensures !Skewed(Look(tm.Now().a, p), Look(tm.Now().b, p), Look(tm.Now().c, p), ALL) {
        HashedStraight(tm.Now().a, tm.Now().b, tm.Now().c, p);
      }
    }
  }

  /** What the last look has seen, which did not see the links `stale`. */
  ghost function LastSight(t0: Trio, g: Setting, log: seq<Event>, looks: seq<nat>, stale: set<Path>): Trio
    requires LastOf(looks) <= |log|
  {
    Hiding(After(t0, g, log[..LastOf(looks)]), stale)
  }

  /** How a scrub has come to its end in one or more looks; the links `stale` were made before the last one. */
  ghost predicate Settled(t0: Trio, g: Setting, log: seq<Event>, looks: seq<nat>, t: Trio, half: set<Path>,
                          stale: set<Path>) {
    && InTurns(t0, g, log, looks) && LastOf(looks) <= |log| && Undisturbed(t0, g, log, LastOf(looks), |log|)
    && Remade(t0, g, log[..LastOf(looks)], stale)
    && LastTurn(LastSight(t0, g, log, looks, stale), Hiding(t, stale), g, log, LastOf(looks), half)
  }

  /** What the rounds of a scrub have made of the trees `t0`; `stale` are the links that the last look did not see. */
  ghost predicate Scrubbed(tm: TreeManager, t0: Trio, fixup: bool, f: Flags, half: set<Path>, log: seq<Event>,
                           looks: seq<nat>, stale: set<Path>)
    reads tm.src, tm.dst, tm.meta1, tm.meta2
  {
    && Chronicle(t0, Of(tm, fixup), log, tm.Now(), tm.dst.Unindexed(), half) && stale <= tm.dst.Unindexed()
    && Marked(t0, tm.Now(), CLEAR, f) && Settled(t0, Of(tm, fixup), log, looks, tm.Now(), half, stale)
    && Noted(t0, Of(tm, fixup), log, f)
    && (!f.Bad() ==> stale == {} && OnlyHalf(tm.Now(), tm.Source(), half))
  }

  const CLEAR := Flags(false, false, false, false, false)

  lemma EndedScrubbed(tm: TreeManager, t0: Trio, t: Trio, hidden: set<Path>, fixup: bool, f0: Flags, f: Flags,
                      log0: seq<Event>, log: seq<Event>, looks: seq<nat>, half: set<Path>)
    requires Ended(tm, t, hidden, fixup, f0, f, t0, log0, log, half) && Marked(t0, t, CLEAR, f0)
    requires History(t0, Of(tm, fixup), log0, t) && Remade(t0, Of(tm, fixup), log0, hidden)
    requires InTurns(t0, Of(tm, fixup), log0, looks) && LastOf(looks) == |log0|
    ensures Scrubbed(tm, t0, fixup, f, half, log, looks, hidden) && Remade(t0, Of(tm, fixup), log, hidden)
    ensures |log0| <= |log|
  {
    hide Chronicle, LastTurn, OnlyHalf, TreeManager.Now, TreeManager.Source, Remade, InTurns, OneTurn, Lawful, After,
         Noted, Undisturbed;
    TurnGoesOn(t0, Of(tm, fixup), log0, log, looks);
    assert log == log0 + log[|log0|..] && log[..|log0|] == log0;
    assert LastSight(t0, Of(tm, fixup), log, looks, hidden) == Hiding(t, hidden);
    LinksRemade(t0, Of(tm, fixup), log, tm.Now(), tm.dst.Unindexed(), hidden, half);
  }

  /** The lines are those of a look at the trees as they are now. */
  ghost predicate Looked(tm: TreeManager, t0: Trio, fixup: bool, f: Flags, log: seq<Event>, looks: seq<nat>,
                         lines: seq<Line3>, ps: seq<Path>, u: set<Path>)
    reads tm.src, tm.dst, tm.meta1, tm.meta2, tm.dst.disk, tm.src.disk
  {
    && InTurns(t0, Of(tm, fixup), log, looks) && LastOf(looks) == |log| && Noted(t0, Of(tm, fixup), log, f)
    && tm.Sound() && !f.redo && (!fixup ==> tm.dst.Unindexed() == {}) && Keys(tm.Now()) <= u && tm.Source().Keys <= u
    && lines == Lines3(tm.Sight().a, tm.Sight().b, tm.Sight().c, ps)
    && IsDiff3(ps, tm.Sight().a, tm.Sight().b, tm.Sight().c, ALL)
    && Chronicle(t0, Of(tm, fixup), log, tm.Now(), tm.dst.Unindexed(), {}) && Marked(t0, tm.Now(), CLEAR, f)
    && Anchors(tm.Now(), tm.dst.Unindexed(), [])
  }

  /**
   * One round: handle the lines, and compare again if a repair upset them. `stale` are the links that the last look did
   * not see.
   */
  method Round(tm: TreeManager, lines: seq<Line3>, fixup: bool, f: Flags, ghost ps: seq<Path>, ghost u: set<Path>,
               ghost t0: Trio, ghost log: seq<Event>, ghost looks: seq<nat>, user: User, ghost n: nat)
      returns (ok: bool, again: bool, f': Flags, lines': seq<Line3>, half: set<Path>, ghost ps': seq<Path>,
               ghost log': seq<Event>, ghost looks': seq<nat>, ghost stale: set<Path>)
    requires Looked(tm, t0, fixup, f, log, looks, lines, ps, u) && Heeded(log, user.answers, n, user.asked)
    modifies tm.dst, tm.meta1, tm.meta2, tm.dst.disk, user
    ensures ok ==> Heeded(log', user.answers, n, user.asked)
    ensures tm.dst.disk == old(tm.dst.disk) && Remade(t0, Of(tm, fixup), log', stale) && (stale != {} ==> fixup)
    ensures ok && again ==> Looked(tm, t0, fixup, f', log', looks', lines', ps', u)
    ensures ok ==> |log| <= |log'| && (ps != [] ==> log' != [])
    ensures ok && again ==> Distance(u, tm.Sight()) < old(Distance(u, tm.Sight()))
    ensures ok && !again ==> Scrubbed(tm, t0, fixup, f', half, log', looks', stale) && tm.Sound() && Keys(tm.Now()) <= u
    ensures !ok && stale == {} ==> tm.Sound() && (AnySkew(tm.Now()) || AnySplit(tm.Now()))
    ensures AllHashed(tm.Source()) && Hashed3(old(tm.Now())) ==> if ok then Hashed3(tm.Now()) else stale != {}
    ensures !fixup ==> tm.Now().a == old(tm.Now().a)
    ensures !fixup ==> (tm.dst.disk != null ==> tm.dst.disk.files == old(tm.dst.disk.files))
    ensures ok && !fixup && again ==> exists p :: p in ps && DirVoteAt(old(tm.Now()), p)
    ensures ok && !fixup && !again ==> Polled(old(tm.Now()), tm.Now(), ps, |ps|)
    ensures ok && !fixup && !again ==> (f'.Bad() <==> f.Bad() || HasUndecided(old(tm.Now())))
  {
    hide TreeManager.Sound, TreeManager.Now, TreeManager.View, TreeManager.Source, Distance, Hashed3, AllHashed, Lines3,
         IsDiff3, Keys, Polled, DirVoteAt, HasUndecided, AnySkew, AnySplit, Chronicle, Marked, Anchors, Scrubbed, Ended,
         Upset, Anchored, Gone, Remade, InTurns, SomeLeft, History, Heeded, Noted,
         Undisturbed, UpsetAt, TurnTaken;
    SoundFormed(tm);
    ghost var t := tm.Now();
    ghost var jam;
    looks' := looks;
    stale := tm.dst.Unindexed();
    SightIs(tm);
    NeverSplit(tm);
    LinksRemade(t0, Of(tm, fixup), log, t, stale, stale, {});
    ok, f', half, log', jam := Pass(tm, lines, fixup, f, ps, u, t0, log, user, n);
    again, lines', ps' := f'.redo, lines, ps;
    if !ok {
      log' := log;
      SplitSeen(tm);
    } else if again {
      AfterBreak(tm, t0, t, stale, fixup, f, f', log, log');
      LookAgain(t0, Of(tm, fixup), log, log', looks);
      looks' := looks + [|log'|];
      f' := f'.(redo := false);
      stale := tm.dst.Unindexed();
      LinksRemade(t0, Of(tm, fixup), log', tm.Now(), stale, stale, {});
      ok, lines', ps' := Recheck(tm);
    } else {
      EndedScrubbed(tm, t0, t, stale, fixup, f, f', log, log', looks, half);
      if ps != [] { HeardSome(tm, t, stale, fixup, f, f', t0, log, log', half, ps); }
    }
  }

  lemma HeardSome(tm: TreeManager, t: Trio, hidden: set<Path>, fixup: bool, f0: Flags, f: Flags, t0: Trio,
                  log0: seq<Event>, log: seq<Event>, half: set<Path>, ps: seq<Path>)
    requires Ended(tm, t, hidden, fixup, f0, f, t0, log0, log, half) && ps != []
    requires IsDiff3(ps, Hiding(t, hidden).a, t.b, t.c, ALL)
    ensures log != []
  {
    hide Chronicle, OnlyHalf, AllExcused, HalfExact, Reported3, TopDown;
    assert ps[0] in ps && ReportedAt(Hiding(t, hidden), ps[0]);
  }

  lemma LinksRemade(t0: Trio, g: Setting, log: seq<Event>, t: Trio, un: set<Path>, stale: set<Path>, half: set<Path>)
    requires Chronicle(t0, g, log, t, un, half) && stale <= un
    ensures Remade(t0, g, log, stale) && (un != {} ==> g.fixup) && History(t0, g, log, t)
  {
    hide Lawful, MadeAgain, History;
    if un != {} { var p :| p in un; }
  }

  lemma SightIs(tm: TreeManager)
    ensures tm.Sight() == Hiding(tm.Now(), tm.dst.Unindexed())
  {
  }

  lemma NeverSplit(tm: TreeManager)
    ensures tm.dst.Unindexed() == {} && Hashed3(tm.Now()) ==> !AnySplit(tm.Sight())
  {
    AllSeen(tm.Now());
  }

  lemma SplitSeen(tm: TreeManager)
    ensures AnySplit(tm.View({})) ==> AnySplit(tm.Now())
  {
    AllSeen(tm.Now());
  }

  /** The rounds of the scrub. */
  method Rounds(tm: TreeManager, fixup: bool, first: seq<Line3>, user: User, ghost ps0: seq<Path>, ghost u: set<Path>)
      returns (r: Outcome, f: Flags, half: set<Path>, ghost log: seq<Event>, ghost looks: seq<nat>,
               ghost stale: set<Path>)
    requires tm.Sound() && tm.dst.Unindexed() == {} && ps0 != []
    requires first == Lines3(tm.Sight().a, tm.Sight().b, tm.Sight().c, ps0)
    requires IsDiff3(ps0, tm.Sight().a, tm.Sight().b, tm.Sight().c, ALL)
    requires Keys(tm.Now()) <= u && tm.Source().Keys <= u
    modifies tm.dst, tm.meta1, tm.meta2, tm.dst.disk, user
    ensures r.Code? ==> Heeded(log, user.answers, old(user.asked), user.asked)
    ensures tm.dst.disk == old(tm.dst.disk) && Remade(old(tm.Now()), Of(tm, fixup), log, stale)
    ensures stale != {} ==> fixup
    ensures r.Aborted? && stale == {} ==> tm.Sound() && (AnySkew(tm.Now()) || AnySplit(tm.Now()))
    ensures AllHashed(tm.Source()) && Hashed3(old(tm.Now())) ==> !r.Aborted? || stale != {}
    ensures r.Code? ==> tm.Sound() && Keys(tm.Now()) <= u
    ensures r.Code? ==> (AllHashed(tm.Source()) && Hashed3(old(tm.Now())) ==> Hashed3(tm.Now()))
    ensures r.Code? ==> r == Code(if SomeLeft(log) then 2 else 1) && log != [] && (f.Bad() <==> SomeLeft(log))
    ensures r.Code? ==> Scrubbed(tm, old(tm.Now()), fixup, f, half, log, looks, stale)
    ensures !fixup ==> tm.Now().a == old(tm.Now().a)
    ensures !fixup ==> (tm.dst.disk != null ==> tm.dst.disk.files == old(tm.dst.disk.files))
    ensures r.Code? && !fixup && NoDirVote(old(tm.Now())) ==> Majority(old(tm.Now()), tm.Now())
    ensures r.Code? && !fixup && NoDirVote(old(tm.Now())) ==> (r == Code(2) <==> HasUndecided(old(tm.Now())))
  {
    hide TreeManager.Sound, TreeManager.Now, TreeManager.View, TreeManager.Source, Distance, Hashed3, AllHashed, Polled,
         DirVoteAt, Lines3, IsDiff3, Keys, NoDirVote, Majority, HasUndecided, AnySkew, AnySplit, Scrubbed, Looked,
         Remade, Heeded;
    ghost var t0, n := tm.Now(), user.asked;
    SoundFormed(tm);
    NothingAsked(user.answers, n);
    f, half, log, looks, stale := CLEAR, {}, [], [0], {};
    RoundsStart(tm, fixup, first, ps0, u);
    var lines := first;
    ghost var ps := ps0;
    var again := true;
    ghost var rounds := 0;
    while again
      invariant tm.dst.disk == old(tm.dst.disk) && Remade(t0, Of(tm, fixup), log, stale) && (stale != {} ==> fixup)
      invariant AllHashed(tm.Source()) && Hashed3(t0) ==> Hashed3(tm.Now())
      invariant again ==> Looked(tm, t0, fixup, f, log, looks, lines, ps, u)
      invariant ((rounds > 0 || !again) ==> log != []) && Heeded(log, user.answers, n, user.asked)
      invariant !again ==> Scrubbed(tm, t0, fixup, f, half, log, looks, stale) && tm.Sound() && Keys(tm.Now()) <= u
      invariant !fixup ==> tm.Now().a == t0.a && (tm.dst.disk != null ==> tm.dst.disk.files == old(tm.dst.disk.files))
      invariant again && rounds == 0 ==> tm.Now() == t0 && ps == ps0 && !f.Bad()
      invariant !fixup && (forall p :: p in ps0 ==> !DirVoteAt(t0, p)) ==>
                  rounds == 0 && (!again ==> Polled(t0, tm.Now(), ps0, |ps0|) && (f.Bad() <==> HasUndecided(t0)))
      decreases again, Distance(u, tm.Sight())
    {
      var ok;
      LookedApart(tm, t0, fixup, f, log, looks, lines, ps, u);
      ok, again, f, lines, half, ps, log, looks, stale := Round(tm, lines, fixup, f, ps, u, t0, log, looks,
                                                                 user, n);
      if !ok { return Aborted, f, half, log, looks, stale; }
      if again { rounds := rounds + 1; }
    }
    PolledMajority(t0, tm.Now(), ps0);
    FlagsTold(tm, t0, fixup, f, half, log, looks, stale);
    r := Code(if f.Bad() then 2 else 1);
  }

  lemma NothingAsked(answers: nat -> bool, n: nat)
    ensures Heeded([], answers, n, n)
  {
  }

  lemma FlagsTold(tm: TreeManager, t0: Trio, fixup: bool, f: Flags, half: set<Path>, log: seq<Event>, looks: seq<nat>,
                  stale: set<Path>)
    requires Scrubbed(tm, t0, fixup, f, half, log, looks, stale)
    ensures Noted(t0, Of(tm, fixup), log, f)
  {
  }

  lemma LookedApart(tm: TreeManager, t0: Trio, fixup: bool, f: Flags, log: seq<Event>, looks: seq<nat>,
                    lines: seq<Line3>, ps: seq<Path>, u: set<Path>)
    requires Looked(tm, t0, fixup, f, log, looks, lines, ps, u)
    ensures tm.src != tm.dst && tm.src != tm.meta1 && tm.src != tm.meta2
  {
    SoundFormed(tm);
  }

  lemma RoundsStart(tm: TreeManager, fixup: bool, lines: seq<Line3>, ps: seq<Path>, u: set<Path>)
    requires tm.Sound() && tm.dst.Unindexed() == {} && Keys(tm.Now()) <= u && tm.Source().Keys <= u
    requires lines == Lines3(tm.Sight().a, tm.Sight().b, tm.Sight().c, ps)
    requires IsDiff3(ps, tm.Sight().a, tm.Sight().b, tm.Sight().c, ALL)
    ensures Looked(tm, tm.Now(), fixup, CLEAR, [], [0], lines, ps, u)
    ensures IsDiff3(ps, tm.Now().a, tm.Now().b, tm.Now().c, ALL)
    ensures Remade(tm.Now(), Of(tm, fixup), [], {})
    ensures NoDirVote(tm.Now()) ==> forall p :: p in ps ==> !DirVoteAt(tm.Now(), p)
  {
    hide TreeManager.Fit, TreeManager.Source, TreeManager.Now, Visible, TopDown, Reported3, DirVoteAt, SaneLinks,
         Lines3, Keys, History;
    AllSeen(tm.Now());
    HistoryStart(tm.Now(), Of(tm, fixup));
  }

  lemma AfterBreak(tm: TreeManager, t0: Trio, t: Trio, hidden: set<Path>, fixup: bool, f0: Flags, f: Flags,
                   log0: seq<Event>, log: seq<Event>)
    requires Upset(tm, t, hidden, fixup, f0, f, t0, log0, log) && Marked(t0, t, CLEAR, f0)
    ensures TurnTaken(log0, log) && |log| > |log0| && Noted(t0, Of(tm, fixup), log, f.(redo := false))
    ensures Undisturbed(t0, Of(tm, fixup), log, |log0|, |log| - 1) && UpsetAt(t0, Of(tm, fixup), log, |log| - 1)
    ensures Chronicle(t0, Of(tm, fixup), log, tm.Now(), tm.dst.Unindexed(), {})
    ensures Marked(t0, tm.Now(), CLEAR, f.(redo := false))
    ensures tm.dst.Unindexed() != {} ==> fixup
    ensures forall p :: p in tm.dst.Unindexed() ==> Anchored(tm.Now(), p) || Gone(tm.Now(), p)
  {
    hide TreeManager.Now, TreeManager.Source, History, MadeAgain, Lawful, Anchored, Gone, OneTurn, HalfUpdate,
         UpsetAt, Undisturbed, Wrote1, Wrote2;
  }

  lemma LookAgain(t0: Trio, g: Setting, log0: seq<Event>, log: seq<Event>, looks: seq<nat>)
    requires TurnTaken(log0, log) && |log| > |log0| && InTurns(t0, g, log0, looks) && LastOf(looks) == |log0|
    requires Undisturbed(t0, g, log, |log0|, |log| - 1) && UpsetAt(t0, g, log, |log| - 1)
    ensures InTurns(t0, g, log, looks + [|log|]) && LastOf(looks + [|log|]) == |log|
  {
    hide InTurns, OneTurn, UpsetAt, Undisturbed;
    TurnGoesOn(t0, g, log0, log, looks);
    NextTurn(t0, g, log, looks);
  }

  lemma EmptyDiff(t: Trio, ps: seq<Path>)
    requires Formed(t) && IsDiff3(ps, t.a, t.b, t.c, ALL)
    ensures ps == [] <==> forall p :: t.WeightAt(p) == 0
  {
    hide TopDown;
    if ps == [] {
      forall p ensures t.WeightAt(p) == 0 {
        if t.WeightAt(p) != 0 {
          DifferAbove(t, p);
          var q := ReportedAbove3(t.a, t.b, t.c, ALL, p);
        }
      }
    } else {
      assert ps[0] in ps;
      ReportedHeavy(t.a, t.b, t.c, ps[0]);
      assert t.WeightAt(ps[0]) > 0;
    }
  }

  /**
   * The metadata files are what the vote makes of them: an outvoted entry is that of the backup, any other is as it
   * was.
   */
  ghost predicate Majority(t0: Trio, t: Trio) {
    forall p :: Decided(t0, t, p)
  }

  lemma PolledMajority(t0: Trio, t: Trio, ps: seq<Path>)
    requires IsDiff3(ps, t0.a, t0.b, t0.c, ALL)
    ensures Polled(t0, t, ps, |ps|) ==> Majority(t0, t)
    ensures NoDirVote(t0) ==> forall p :: p in ps ==> !DirVoteAt(t0, p)
  {
    hide TopDown;
    assert ps[..|ps|] == ps;
  }

  /** Both metadata files had the same entry at the start; with all hashes at hand it is enough that they agreed. */
  ghost predicate FilesAgree(t0: Trio, q: Path) {
    SameOpt(Look(t0.b, q), Look(t0.c, q)) && (Hashed3(t0) || Look(t0.b, q) == Look(t0.c, q))
  }

  /**
   * Where both metadata files had the same entry at the start, no vote has taken place, and they have the same entry,
   * unless a directory above was voted on while the backup had another entry there.
   */
  ghost predicate Spared(t0: Trio, g: Setting, log: seq<Event>, t: Trio) {
    forall q :: FilesAgree(t0, q) && (Calm(t0, g, log) || Gentle(t0, g, log, q)) ==>
                  Look(t.b, q) == Look(t.c, q) && !VotedOn(t0, g, log, q)
  }

  lemma SparedAll(t0: Trio, g: Setting, log: seq<Event>, t: Trio)
    requires History(t0, g, log, t)
    ensures Spared(t0, g, log, t)
  {
    hide Lawful, Calm, After, VotedOn, Gentle;
    forall q | FilesAgree(t0, q) && (Calm(t0, g, log) || Gentle(t0, g, log, q))
      ensures Look(t.b, q) == Look(t.c, q) && !VotedOn(t0, g, log, q)
    {
      if Calm(t0, g, log) { CalmGentle(t0, g, log, q); }
      SparedRun(t0, g, log, q);
    }
  }

  /** Aside of repairs, every entry is what the vote of the start makes of it. */
  ghost predicate MajorityAside(t0: Trio, g: Setting, log: seq<Event>, t: Trio) {
    forall q :: Aside(t0, g, log, q) ==> Decided(t0, t, q)
  }

  lemma AsideDecided(t0: Trio, g: Setting, log: seq<Event>, t: Trio, un: set<Path>, half: set<Path>, stale: set<Path>)
    requires Chronicle(t0, g, log, t, un, half) && Calm(t0, g, log) && stale <= un
    requires AllExcused(Hiding(t, stale), g, half)
    requires Formed(t0) && Formed(t) && forall q :: IsDir(Hiding(t, stale).a, q) <==> IsDir(t.a, q)
    ensures MajorityAside(t0, g, log, t)
  {
    hide Calm, Lawful, After, Aside, Excused, Visible, WellFormed, Decided, IsDir;
    forall q | Aside(t0, g, log, q) ensures Decided(t0, t, q) {
      if q in stale { MadeNotAside(t0, g, log, q); }
      if q.In? {
        SameReport(t, stale, g, q);
        assert ReportedAt(t, q) ==> ReportedAt(Hiding(t, stale), q);
        DecidedRun(t0, g, log, t, q);
      } else {
        TopDecided(t0, t, q);
      }
    }
  }

  lemma SameReport(t: Trio, stale: set<Path>, g: Setting, q: Path)
    requires q !in stale && forall r :: IsDir(Hiding(t, stale).a, r) <==> IsDir(t.a, r)
    ensures ReportedAt(Hiding(t, stale), q) <==> ReportedAt(t, q)
    ensures Excused(Hiding(t, stale), g, q) <==> Excused(t, g, q)
  {
    hide Visible, IsDir, SameOpt, Helpless, Asked;
    LookVisible(t.a, stale, q);
    if q.In? { assert IsDir(Hiding(t, stale).a, q.dir) <==> IsDir(t.a, q.dir); }
  }

  lemma TopDecided(t0: Trio, t: Trio, q: Path)
    requires Formed(t0) && Formed(t) && !q.In?
    ensures Decided(t0, t, q)
  {
  }

  /** The entries that were left half updated. */
  ghost predicate HalfFrom(t0: Trio, g: Setting, t: Trio, half: set<Path>) {
    forall p :: p in half ==>
        g.fixup && g.present && HalfUpdate(Look(g.s, p), Look(t0.a, p), Look(t0.b, p)) && HalfDone(t, g.s, p)
  }

  lemma HalfSeen(t0: Trio, g: Setting, log: seq<Event>, t: Trio, un: set<Path>, half: set<Path>, stale: set<Path>)
    requires Chronicle(t0, g, log, t, un, half) && AllExcused(Hiding(t, stale), g, half)
    ensures HalfFrom(t0, g, t, half)
  {
    hide History, Remade, HalfUpdate, Visible, Excused;
    forall p | p in half ensures HalfDone(t, g.s, p) { LookVisible(t.a, stale, p); }
  }

  /**
   * A link that the last look did not see has not been left for lack of trouble: both metadata files do not have it
   * alike, unless only a source could help that cannot.
   */
  lemma StaleLinks(tm: TreeManager, g: Setting, half: set<Path>, stale: set<Path>, p: Path)
    requires tm.Sound() && stale <= tm.dst.Unindexed() && AllExcused(tm.View(stale), g, half) && p in stale && g.fixup
    ensures p in tm.Now().b && SameOpt(Look(tm.Now().b, p), Look(tm.Now().c, p)) ==>
              Helpless(g.present, Look(g.s, p), None, Look(tm.Now().b, p))
  {
    hide TreeManager.Fit, DirectoryTree.Contents, Visible, WellFormed, SameContent, SaneLinks;
    ViewFormed(tm, stale);
    var v := tm.View(stale);
    LookVisible(tm.Now().a, stale, p);
    if p in v.b && SameOpt(Look(v.b, p), Look(v.c, p)) {
      InItsDir(tm.Now().a, p);
      InDirs(v, p);
      MissingReported(v, p);
    }
  }

  /**
   * A link that was made again without indexing it is reported as missing by the next look, if both metadata files have
   * it, and its repair is jammed: the name is taken.
   */
  lemma SecondLook(tm: TreeManager, p: Path)
    requires tm.Sound() && p in tm.dst.Unindexed() && p in tm.Now().b && p in tm.Now().c && tm.Now().b[p].ty.Symlink?
    requires SameOpt(Look(tm.Now().b, p), Look(tm.Now().c, p))
    ensures var v := tm.Sight(); ReportedAt(v, p) && Look(v.a, p) == None && tm.Jammed(LineAt3(v.a, v.b, v.c, p), p)
  {
    hide TreeManager.Fit, DirectoryTree.Contents, Visible, WellFormed, SameContent, SaneLinks;
    ViewFormed(tm, tm.dst.Unindexed());
    LookVisible(tm.Now().a, tm.dst.Unindexed(), p);
    InItsDir(tm.Now().a, p);
    InDirs(tm.Sight(), p);
    MissingReported(tm.Sight(), p);
  }

  lemma InDirs(t: Trio, p: Path)
    requires Formed(t) && p in t.b && p in t.c
    ensures p.In? && IsDir(t.b, p.dir) && IsDir(t.c, p.dir)
  {
  }

  /**
   * All that a scrub has to tell that returned `n`: which lines it has handled and how, in which looks, what was left
   * half updated, and what the vote has decided. It returns 2 just when a line was left in any of its looks.
   */
  ghost predicate ScrubDone(t0: Trio, g: Setting, log: seq<Event>, looks: seq<nat>, t: Trio, half: set<Path>,
                            stale: set<Path>, n: nat) {
    && n == (if log == [] then 0 else if SomeLeft(log) then 2 else 1)
    && History(t0, g, log, t) && Settled(t0, g, log, looks, t, half, stale) && HalfFrom(t0, g, t, half)
    && Spared(t0, g, log, t) && (Calm(t0, g, log) ==> MajorityAside(t0, g, log, t))
    && (n <= 1 ==> stale == {} && OnlyHalf(t, g.s, half))
  }

  /**
   * The scrub. It may look again after it has made a link again; then it does not see the link, and it is unable to
   * succeed any more: `stale` are the links that the last look did not see.
   */
  method ScrubImpl(tm: TreeManager, fixup: bool, user: User)
      returns (r: Outcome, half: set<Path>, ghost log: seq<Event>, ghost looks: seq<nat>, ghost stale: set<Path>)
    requires tm.Sound() && tm.dst.Unindexed() == {}
    modifies tm, tm.dst, tm.meta1, tm.meta2, tm.dst.disk, user
    ensures tm.dst.disk == old(tm.dst.disk) && (r.Code? || stale == {} ==> tm.Sound())
    ensures tm.meta2TreePresent == old(tm.meta2TreePresent)
    // nothing differed
    ensures r == Code(0) ==> tm.Now() == old(tm.Now()) && half == {} && log == [] && tm.dst.Unindexed() == {}
    ensures r == Code(0) ==> tm.save == old(tm.save)
    ensures r == Code(0) ==> forall p :: tm.Now().WeightAt(p) == 0
    ensures r == Code(0) && tm.dst.disk != null ==> tm.dst.disk.files == old(tm.dst.disk.files)
    ensures (Hashed3(old(tm.Now())) || !AnySkew(old(tm.Now()))) && (forall p :: old(tm.Now()).WeightAt(p) == 0) ==>
              r == Code(0)
    // everything was repaired, except what was left half updated
    ensures r == Code(1) ==> tm.save && OnlyHalf(tm.Now(), tm.Source(), half)
    ensures r.Code? && r.n <= 1
            && (forall p :: !HalfUpdate(Look(tm.Source(), p), Look(old(tm.Now()).a, p), Look(old(tm.Now()).b, p))) ==>
              forall p :: tm.Now().WeightAt(p) == 0
    ensures r.Code? && r.n <= 1 && half == {} && AllHashed(tm.Source()) && Hashed3(old(tm.Now())) ==>
              tm.Now().a == tm.Now().b == tm.Now().c
    ensures r == Code(1) ==> (tm.Now().b != old(tm.Now()).b ==> tm.meta1NeedsBackup)
    ensures r == Code(1) ==> (tm.Now().c != old(tm.Now()).c ==> tm.meta2NeedsBackup)
    ensures tm.meta1NeedsBackup ==
            (old(tm.meta1NeedsBackup) || (r == Code(1) && Wrote1(old(tm.Now()), Of(tm, fixup), log)))
    ensures tm.meta2NeedsBackup ==
            (old(tm.meta2NeedsBackup) || (r == Code(1) && Wrote2(old(tm.Now()), Of(tm, fixup), log)))
    // something was given up
    ensures r == Code(2) ==> tm.save == old(tm.save)
    ensures r.Code? ==> r.n <= 2 && stale <= tm.dst.Unindexed()
    // it stops halfway only for a reason
    ensures stale != {} ==> fixup && (r == Code(2) || r.Aborted?)
    ensures Remade(old(tm.Now()), Of(tm, fixup), log, stale)
    ensures r.Aborted? ==> stale != {} || AnySkew(tm.Now()) || AnySplit(tm.Now())
    ensures AllHashed(tm.Source()) && Hashed3(old(tm.Now())) ==> !r.Aborted? || stale != {}
    // the history of votes and repairs
    ensures r.Code? ==> Heeded(log, user.answers, old(user.asked), user.asked)
    ensures r.Code? ==> ScrubDone(old(tm.Now()), Of(tm, fixup), log, looks, tm.Now(), half, stale, r.n)
    ensures r.Code? ==> Keys(tm.Now()) <= old(Keys(tm.Now())) + tm.Source().Keys
    ensures r.Code? && AllHashed(tm.Source()) && Hashed3(old(tm.Now())) ==> Hashed3(tm.Now())
    // without the permission to repair the backup
    ensures !fixup ==> tm.Now().a == old(tm.Now().a)
    ensures !fixup ==> (tm.dst.disk != null ==> tm.dst.disk.files == old(tm.dst.disk.files))
    ensures r.Code? && !fixup ==> tm.dst.Unindexed() == {}
    ensures r.Code? && !fixup && NoDirVote(old(tm.Now())) ==> Majority(old(tm.Now()), tm.Now())
    ensures r.Code? && !fixup && NoDirVote(old(tm.Now())) ==> (r == Code(2) <==> HasUndecided(old(tm.Now())))
  {
    hide TreeManager.Sound, TreeManager.Now, TreeManager.View, TreeManager.Source, Trio.WeightAt, Hashed3, AllHashed,
         Lines3, IsDiff3, Keys, NoDirVote, Majority, OnlyHalf, AllExcused, HasUndecided, Of, AnySkew, AnySplit,
         Scrubbed, HalfUpdate, Formed, Anchored, Gone, Remade, TreeManager.Sight, WellFormed, SomeLeft, ScrubDone,
         Heeded, Wrote1, Wrote2;
    NothingAsked(user.answers, user.asked);
    half, log, looks, stale := {}, [], [0], {};
    NothingRemade(tm.Now(), Of(tm, fixup));
    var ok, lines;
    ghost var ps;
    ok, lines, ps := Recheck(tm);
    if !ok { return Aborted, half, log, looks, stale; }
    SoundFormed(tm);
    ghost var t0 := tm.Now();
    FirstLook(tm, fixup, lines, ps);
    if lines == [] { return Code(0), half, log, looks, stale; }
    var f;
    r, f, half, log, looks, stale := Rounds(tm, fixup, lines, user, ps, Keys(t0) + tm.Source().Keys);
    if r.Code? {
      Conclude(tm, f);
      ScrubEnds(tm, t0, fixup, f, half, log, looks, stale);
    }
  }

  /** Have the metadata saved if nothing was given up, and the previous version of what has changed. */
  method Conclude(tm: TreeManager, f: Flags)
    modifies tm
    ensures tm.save == (old(tm.save) || !f.Bad()) && tm.meta2TreePresent == old(tm.meta2TreePresent)
    ensures tm.meta1NeedsBackup == (old(tm.meta1NeedsBackup) || (!f.Bad() && f.updateMeta1))
    ensures tm.meta2NeedsBackup == (old(tm.meta2NeedsBackup) || (!f.Bad() && f.updateMeta2))
  {
    if !f.Bad() {
      tm.save := true;
      if f.updateMeta1 { tm.meta1NeedsBackup := true; }
      if f.updateMeta2 { tm.meta2NeedsBackup := true; }
    }
  }

  lemma NothingRemade(t: Trio, g: Setting)
    ensures Remade(t, g, [], {})
  {
  }

  /** What the first look says; if it sees no difference, all is settled. */
  lemma FirstLook(tm: TreeManager, fixup: bool, lines: seq<Line3>, ps: seq<Path>)
    requires tm.Sound() && tm.dst.Unindexed() == {}
    requires lines == Lines3(tm.Sight().a, tm.Sight().b, tm.Sight().c, ps)
    requires IsDiff3(ps, tm.Sight().a, tm.Sight().b, tm.Sight().c, ALL)
    ensures lines == [] <==> forall p :: tm.Now().WeightAt(p) == 0
    ensures lines == [] <==> ps == []
    ensures lines == [] ==> ScrubDone(tm.Now(), Of(tm, fixup), [], [0], tm.Now(), {}, {}, 0)
    ensures lines == [] ==> Majority(tm.Now(), tm.Now()) && !HasUndecided(tm.Now())
    ensures lines == [] && Hashed3(tm.Now()) ==> tm.Now().a == tm.Now().b == tm.Now().c
  {
    hide TreeManager.Fit, TreeManager.Source, TreeManager.Now, Visible, TopDown, Lines3, Reported3, Trio.WeightAt,
         SaneLinks, WellFormed, Hashed3, Excused, HalfUpdate;
    AllSeen(tm.Now());
    SoundFormed(tm);
    EmptyDiff(tm.Now(), ps);
    LinesCount(tm.Now(), lines, ps);
    HistoryStart(tm.Now(), Of(tm, fixup));
    if lines == [] {
      SparedAll(tm.Now(), Of(tm, fixup), [], tm.Now());
      if Hashed3(tm.Now()) { HashedAgree(tm.Now()); }
    }
  }

  lemma ScrubEnds(tm: TreeManager, t0: Trio, fixup: bool, f: Flags, half: set<Path>, log: seq<Event>, looks: seq<nat>,
                  stale: set<Path>)
    requires tm.Sound() && Scrubbed(tm, t0, fixup, f, half, log, looks, stale) && Formed(t0)
    requires log != []
    ensures ScrubDone(t0, Of(tm, fixup), log, looks, tm.Now(), half, stale, if f.Bad() then 2 else 1)
    ensures stale <= tm.dst.Unindexed()
    ensures tm.dst.Unindexed() != {} ==> fixup
    ensures !f.Bad() ==> stale == {} && OnlyHalf(tm.Now(), tm.Source(), half)
    ensures !f.Bad() ==> (half == {} && Hashed3(tm.Now()) ==> tm.Now().a == tm.Now().b == tm.Now().c)
    ensures !f.Bad() && (forall p :: !HalfUpdate(Look(tm.Source(), p), Look(t0.a, p), Look(t0.b, p))) ==>
              forall p :: tm.Now().WeightAt(p) == 0
    ensures (tm.Now().b != t0.b ==> f.updateMeta1) && (tm.Now().c != t0.c ==> f.updateMeta2)
    ensures (f.updateMeta1 <==> Wrote1(t0, Of(tm, fixup), log)) && (f.updateMeta2 <==> Wrote2(t0, Of(tm, fixup), log))
  {
    hide TreeManager.Fit, TreeManager.Source, TreeManager.Now, Visible, Trio.WeightAt, SaneLinks, WellFormed, Hashed3,
         History, Calm, AllExcused, HalfDone, HalfUpdate, Spared, MajorityAside, Remade, Formed;
    var g := Of(tm, fixup);
    HalfSeen(t0, g, log, tm.Now(), tm.dst.Unindexed(), half, stale);
    LinksRemade(t0, g, log, tm.Now(), tm.dst.Unindexed(), stale, half);
    ViewFormed(tm, stale);
    SparedAll(t0, g, log, tm.Now());
    if Calm(t0, g, log) {
      AsideDecided(t0, g, log, tm.Now(), tm.dst.Unindexed(), half, stale);
    }
    if !f.Bad() && half == {} && Hashed3(tm.Now()) { HashedAgree(tm.Now()); }
  }
}
