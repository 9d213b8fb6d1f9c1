/** The vote of a scrub, and what whole histories of votes and repairs do. */
module Votes {
  import opened Elements
  import opened Catalogs
  import opened Diffs
  import opened Ranks
  import opened Repairs

  // ---------- the vote ----------

  lemma SameIsCompare(x: Option<Element>, y: Option<Element>)
    ensures Differ2(x, y, ALL) <==> !SameOpt(x, y)
  {
  }

  /** The line falls through all four branches of the vote. */
  predicate Gap(x: Option<Element>, y: Option<Element>, z: Option<Element>) {
    && !(SameOpt(x, y) && !SameOpt(x, z))
    && !(SameOpt(x, z) && !SameOpt(x, y))
    && !(SameOpt(y, z) && !SameOpt(x, y))
    && !(!SameOpt(x, y) && !SameOpt(y, z))
  }

  /** The backup entry has no hash, and the metadata files have different ones; nothing else differs. */
  predicate HashSplit(x: Option<Element>, y: Option<Element>, z: Option<Element>) {
    && x.Some? && y.Some? && z.Some?
    && x.value.hash == "" && y.value.hash != "" && z.value.hash != "" && y.value.hash != z.value.hash
    && x.value == y.value.(hash := "") == z.value.(hash := "")
  }

  /** Exactly the lines with a hash split fall through. */
  lemma VoteCoverage(a: Catalog, b: Catalog, c: Catalog, p: Path)
    requires WellFormed(a) && WellFormed(b) && WellFormed(c) && Reported3(a, b, c, ALL, p)
    ensures Gap(Look(a, p), Look(b, p), Look(c, p)) <==> HashSplit(Look(a, p), Look(b, p), Look(c, p))
    ensures AllHashed(a) && AllHashed(b) ==> !Gap(Look(a, p), Look(b, p), Look(c, p))
  {
    NotBelowOthers(a, p);
    NotBelowOthers(b, p);
    NotBelowOthers(c, p);
  }

  /** Exactly when the hash between two different ones is missing, and nothing else differs, a line is skewed. */
  lemma SkewedExactly(x: Option<Element>, y: Option<Element>, z: Option<Element>)
    ensures Skewed(x, y, z, ALL) <==> HashSplit(y, x, z)
  {
  }

  lemma NotBelowOthers(m: Catalog, p: Path)
    requires WellFormed(m) && p.In?
    ensures !IsDir(m, p.dir) ==> Look(m, p) == None
  {
  }

  /** Wherever the vote copies an entry, its directory is there. */
  lemma VoteParents(a: Catalog, b: Catalog, c: Catalog, p: Path)
    requires WellFormed(a) && WellFormed(b) && WellFormed(c) && Reported3(a, b, c, ALL, p)
    ensures SameOpt(Look(a, p), Look(b, p)) && !SameOpt(Look(a, p), Look(c, p)) && p in a ==> IsDir(c, p.dir)
    ensures SameOpt(Look(a, p), Look(c, p)) && !SameOpt(Look(a, p), Look(b, p)) && p in a ==> IsDir(b, p.dir)
    ensures SameOpt(Look(b, p), Look(c, p)) && !SameOpt(Look(a, p), Look(b, p)) && p in b ==> IsDir(a, p.dir)
  {
    NotBelowOthers(a, p);
    NotBelowOthers(b, p);
    NotBelowOthers(c, p);
  }

  /** With all hashes at hand no line is skewed. */
  lemma HashedStraight(a: Catalog, b: Catalog, c: Catalog, p: Path)
    requires AllHashed(a) && AllHashed(b)
    ensures !Skewed(Look(a, p), Look(b, p), Look(c, p), ALL)
  {
    SkewedExactly(Look(a, p), Look(b, p), Look(c, p));
  }

  lemma ReportedHeavy(a: Catalog, b: Catalog, c: Catalog, p: Path)
    requires WellFormed(a) && WellFormed(b) && WellFormed(c) && Reported3(a, b, c, ALL, p)
    ensures Weight(Look(a, p), Look(b, p), Look(c, p)) > 0
  {
    NotBelowOthers(a, p);
    NotBelowOthers(b, p);
    NotBelowOthers(c, p);
  }

  /** Backup and first metadata file outvote the second. */
  predicate Against2(x: Option<Element>, y: Option<Element>, z: Option<Element>) {
    SameOpt(x, y) && !SameOpt(x, z)
  }

  /** Backup and second metadata file outvote the first. */
  predicate Against1(x: Option<Element>, y: Option<Element>, z: Option<Element>) {
    SameOpt(x, z) && !SameOpt(x, y)
  }

  /** A metadata file is outvoted on an entry that is a directory on either side. */
  predicate DirVote(x: Option<Element>, y: Option<Element>, z: Option<Element>) {
    || (Against2(x, y, z) && (IsDirOpt(x) || IsDirOpt(z)))
    || (Against1(x, y, z) && (IsDirOpt(x) || IsDirOpt(y)))
  }

  /** At `p` each metadata file has what it had, unless it was outvoted: then it has what the backup has. */
  ghost predicate VotedAt(t0: Trio, t: Trio, p: Path) {
    var x, y, z := Look(t0.a, p), Look(t0.b, p), Look(t0.c, p);
    && Look(t.a, p) == x
    && Look(t.b, p) == (if Against1(x, y, z) then x else y)
    && Look(t.c, p) == (if Against2(x, y, z) then x else z)
  }

  /**
   * A vote on a directory overrides votes below it: where both metadata files agreed against the backup, the first file
   * stands alone against the backup and the second file afterwards.
   */
  lemma DirVoteFlips(t: Trio, p: Path, q: Path)
    requires Formed(t) && p.In? && Under(q, p) && Against2(Look(t.a, p), Look(t.b, p), Look(t.c, p))
    requires SameOpt(Look(t.b, q), Look(t.c, q)) && !SameOpt(Look(t.a, q), Look(t.b, q))
    ensures var c := Look(Corrected(t.c, t.a, p), q); Against1(Look(t.a, q), Look(t.b, q), c) && c == Look(t.a, q)
  {
    if q in t.a { Ancestor(t.a, q, p); }
  }

  /**
   * The second metadata file can be outvoted although both files agree: just when the first file has no hash, the
   * backup and the second file have different ones, and nothing else differs.
   */
  lemma AgreedVote(x: Option<Element>, y: Option<Element>, z: Option<Element>)
    ensures SameOpt(y, z) && Against2(x, y, z) <==> HashSplit(y, x, z)
    ensures SameOpt(y, z) && Against1(x, y, z) <==> HashSplit(z, x, y)
  {
  }

  // ---------- what handling a line may do ----------

  /** What a scrub has to work with: the source, whether it is there, and whether the backup may be repaired. */
  datatype Setting = Setting(s: Catalog, present: bool, fixup: bool)

  /**
   * A line may be left as it is: all three differ, or the backup is outvoted and there is no permission to repair it,
   * no help from the source, or the user is asked.
   */
  predicate Excuse(g: Setting, i: Option<Element>, x: Option<Element>, y: Option<Element>, z: Option<Element>) {
    || (!SameOpt(x, y) && !SameOpt(y, z) && !SameOpt(x, z))
    || (SameOpt(y, z) && !SameOpt(x, y) && !SameOpt(x, z)
        && (!g.fixup || Helpless(g.present, i, x, y) || Asked(i, x, y)))
  }

  /** The line of `p` may be left as it is. */
  ghost predicate Excused(t: Trio, g: Setting, p: Path) {
    Excuse(g, Look(g.s, p), Look(t.a, p), Look(t.b, p), Look(t.c, p))
  }

  /** The line calls for a repair that leaves the backup entry half updated. */
  ghost predicate DueHalf(t: Trio, g: Setting, p: Path) {
    && g.fixup && g.present && Outvoted(t, p)
    && !Against1(Look(t.a, p), Look(t.b, p), Look(t.c, p)) && !Against2(Look(t.a, p), Look(t.b, p), Look(t.c, p))
    && HalfUpdate(Look(g.s, p), Look(t.a, p), Look(t.b, p))
  }

  /**
   * What else handling a line does: an outvoted metadata file takes what the backup has, an outvoted backup is
   * repaired.
   */
  ghost function Resolved(t: Trio, g: Setting, p: Path): Trio {
    var x, y, z := Look(t.a, p), Look(t.b, p), Look(t.c, p);
    if Against2(x, y, z) then t.(c := Corrected(t.c, t.a, p))
    else if Against1(x, y, z) then t.(b := Corrected(t.b, t.a, p))
    else if SameOpt(y, z) && !SameOpt(x, y) then RepairOf(t, g.s, p)
    else t
  }

  /** What it does on a line whose backup entry is not seen: the one metadata file that has the entry loses it. */
  ghost function Dropped(t: Trio, p: Path): Trio {
    if Look(t.b, p).None? then t.(c := Cut(t.c, p))
    else if Look(t.c, p).None? then t.(b := Cut(t.b, p))
    else t
  }

  // ---------- histories ----------

  /**
   * A line was handled: `seen` tells whether the index had the backup entry, if there was one, `left` whether the line
   * was left as it is, which ends the scrub with 2; `answer` is that of the user, if there was a question.
   */
  datatype Event = Event(p: Path, seen: bool, left: bool, answer: Option<bool>)

  ghost function Step(t: Trio, g: Setting, e: Event): Trio {
    if e.left then t else if e.seen then Resolved(t, g, e.p) else Dropped(t, e.p)
  }

  ghost function After(t: Trio, g: Setting, log: seq<Event>): Trio {
    if log == [] then t else Step(After(t, g, log[..|log| - 1]), g, log[|log| - 1])
  }

  /** What is seen of the backup at the path of the event. */
  ghost function SeenAt(t: Trio, e: Event): Option<Element> {
    if e.seen then Look(t.a, e.p) else None
  }

  /** A metadata file is outvoted. */
  ghost predicate Outvotes(t: Trio, e: Event) {
    Against1(SeenAt(t, e), Look(t.b, e.p), Look(t.c, e.p)) || Against2(SeenAt(t, e), Look(t.b, e.p), Look(t.c, e.p))
  }

  ghost predicate VotesDir(t: Trio, e: Event) {
    DirVote(SeenAt(t, e), Look(t.b, e.p), Look(t.c, e.p))
  }

  /** The backup is outvoted. */
  ghost predicate Mends(t: Trio, e: Event) {
    !e.left && e.seen && Outvoted(t, e.p) && !Outvotes(t, e)
  }

  /** The user is asked: the backup may be repaired, and the repair would delete something that has not rotted. */
  predicate Question(g: Setting, i: Option<Element>, x: Option<Element>, y: Option<Element>, z: Option<Element>) {
    && g.fixup && SameOpt(y, z) && !SameOpt(x, y) && !Against1(x, y, z) && !Against2(x, y, z)
    && Questioned(g.present, i, x, y)
  }

  /** There was a question just when there had to be one, and it was answered with no just when the line was left. */
  ghost predicate Consulted(t: Trio, g: Setting, e: Event) {
    && (e.answer.Some? <==> Question(g, Look(g.s, e.p), SeenAt(t, e), Look(t.b, e.p), Look(t.c, e.p)))
    && (e.answer.Some? ==> e.left == !e.answer.value)
  }

  /** What may be done with a line. */
  ghost predicate Legal(t: Trio, g: Setting, e: Event) {
    && Formed(t) && e.p.In? && (e.seen ==> Reported3(t.a, t.b, t.c, ALL, e.p)) && Consulted(t, g, e)
    && if e.left then Excuse(g, Look(g.s, e.p), SeenAt(t, e), Look(t.b, e.p), Look(t.c, e.p))
       else Outvotes(t, e) || (Mends(t, e) && g.fixup
            && !Helpless(g.present, Look(g.s, e.p), Look(t.a, e.p), Look(t.b, e.p)))
  }

  /** What the repair of the line returns. */
  ghost function Result(t: Trio, g: Setting, e: Event): Fixup {
    ResultOf(Look(g.s, e.p), Look(t.a, e.p), Look(t.b, e.p))
  }

  /** The first metadata file is written to. */
  ghost predicate Writes1(t: Trio, g: Setting, e: Event) {
    && !e.left
    && (Against1(SeenAt(t, e), Look(t.b, e.p), Look(t.c, e.p))
        || (Mends(t, e) && (Result(t, g, e).SuccessMeta? || Result(t, g, e).SuccessDiffMeta?)))
  }

  /** The second metadata file is written to. */
  ghost predicate Writes2(t: Trio, g: Setting, e: Event) {
    && !e.left
    && (Against2(SeenAt(t, e), Look(t.b, e.p), Look(t.c, e.p))
        || (Mends(t, e) && (Result(t, g, e).SuccessMeta? || Result(t, g, e).SuccessDiffMeta?)))
  }

  /** A directory has come or gone: the list of differences is upset. */
  ghost predicate Upsets(t: Trio, g: Setting, e: Event) {
    !e.left && (VotesDir(t, e) || (Mends(t, e) && Result(t, g, e).Redo()))
  }

  /** A line that is left changes nothing, and no metadata file is outvoted on it. */
  lemma LeftQuiet(t: Trio, g: Setting, e: Event)
    requires Legal(t, g, e) && e.left
    ensures Step(t, g, e) == t && !Outvotes(t, e) && !VotesDir(t, e) && !Mends(t, e)
  {
  }

  ghost predicate Lawful(t: Trio, g: Setting, log: seq<Event>) {
    log != [] ==>
      var n := |log| - 1;
      Lawful(t, g, log[..n]) && Legal(After(t, g, log[..n]), g, log[n])
  }

  /** No metadata file was outvoted on a directory. */
  ghost predicate Calm(t: Trio, g: Setting, log: seq<Event>) {
    log != [] ==>
      var n := |log| - 1;
      Calm(t, g, log[..n]) && !VotesDir(After(t, g, log[..n]), log[n])
  }

  /** The first metadata file was written to. */
  ghost predicate Wrote1(t: Trio, g: Setting, log: seq<Event>) {
    log != [] &&
      var n := |log| - 1;
      Wrote1(t, g, log[..n]) || Writes1(After(t, g, log[..n]), g, log[n])
  }

  /** The second metadata file was written to. */
  ghost predicate Wrote2(t: Trio, g: Setting, log: seq<Event>) {
    log != [] &&
      var n := |log| - 1;
      Wrote2(t, g, log[..n]) || Writes2(After(t, g, log[..n]), g, log[n])
  }

  /** The answers of the user, in their order. */
  ghost function Answers(log: seq<Event>): seq<bool> {
    if log == [] then []
    else
      var n := |log| - 1;
      Answers(log[..n]) + if log[n].answer.Some? then [log[n].answer.value] else []
  }

  /** The user was asked from question `n` on, and has now been asked `m` questions. */
  ghost predicate Heeded(log: seq<Event>, answers: nat -> bool, n: nat, m: nat) {
    m == n + |Answers(log)| && forall i :: 0 <= i < |Answers(log)| ==> Answers(log)[i] == answers(n + i)
  }

  lemma HeededMore(log: seq<Event>, e: Event, answers: nat -> bool, n: nat, m: nat)
    requires Heeded(log, answers, n, m) && (e.answer.Some? ==> e.answer.value == answers(m))
    ensures Heeded(log + [e], answers, n, m + if e.answer.Some? then 1 else 0)
  {
    assert (log + [e])[..|log|] == log;
  }

  /** A metadata file was outvoted at `q`. */
  ghost predicate VotedOn(t: Trio, g: Setting, log: seq<Event>, q: Path) {
    log != [] &&
      var n := |log| - 1;
      VotedOn(t, g, log[..n], q) || (log[n].p == q && Outvotes(After(t, g, log[..n]), log[n]))
  }

  /** The event repairs, or drops what it does not see. */
  ghost predicate Touches(t: Trio, e: Event) {
    Mends(t, e) || (!e.seen && !e.left)
  }

  /** Nothing at or above `q` was repaired or handled without being seen. */
  ghost predicate Aside(t: Trio, g: Setting, log: seq<Event>, q: Path) {
    log != [] ==>
      var n := |log| - 1;
      Aside(t, g, log[..n], q) && (Touches(After(t, g, log[..n]), log[n]) ==> !Under(q, log[n].p))
  }

  /** The backup was outvoted on a link at `q`, and the link was made again. */
  ghost predicate MadeAgain(t: Trio, g: Setting, log: seq<Event>, q: Path) {
    log != [] &&
      var n := |log| - 1;
      var now := After(t, g, log[..n]);
      MadeAgain(t, g, log[..n], q) || (log[n].p == q && Mends(now, log[n]) && Relinks(Look(now.a, q), Look(now.b, q)))
  }

  /** Lawful steps have made all the links `un` again. */
  ghost predicate Remade(t: Trio, g: Setting, log: seq<Event>, un: set<Path>) {
    Lawful(t, g, log) && forall p :: p in un ==> g.fixup && MadeAgain(t, g, log, p)
  }

  lemma {:induction false} MadeNotAside(t: Trio, g: Setting, log: seq<Event>, q: Path)
    requires MadeAgain(t, g, log, q)
    ensures !Aside(t, g, log, q)
  {
    hide Mends, Relinks, After;
    assert Under(q, q);
    if MadeAgain(t, g, log[..|log| - 1], q) { MadeNotAside(t, g, log[..|log| - 1], q); }
  }

  /** The trees have come from `t0` to `t` in lawful steps. */
  ghost predicate History(t0: Trio, g: Setting, log: seq<Event>, t: Trio) {
    Lawful(t0, g, log) && t == After(t0, g, log)
  }

  lemma HistoryStart(t: Trio, g: Setting)
    ensures History(t, g, [], t) && Calm(t, g, [])
  {
  }

  lemma HistoryMore(t0: Trio, g: Setting, log: seq<Event>, t: Trio, e: Event)
    requires History(t0, g, log, t) && Legal(t, g, e)
    ensures History(t0, g, log + [e], Step(t, g, e))
    ensures Calm(t0, g, log + [e]) <==> Calm(t0, g, log) && !VotesDir(t, e)
    ensures Wrote1(t0, g, log + [e]) <==> Wrote1(t0, g, log) || Writes1(t, g, e)
    ensures Wrote2(t0, g, log + [e]) <==> Wrote2(t0, g, log) || Writes2(t, g, e)
  {
    hide Legal, Step, VotesDir, Writes1, Writes2;
    assert (log + [e])[..|log|] == log;
  }

  /** Some line was left as it is. */
  ghost predicate SomeLeft(log: seq<Event>) {
    exists e :: e in log && e.left
  }

  lemma SomeLeftMore(log: seq<Event>, rest: seq<Event>)
    ensures SomeLeft(log + rest) <==> SomeLeft(log) || SomeLeft(rest)
  {
    assert forall e :: e in log + rest <==> e in log || e in rest;
  }

  // ---------- the looks of a scrub ----------

  /**
   * The events from `i` to `j` belong to the lines of one list of differences: a directory comes before what it has.
   */
  ghost predicate OneTurn(log: seq<Event>, i: nat, j: nat)
    requires j <= |log|
  {
    forall k, l :: i <= k < l < j ==> !Under(log[k].p, log[l].p)
  }

  ghost function LastOf(looks: seq<nat>): nat {
    if looks == [] then 0 else looks[|looks| - 1]
  }

  /** Event `k` upsets the list of differences. */
  ghost predicate UpsetAt(t: Trio, g: Setting, log: seq<Event>, k: nat)
    requires k < |log|
  {
    Upsets(After(t, g, log[..k]), g, log[k])
  }

  /** The events from `i` to `j` do not upset the list of differences. */
  ghost predicate Undisturbed(t: Trio, g: Setting, log: seq<Event>, i: nat, j: nat)
    requires j <= |log|
  {
    forall k :: i <= k < j ==> !UpsetAt(t, g, log, k)
  }

  /**
   * The scrub has compared the trees before each of the events `looks`: at the start, and again as soon as an event has
   * upset the list of differences.
   */
  ghost predicate InTurns(t: Trio, g: Setting, log: seq<Event>, looks: seq<nat>)
    decreases |looks|
  {
    var from := LastOf(looks);
    && looks != [] && from <= |log| && OneTurn(log, from, |log|)
    && if |looks| == 1 then from == 0
       else
         var before := LastOf(looks[..|looks| - 1]);
         && before < from && UpsetAt(t, g, log, from - 1) && Undisturbed(t, g, log, before, from - 1)
         && InTurns(t, g, log[..from], looks[..|looks| - 1])
  }

  lemma TurnGoesOn(t: Trio, g: Setting, log0: seq<Event>, log: seq<Event>, looks: seq<nat>)
    requires InTurns(t, g, log0, looks) && LastOf(looks) == |log0| && log0 <= log && OneTurn(log, |log0|, |log|)
    ensures InTurns(t, g, log, looks)
  {
    hide Upsets, OneTurn;
    assert log[..|log0|] == log0 && log0[..|log0|] == log0;
    forall k | 0 <= k < |log0| ensures UpsetAt(t, g, log, k) <==> UpsetAt(t, g, log0, k) {
      assert log[..k] == log0[..k];
    }
  }

  lemma NextTurn(t: Trio, g: Setting, log: seq<Event>, looks: seq<nat>)
    requires InTurns(t, g, log, looks) && LastOf(looks) < |log| && UpsetAt(t, g, log, |log| - 1)
    requires Undisturbed(t, g, log, LastOf(looks), |log| - 1)
    ensures InTurns(t, g, log, looks + [|log|]) && LastOf(looks + [|log|]) == |log|
  {
    hide UpsetAt, Undisturbed, OneTurn;
    assert log[..|log|] == log && (looks + [|log|])[..|looks|] == looks;
    OneTurnEnds(log);
  }

  lemma OneTurnEnds(log: seq<Event>)
    ensures OneTurn(log, |log|, |log|)
  {
  }

  /** One more event of the same list of differences. */
  lemma UndisturbedMore(t0: Trio, g: Setting, log: seq<Event>, t: Trio, e: Event, i: nat)
    requires History(t0, g, log, t) && Undisturbed(t0, g, log, i, |log|)
    ensures Undisturbed(t0, g, log + [e], i, |log|) && (UpsetAt(t0, g, log + [e], |log|) <==> Upsets(t, g, e))
    ensures !Upsets(t, g, e) ==> Undisturbed(t0, g, log + [e], i, |log + [e]|)
  {
    hide Upsets, Lawful, After;
    assert (log + [e])[..|log|] == log;
    forall k | 0 <= k < |log| ensures UpsetAt(t0, g, log + [e], k) <==> UpsetAt(t0, g, log, k) {
      assert (log + [e])[..k] == log[..k];
    }
  }

  // ---------- entries below the path of a step ----------

  lemma LookReplaced(m: Catalog, s: Catalog, p: Path, q: Path)
    ensures Look(Replaced(m, s, p), q) == if Under(q, p) then Look(s, q) else Look(m, q)
  {
  }

  lemma LookCut(m: Catalog, p: Path, q: Path)
    ensures Look(Cut(m, p), q) == if Under(q, p) then None else Look(m, q)
  {
  }

  lemma NoneUnder(m: Catalog, p: Path, q: Path)
    requires WellFormed(m) && p.In? && Under(q, p) && q != p && !IsDirOpt(Look(m, p))
    ensures q !in m
  {
    if q in m { Ancestor(m, q, p); }
  }

  // ---------- a half update has its cause in the start ----------

  /**
   * At `q` backup and first metadata file are as they were at the start, or one of them has no entry or that of the
   * source, or their contents are the same.
   */
  ghost predicate Tame(t0: Trio, t: Trio, s: Catalog, q: Path) {
    var x, y, i := Look(t.a, q), Look(t.b, q), Look(s, q);
    || (x == Look(t0.a, q) && y == Look(t0.b, q))
    || x.None? || y.None? || x == i || y == i || Matched(x, y)
  }

  lemma {:induction false} TameRun(t0: Trio, g: Setting, log: seq<Event>, q: Path)
    requires Lawful(t0, g, log) && WellFormed(g.s)
    ensures Tame(t0, After(t0, g, log), g.s, q)
  {
    hide Legal, Step, Tame;
    if log == [] {
      TameStart(t0, g.s, q);
    } else {
      var n := |log| - 1;
      TameRun(t0, g, log[..n], q);
      TameStep(t0, After(t0, g, log[..n]), g, log[n], q);
    }
  }

  lemma TameStart(t: Trio, s: Catalog, q: Path)
    ensures Tame(t, t, s, q)
  {
  }

  lemma TameStep(t0: Trio, t: Trio, g: Setting, e: Event, q: Path)
    requires Tame(t0, t, g.s, q) && Legal(t, g, e) && WellFormed(g.s)
    ensures Tame(t0, Step(t, g, e), g.s, q)
  {
    hide Corrected, RepairOf, Cut, Reported3, WellFormed, SameOpt, Helpless, Excuse;
    if e.left {
    } else if !e.seen {
      LookCut(t.b, e.p, q);
    } else if Against1(Look(t.a, e.p), Look(t.b, e.p), Look(t.c, e.p))
        && !Against2(Look(t.a, e.p), Look(t.b, e.p), Look(t.c, e.p)) {
      LookCorrected(t.b, t.a, e.p, q);
    } else if Outvoted(t, e.p) && !Against2(Look(t.a, e.p), Look(t.b, e.p), Look(t.c, e.p)) {
      TameRepair(t0, t, g.s, e.p, q);
    }
  }

  lemma TameRepair(t0: Trio, t: Trio, s: Catalog, p: Path, q: Path)
    requires Tame(t0, t, s, q) && Formed(t) && WellFormed(s) && p.In? && Outvoted(t, p)
    ensures Tame(t0, RepairOf(t, s, p), s, q)
  {
    hide RepairOf, Tame, WellFormed;
    if p in t.a && p in t.b { TameDiffering(t0, t, s, p, q); } else { TameMissing(t0, t, s, p, q); }
  }

  lemma TameMissing(t0: Trio, t: Trio, s: Catalog, p: Path, q: Path)
    requires Tame(t0, t, s, q) && WellFormed(t.a) && WellFormed(s) && p.In? && (p in t.b ==> p in t.c)
    requires !(p in t.a && p in t.b)
    ensures Tame(t0, RepairOf(t, s, p), s, q)
  {
    hide Cut, Replaced, WellFormed, Subtree, Merge, MixedResult;
    LookCut(t.a, p, q);
    LookReplaced(t.a, s, p, q);
    LookReplaced(t.b, s, p, q);
    if p !in t.a { AddIsReplace(t.a, s, p); }
  }

  lemma TameDiffering(t0: Trio, t: Trio, s: Catalog, p: Path, q: Path)
    requires Tame(t0, t, s, q) && p in t.a && p in t.b && p in t.c
    ensures Tame(t0, RepairOf(t, s, p), s, q)
  {
    hide Cut, Replaced, Subtree, Merge, CopyResult, AdoptResult;
    LookCut(t.a, p, q);
    LookReplaced(t.a, s, p, q);
    LookReplaced(t.b, s, p, q);
    if SameContent(t.a[p], t.b[p]) { MergeHeals(t.a[p], t.b[p], t.a[p]); }
  }

  /** A half update at the end of a history has been one at its start. */
  lemma HalfFromStart(t0: Trio, g: Setting, log: seq<Event>, t: Trio, q: Path)
    requires History(t0, g, log, t) && WellFormed(g.s) && HalfUpdate(Look(g.s, q), Look(t.a, q), Look(t.b, q))
    ensures HalfUpdate(Look(g.s, q), Look(t0.a, q), Look(t0.b, q))
  {
    hide Lawful, After, Stuck, SameContent;
    TameRun(t0, g, log, q);
    SelfSame(Look(g.s, q).value);
  }

  lemma SelfSame(e: Element)
    ensures Same(e, e)
  {
  }

  // ---------- what both metadata files had at the start ----------

  /** What an outvoted metadata file takes over at `q`, at or below the path of the event. */
  ghost function TakenOver(t: Trio, e: Event, q: Path): Option<Element> {
    if e.seen then Look(t.a, q) else None
  }

  /** Wherever a metadata file was outvoted at or above `q`, the backup had the entry of the first file at `q`. */
  ghost predicate Gentle(t: Trio, g: Setting, log: seq<Event>, q: Path) {
    log != [] ==>
      var n := |log| - 1;
      var now := After(t, g, log[..n]);
      && Gentle(t, g, log[..n], q)
      && (Outvotes(now, log[n]) && Under(q, log[n].p) ==> TakenOver(now, log[n], q) == Look(now.b, q))
  }

  /**
   * A vote makes the metadata files differ at a path on which they had the same entry just when it is a vote at or
   * above the path and the backup does not have that entry.
   */
  lemma VoteSplits(t: Trio, g: Setting, e: Event, q: Path)
    requires Legal(t, g, e) && Outvotes(t, e) && Look(t.b, q) == Look(t.c, q)
    ensures Look(Step(t, g, e).b, q) != Look(Step(t, g, e).c, q) <==>
              Under(q, e.p) && TakenOver(t, e, q) != Look(t.b, q)
  {
    hide Corrected, RepairOf, Cut, Reported3, WellFormed, Helpless;
    if e.left { LeftQuiet(t, g, e); }
    LookCut(t.b, e.p, q);
    LookCut(t.c, e.p, q);
    LookCorrected(t.b, t.a, e.p, q);
    LookCorrected(t.c, t.a, e.p, q);
    if !e.seen && Under(q, e.p) && q != e.p {
      if e.p !in t.b { NoneUnder(t.b, e.p, q); }
      if e.p !in t.c { NoneUnder(t.c, e.p, q); }
    }
  }

  /**
   * Where both metadata files had the same entry at the start, they go on having the same entry, and no vote takes
   * place, whatever is repaired in between, as long as no directory above is voted on while the backup has another
   * entry.
   */
  lemma {:induction false} SparedRun(t0: Trio, g: Setting, log: seq<Event>, q: Path)
    requires Lawful(t0, g, log) && Gentle(t0, g, log, q) && Look(t0.b, q) == Look(t0.c, q)
    ensures Look(After(t0, g, log).b, q) == Look(After(t0, g, log).c, q) && !VotedOn(t0, g, log, q)
  {
    hide Legal, Step, Outvotes, TakenOver;
    if log != [] {
      var n := |log| - 1;
      SparedRun(t0, g, log[..n], q);
      SparedStep(After(t0, g, log[..n]), g, log[n], q);
    }
  }

  lemma SparedStep(t: Trio, g: Setting, e: Event, q: Path)
    requires Legal(t, g, e) && Look(t.b, q) == Look(t.c, q)
    requires Outvotes(t, e) && Under(q, e.p) ==> TakenOver(t, e, q) == Look(t.b, q)
    ensures Look(Step(t, g, e).b, q) == Look(Step(t, g, e).c, q)
    ensures Outvotes(t, e) ==> e.p != q
  {
    hide Corrected, RepairOf, Cut, Reported3, WellFormed, Helpless;
    if Outvotes(t, e) {
      VoteSplits(t, g, e, q);
    } else if !e.left {
      BothRepaired(t, g.s, e.p, q);
    }
  }

  /** Votes on other things than directories are gentle to what both files have alike. */
  lemma {:induction false} CalmGentle(t0: Trio, g: Setting, log: seq<Event>, q: Path)
    requires Lawful(t0, g, log) && Calm(t0, g, log) && Look(t0.b, q) == Look(t0.c, q)
    ensures Gentle(t0, g, log, q)
  {
    hide Legal, Step, Outvotes, VotesDir, TakenOver;
    if log != [] {
      var n := |log| - 1;
      CalmGentle(t0, g, log[..n], q);
      SparedRun(t0, g, log[..n], q);
      var now := After(t0, g, log[..n]);
      if Outvotes(now, log[n]) && Under(q, log[n].p) { CalmStep(now, g, log[n], q); }
    }
  }

  lemma CalmStep(t: Trio, g: Setting, e: Event, q: Path)
    requires Legal(t, g, e) && !VotesDir(t, e) && Look(t.b, q) == Look(t.c, q) && Outvotes(t, e) && Under(q, e.p)
    ensures TakenOver(t, e, q) == Look(t.b, q)
  {
    hide Reported3, WellFormed, Helpless;
    if q != e.p {
      if e.seen && !IsDirOpt(Look(t.a, e.p)) { NoneUnder(t.a, e.p, q); }
      if !IsDirOpt(Look(t.b, e.p)) { NoneUnder(t.b, e.p, q); }
      if !IsDirOpt(Look(t.c, e.p)) { NoneUnder(t.c, e.p, q); }
    }
  }

  /** A vote on something else than a directory changes one entry of one metadata file. */
  lemma VoteQuiet(t: Trio, g: Setting, e: Event, q: Path)
    requires Formed(t) && e.p.In? && !e.left && Outvotes(t, e) && !VotesDir(t, e)
    ensures Step(t, g, e).a == t.a
    ensures q != e.p ==> Look(Step(t, g, e).b, q) == Look(t.b, q) && Look(Step(t, g, e).c, q) == Look(t.c, q)
    ensures e.seen ==> VotedAt(t, Step(t, g, e), e.p)
    ensures !IsDirOpt(Look(Step(t, g, e).b, e.p)) || Look(Step(t, g, e).b, e.p) == Look(t.b, e.p)
    ensures !IsDirOpt(Look(Step(t, g, e).c, e.p)) || Look(Step(t, g, e).c, e.p) == Look(t.c, e.p)
  {
    hide Corrected, RepairOf, Cut, WellFormed;
    var x, y, z := SeenAt(t, e), Look(t.b, e.p), Look(t.c, e.p);
    LookCut(t.b, e.p, q);
    LookCut(t.c, e.p, q);
    LookCut(t.b, e.p, e.p);
    LookCut(t.c, e.p, e.p);
    LookCorrected(t.b, t.a, e.p, q);
    LookCorrected(t.c, t.a, e.p, q);
    LookCorrected(t.b, t.a, e.p, e.p);
    LookCorrected(t.c, t.a, e.p, e.p);
    if Under(q, e.p) && q != e.p {
      if e.seen && !IsDirOpt(x) { NoneUnder(t.a, e.p, q); }
      if !IsDirOpt(y) { NoneUnder(t.b, e.p, q); }
      if !IsDirOpt(z) { NoneUnder(t.c, e.p, q); }
    }
  }

  lemma BothRepaired(t: Trio, s: Catalog, p: Path, q: Path)
    requires Formed(t) && p.In? && Outvoted(t, p) && Look(t.b, q) == Look(t.c, q)
    ensures Look(RepairOf(t, s, p).b, q) == Look(RepairOf(t, s, p).c, q)
  {
    hide Cut, Replaced, WellFormed, Subtree, Merge;
    LookReplaced(t.b, s, p, q);
    LookReplaced(t.c, s, p, q);
  }

  // ---------- where nothing was repaired, the vote decides ----------

  /** The directories that have `q` in one of the trees are those of the start. */
  ghost predicate SamePlace(t0: Trio, t: Trio, q: Path) {
    (IsDir(t.a, q) <==> IsDir(t0.a, q)) && (IsDir(t.b, q) <==> IsDir(t0.b, q)) && (IsDir(t.c, q) <==> IsDir(t0.c, q))
  }

  ghost predicate Untouched(t0: Trio, t: Trio, q: Path) {
    Look(t.a, q) == Look(t0.a, q) && Look(t.b, q) == Look(t0.b, q) && Look(t.c, q) == Look(t0.c, q)
  }

  ghost predicate ReportedAt(t: Trio, q: Path) {
    Reported3(t.a, t.b, t.c, ALL, q)
  }

  /**
   * Where nothing at or above was repaired, an entry is that of the start or was decided by a vote on a reported line.
   */
  lemma {:induction false} PolledRun(t0: Trio, g: Setting, log: seq<Event>, q: Path)
    requires Lawful(t0, g, log) && Calm(t0, g, log) && Aside(t0, g, log, q) && q.In?
    ensures SamePlace(t0, After(t0, g, log), q) && SamePlace(t0, After(t0, g, log), q.dir)
    ensures Untouched(t0, After(t0, g, log), q) || (VotedAt(t0, After(t0, g, log), q) && ReportedAt(t0, q))
  {
    hide Legal, Step, VotesDir, Touches, SamePlace, Untouched, VotedAt, ReportedAt;
    if log == [] {
      PolledStart(t0, q);
    } else {
      var n := |log| - 1;
      PolledRun(t0, g, log[..n], q);
      PolledOne(t0, After(t0, g, log[..n]), g, log[n], q);
    }
  }

  lemma PolledStart(t: Trio, q: Path)
    requires q.In?
    ensures SamePlace(t, t, q) && SamePlace(t, t, q.dir) && Untouched(t, t, q)
  {
  }

  lemma PolledOne(t0: Trio, t: Trio, g: Setting, e: Event, q: Path)
    requires Legal(t, g, e) && !VotesDir(t, e) && (Touches(t, e) ==> !Under(q, e.p)) && q.In?
    requires SamePlace(t0, t, q) && SamePlace(t0, t, q.dir)
    requires Untouched(t0, t, q) || (VotedAt(t0, t, q) && ReportedAt(t0, q))
    ensures SamePlace(t0, Step(t, g, e), q) && SamePlace(t0, Step(t, g, e), q.dir)
    ensures Untouched(t0, Step(t, g, e), q) || (VotedAt(t0, Step(t, g, e), q) && ReportedAt(t0, q))
  {
    hide Step, VotesDir, Mends, Outvotes, RepairOf, WellFormed, Helpless, SameOpt;
    if e.left {
      LeftQuiet(t, g, e);
    } else if Outvotes(t, e) {
      VoteQuiet(t, g, e, q);
      VoteQuiet(t, g, e, q.dir);
      VoteOnce(t0, t, g, e, q);
      VotePlace(t, g, e, q);
      VotePlace(t, g, e, q.dir);
    } else {
      MendAside(t, g, e, q);
      MendAside(t, g, e, q.dir);
    }
  }

  /** A path is voted on once: after the vote all three agree. */
  lemma VoteOnce(t0: Trio, t: Trio, g: Setting, e: Event, q: Path)
    requires Legal(t, g, e) && !e.left && Outvotes(t, e) && !VotesDir(t, e) && (!e.seen ==> !Under(q, e.p)) && q.In?
    requires SamePlace(t0, t, q.dir) && (Untouched(t0, t, q) || (VotedAt(t0, t, q) && ReportedAt(t0, q)))
    ensures Untouched(t0, Step(t, g, e), q) || (VotedAt(t0, Step(t, g, e), q) && ReportedAt(t0, q))
  {
    hide Step, RepairOf, WellFormed, Helpless, SameContent;
    VoteQuiet(t, g, e, q);
  }

  lemma VotePlace(t: Trio, g: Setting, e: Event, r: Path)
    requires Formed(t) && e.p.In? && !e.left && Outvotes(t, e) && !VotesDir(t, e)
    ensures SamePlace(t, Step(t, g, e), r)
  {
    hide RepairOf, Corrected, Cut, WellFormed;
    VoteQuiet(t, g, e, r);
    LookCut(t.b, e.p, e.p);
    LookCut(t.c, e.p, e.p);
    LookCorrected(t.b, t.a, e.p, e.p);
    LookCorrected(t.c, t.a, e.p, e.p);
    assert forall m: Catalog :: IsDir(m, r) <==> r == Top || IsDirOpt(Look(m, r));
  }

  lemma MendAside(t: Trio, g: Setting, e: Event, q: Path)
    requires Formed(t) && e.p.In? && Mends(t, e) && !Under(q, e.p)
    ensures Untouched(t, Step(t, g, e), q) && SamePlace(t, Step(t, g, e), q)
  {
    hide RepairOf, Corrected, WellFormed, SameOpt, Outvotes;
    RepairAside(t, g.s, e.p, q);
    Mended(t, g, e);
    UntouchedPlace(t, Step(t, g, e), q);
  }

  /** An event that mends is the repair. */
  lemma Mended(t: Trio, g: Setting, e: Event)
    requires Mends(t, e)
    ensures Step(t, g, e) == RepairOf(t, g.s, e.p)
  {
    hide RepairOf, Corrected;
  }

  lemma UntouchedPlace(t: Trio, t': Trio, q: Path)
    requires Untouched(t, t', q)
    ensures SamePlace(t, t', q)
  {
    assert forall m: Catalog :: IsDir(m, q) <==> q == Top || IsDirOpt(Look(m, q));
  }

  /** A repair changes nothing that is not at or below its path. */
  lemma RepairAside(t: Trio, s: Catalog, p: Path, q: Path)
    requires Formed(t) && p.In? && Outvoted(t, p) && !Under(q, p)
    ensures Untouched(t, RepairOf(t, s, p), q)
  {
    hide RepairOf, Untouched, WellFormed;
    if p in t.a && p in t.b { DifferingAside(t, s, p, q); } else { MissingAside(t, s, p, q); }
  }

  lemma MissingAside(t: Trio, s: Catalog, p: Path, q: Path)
    requires WellFormed(t.a) && p.In? && (p in t.b ==> p in t.c) && !(p in t.a && p in t.b) && !Under(q, p)
    ensures Untouched(t, RepairOf(t, s, p), q)
  {
    hide Cut, Replaced, WellFormed, Subtree, Merge, SameContent, Same, MixedResult;
    LookCut(t.a, p, q);
    LookReplaced(t.a, s, p, q);
    LookReplaced(t.b, s, p, q);
    LookReplaced(t.c, s, p, q);
    if p !in t.a { AddIsReplace(t.a, s, p); }
  }

  lemma DifferingAside(t: Trio, s: Catalog, p: Path, q: Path)
    requires p in t.a && p in t.b && p in t.c && !Under(q, p)
    ensures Untouched(t, RepairOf(t, s, p), q)
  {
    hide Cut, Replaced, Subtree, Merge, SameContent, Same, CopyResult, AdoptResult;
    LookCut(t.a, p, q);
    LookReplaced(t.a, s, p, q);
    LookReplaced(t.b, s, p, q);
    LookReplaced(t.c, s, p, q);
  }

  /** A step changes nothing that is not at or below its path. */
  lemma StepBeside(t: Trio, g: Setting, e: Event, q: Path)
    requires Legal(t, g, e) && !Under(q, e.p)
    ensures Untouched(t, Step(t, g, e), q)
  {
    hide WellFormed, Helpless, Reported3, Corrected, Cut, RepairOf, SameOpt;
    LookCut(t.b, e.p, q);
    LookCut(t.c, e.p, q);
    LookCorrected(t.b, t.a, e.p, q);
    LookCorrected(t.c, t.a, e.p, q);
    if Mends(t, e) { MendAside(t, g, e, q); }
  }

  /** What the vote of the start decides: a reported entry is voted on, any other stays as it is. */
  ghost predicate Decided(t0: Trio, t: Trio, q: Path) {
    if ReportedAt(t0, q) then VotedAt(t0, t, q) else Look(t.b, q) == Look(t0.b, q) && Look(t.c, q) == Look(t0.c, q)
  }

  /**
   * If no line is left on which a metadata file is outvoted, the vote of the start has decided everything aside of
   * repairs.
   */
  lemma DecidedRun(t0: Trio, g: Setting, log: seq<Event>, t: Trio, q: Path)
    requires History(t0, g, log, t) && Calm(t0, g, log) && Aside(t0, g, log, q) && q.In?
    requires ReportedAt(t, q) ==> Look(t.b, q) == Look(t.c, q) || Excused(t, g, q)
    ensures Decided(t0, t, q)
  {
    hide Lawful, Calm, Aside, After, Helpless, Asked, SameContent;
    PolledRun(t0, g, log, q);
  }
}
