/**
 * What a query re-reads to bring its scope up to date, and what that leaves.
 *
 * The cheap re-read looks at the recorded files and directories only. The main
 * result says exactly when it leaves the index a full refresh would leave.
 */
module Freshen {
  import opened Common
  import opened SourceTree
  import opened IndexSpec
  import opened RefreshLaws

  /** A scope `s` of an index `ix`, the disk when it was built (`d0`) and the disk now (`d`). */
  datatype Change = Change(r: Rules, d0: Disk, d: Disk, s: Path, ix: Ix)

  /**
   * Every change moved a size or a time: same size and time, same bytes; same
   * time, same listing with the same kinds of entries.
   */
  ghost predicate TimesMove(c: Change) {
    && (forall p :: IsFile(c.d0, p) && IsFile(c.d, p) ==> SameBytes(c.d0[p], c.d[p]))
    && (forall q :: IsDir(c.d0, q) && q in c.d && c.d[q].mtime == c.d0[q].mtime ==> SameListing(c, q))
  }

  predicate SameBytes(was: Entry, now: Entry)
    requires was.File? && now.File?
  {
    |was.bytes| == |now.bytes| && was.mtime == now.mtime ==> was.bytes == now.bytes
  }

  ghost predicate SameListing(c: Change, q: Path) {
    IsDir(c.d, q) && forall x: Path :: x.In? && x.parent == q ==> SameKind(c, x)
  }

  predicate SameKind(c: Change, x: Path) {
    (IsFile(c.d0, x) <==> IsFile(c.d, x)) && (IsDir(c.d0, x) <==> IsDir(c.d, x))
  }

  /** The index was complete for the scope when it was built, or holds nothing of it. */
  ghost predicate Built(c: Change) {
    || Complete(c.r, c.d0, c.ix, c.s)
    || (c.s.In? && forall p :: Under(c.s, p) ==> p !in c.ix.rows && p !in c.ix.dirs)
  }

  ghost predicate Given(c: Change) {
    && ValidDisk(c.d0) && ValidDisk(c.d) && TimesMove(c) && Built(c)
    && (c.s.Root? ==> IsDir(c.d0, c.s))
    && (forall p :: c.r.keeps(p) ==> c.r.source(p))
    && (forall p :: p in c.ix.rows ==> c.r.text(c.ix.rows[p].hash))
  }

  // ---- what differs ----

  predicate FileDiffers(c: Change, p: Path) {
    p in c.ix.rows && Under(c.s, p) &&
    !(IsFile(c.d, p) && FactsOf(c.d, p).size == c.ix.rows[p].size && c.d[p].mtime == c.ix.rows[p].mtime)
  }

  predicate DirDiffers(c: Change, q: Path) {
    q in c.ix.dirs && Under(c.s, q) && !(q in c.d && c.d[q].mtime == c.ix.dirs[q])
  }

  /** The scope itself is not recorded at all. */
  predicate Unrecorded(c: Change) { c.s.In? && c.s !in c.ix.rows && c.s !in c.ix.dirs }

  predicate DirTarget(c: Change, q: Path) {
    DirDiffers(c, q) || (q == c.s && Unrecorded(c) && IsDir(c.d, q))
  }

  predicate ChangedFile(c: Change, p: Path) {
    FileDiffers(c, p) || (p == c.s && Unrecorded(c) && IsFile(c.d, p) && c.r.source(p))
  }

  /** A changed file that no changed directory's listing covers. */
  predicate LoneTarget(c: Change, p: Path) {
    ChangedFile(c, p) && !(p.In? && DirTarget(c, p.parent))
  }

  // ---- what the re-read leaves ----

  /** The root is re-read, and its query leaves `p` or a directory above it to no row of its own: it is walked anew. */
  predicate WalkedAnew(c: Change, p: Path) { DirTarget(c, Root) && BelowBeyond(p) }

  /**
   * A file that was there and not indexed, for its size or its bytes, and now is
   * to be: no row of its own to compare, and its directory's time did not move.
   */
  predicate Missed(c: Change, p: Path) {
    && p.In? && p != c.s && p.parent in c.ix.dirs && !DirDiffers(c, p.parent) && !WalkedAnew(c, p)
    && p !in c.ix.rows && Want(c.r, c.d, c.s, p).Some?
  }

  /**
   * A root file whose row the root's re-read does not ask for, and which is to have
   * none any more: the row is compared with nothing and stays.
   */
  predicate Stale(c: Change, p: Path) {
    DirTarget(c, Root) && Beyond(p) && p in c.ix.rows && Want(c.r, c.d, c.s, p).None?
  }

  /**
   * A recorded directory that is now a source file its listing leaves out: as the
   * start of a re-read it is not held to what its listing leaves out.
   */
  predicate Clash(c: Change, p: Path) {
    && p != c.s && p in c.ix.dirs && Under(c.s, p)
    && c.r.source(p) && !c.r.keeps(p) && Indexable(c.r, c.d, p)
  }

  function Left(c: Change, p: Path): Option<Facts> {
    if Missed(c, p) then None
    else if Clash(c, p) then Some(FactsOf(c.d, p))
    else if Stale(c, p) then Some(c.ix.rows[p])
    else Want(c.r, c.d, c.s, p)
  }

  function DirLeft(c: Change, q: Path): Option<int> {
    if Visited(c.r, c.d, c.s, q) then Some(c.d[q].mtime) else None
  }

  // ---- facts about the recorded state ----

  lemma RowWasThere(c: Change, p: Path)
    requires Given(c) && Under(c.s, p) && p in c.ix.rows
    ensures Candidate(c.r, c.d0, c.s, p) && Indexable(c.r, c.d0, p) && c.ix.rows[p] == FactsOf(c.d0, p)
    ensures p != c.s ==> p.In? && p.parent in c.ix.dirs
    ensures p !in c.ix.dirs
  {
    assert At(c.ix.rows, p) == Want(c.r, c.d0, c.s, p);
    assert At(c.ix.dirs, p).Some? <==> Visited(c.r, c.d0, c.s, p);
    if p != c.s {
      VisitedIsUnder(c.r, c.d0, c.s, p.parent);
      assert At(c.ix.dirs, p.parent) == Some(c.d0[p.parent].mtime);
    }
  }

  lemma DirWasThere(c: Change, q: Path)
    requires Given(c) && Under(c.s, q) && q in c.ix.dirs
    ensures Visited(c.r, c.d0, c.s, q) && c.ix.dirs[q] == c.d0[q].mtime && q !in c.ix.rows
    ensures !DirDiffers(c, q) ==> SameListing(c, q)
  {
    assert At(c.ix.dirs, q) == if Visited(c.r, c.d0, c.s, q) then Some(c.d0[q].mtime) else None;
    assert At(c.ix.rows, q) == Want(c.r, c.d0, c.s, q);
  }

  lemma RootIsRecorded(c: Change)
    requires Given(c)
    ensures c.s.Root? ==> c.s in c.ix.dirs
  {
    if c.s.Root? {
      assert Under(c.s, c.s);
      assert At(c.ix.dirs, c.s).Some?;
    }
  }

  /** Recorded directories are recorded all the way up to the scope. */
  lemma RecordedAbove(c: Change, m: Path, q: Path)
    requires Given(c) && Under(c.s, m) && Under(m, q) && q in c.ix.dirs
    ensures m in c.ix.dirs
  {
    UnderTransitive(c.s, m, q);
    DirWasThere(c, q);
    VisitedBetween(c.r, c.d0, c.s, m, q);
    assert At(c.ix.dirs, m) == Some(c.d0[m].mtime);
  }

  /** A directory that was visited and is still a directory is visited now. */
  lemma {:induction false} StillVisited(c: Change, q: Path)
    requires Given(c) && Visited(c.r, c.d0, c.s, q) && IsDir(c.d, q)
    ensures Visited(c.r, c.d, c.s, q)
  {
    if q != c.s { StillVisited(c, q.parent); }
  }

  lemma SubdirIsRecorded(c: Change, u: Path)
    requires Given(c) && Under(c.s, u) && u != c.s && u.parent in c.ix.dirs && c.r.enters(u)
    ensures IsDir(c.d0, u) ==> u in c.ix.dirs
  {
    DirWasThere(c, u.parent);
    assert At(c.ix.dirs, u).Some? <==> Visited(c.r, c.d0, c.s, u);
  }

  lemma EntryChanged(c: Change, x: Path)
    requires Given(c) && Under(c.s, x) && x != c.s && x.parent in c.ix.dirs && !SameKind(c, x)
    ensures DirDiffers(c, x.parent)
  {
    if !DirDiffers(c, x.parent) {
      DirWasThere(c, x.parent);
      assert false;
    }
  }

  // ---- progress through the targets ----

  predicate IsTarget(c: Change, t: Path) { DirTarget(c, t) || LoneTarget(c, t) }

  /** What the re-read of a target settles: its own entries, and whole new subdirectories. */
  predicate NewBelow(c: Change, t: Path, p: Path) {
    Under(t, p) && p != t && Step(t, p) !in c.ix.dirs
  }

  /** A file to be indexed that had no row and is found by the root's re-read, below a directory it walks anew. */
  predicate FoundAnew(c: Change, t: Path, p: Path) {
    t.Root? && BelowBeyond(p) && p !in c.ix.rows && Want(c.r, c.d, c.s, p).Some?
  }

  predicate Claims(c: Change, t: Path, p: Path) {
    if DirTarget(c, t) then p == t || (p.In? && p.parent == t) || NewBelow(c, t, p) || FoundAnew(c, t, p)
    else Under(t, p)
  }

  predicate ClaimsDir(c: Change, t: Path, q: Path) {
    if DirTarget(c, t) then q == t || NewBelow(c, t, q) else Under(t, q)
  }

  ghost predicate RowOk(c: Change, now: Ix, todo: set<Path>, p: Path) {
    || At(now.rows, p) == Left(c, p)
    || (At(now.rows, p) == At(c.ix.rows, p) && exists t :: t in todo && Claims(c, t, p))
  }

  ghost predicate DirOk(c: Change, now: Ix, todo: set<Path>, q: Path) {
    || At(now.dirs, q) == DirLeft(c, q)
    || (At(now.dirs, q) == At(c.ix.dirs, q) && exists t :: t in todo && ClaimsDir(c, t, q))
  }

  /** Only targets are left, and with a directory those below it. */
  ghost predicate TodoOk(c: Change, todo: set<Path>) {
    && (forall t :: t in todo ==> IsTarget(c, t))
    && (forall t, u :: t in todo && DirTarget(c, t) && DirTarget(c, u) && Under(t, u) ==> u in todo)
  }

  /** A directory the scope's walk visits, with all that is below it as it is to be. */
  ghost predicate SettledBelow(c: Change, now: Ix, x: Path) {
    && Visited(c.r, c.d, c.s, x)
    && (forall p :: Under(x, p) && p != x ==> At(now.rows, p) == Left(c, p))
    && (forall q :: Under(x, q) ==> At(now.dirs, q) == DirLeft(c, q))
  }

  /** A child that was recorded meanwhile, of a directory still to be re-read, is settled. */
  ghost predicate NewChildrenSettled(c: Change, now: Ix, todo: set<Path>) {
    forall x: Path :: x in now.dirs && x.In? && x.parent in todo && DirTarget(c, x.parent) && x !in c.ix.dirs ==>
      SettledBelow(c, now, x)
  }

  ghost predicate OutsideKept(c: Change, now: Ix) {
    && (forall p :: !Under(c.s, p) ==> At(now.rows, p) == At(c.ix.rows, p))
    && (forall q :: !Under(c.s, q) ==> At(now.dirs, q) == At(c.ix.dirs, q))
  }

  ghost predicate Progress(c: Change, now: Ix, todo: set<Path>) {
    && TodoOk(c, todo)
    && (forall p :: Under(c.s, p) ==> RowOk(c, now, todo, p))
    && (forall q :: Under(c.s, q) ==> DirOk(c, now, todo, q))
    && NewChildrenSettled(c, now, todo)
    && OutsideKept(c, now)
  }

  // ---- at the start ----

  /** A directory to be visited that is not recorded is new below some target. */
  lemma {:induction false} NewDirHasTarget(c: Change, u: Path) returns (t: Path)
    requires Given(c) && Visited(c.r, c.d, c.s, u) && u !in c.ix.dirs
    ensures IsTarget(c, t) && ClaimsDir(c, t, u) && Under(t, u)
    ensures DirTarget(c, t) && u == t ==> t !in c.ix.dirs
  {
    if u == c.s {
      t := u;
      RootIsRecorded(c);
      if u in c.ix.rows {
        assert FileDiffers(c, u);
        NotAboveScope(c, u);
      }
    } else {
      VisitedIsUnder(c.r, c.d, c.s, u.parent);
      if u.parent in c.ix.dirs {
        t := u.parent;
        DirWasThere(c, t);
        SubdirIsRecorded(c, u);
        EntryChanged(c, u);
        NewBelowChild(c, t, u);
      } else {
        t := NewDirHasTarget(c, u.parent);
        if DirTarget(c, t) { NewBelowChild(c, t, u); }
      }
    }
  }

  lemma NewBelowChild(c: Change, t: Path, u: Path)
    requires u.In? && Under(t, u.parent)
    requires if u.parent == t then u !in c.ix.dirs else NewBelow(c, t, u.parent)
    ensures NewBelow(c, t, u)
  {
    UnderDepth(t, u.parent);
  }

  lemma NotAboveScope(c: Change, p: Path)
    requires p == c.s && p.In?
    ensures !DirTarget(c, p.parent)
  {
    if Under(p, p.parent) { UnderDepth(p, p.parent); }
  }

  /** A recorded row is right, or some target stands for it. */
  lemma HeldAtStart(c: Change, todo: set<Path>, p: Path)
    requires Given(c) && Under(c.s, p) && (forall t :: t in todo <==> IsTarget(c, t)) && p in c.ix.rows
    ensures RowOk(c, c.ix, todo, p)
  {
    RowWasThere(c, p);
    if FileDiffers(c, p) {
      var t := if p.In? && DirTarget(c, p.parent) then p.parent else p;
      assert t in todo && Claims(c, t, p);
    } else {
      assert SameBytes(c.d0[p], c.d[p]);
      if p != c.s {
        StillVisited(c, p.parent);
      }
      assert Left(c, p) == Some(FactsOf(c.d, p));
    }
  }

  /** A file without a row that is to get one: some target stands for it. */
  lemma WantedHasTarget(c: Change, p: Path) returns (t: Path)
    requires Given(c) && Under(c.s, p) && p !in c.ix.rows && !Missed(c, p) && Want(c.r, c.d, c.s, p).Some?
    ensures IsTarget(c, t) && Claims(c, t, p)
  {
    if p == c.s {
      t := p;
      if p in c.ix.dirs {
        DirWasThere(c, p);
      } else {
        RootIsRecorded(c);
        NotAboveScope(c, p);
      }
    } else {
      VisitedIsUnder(c.r, c.d, c.s, p.parent);
      if p.parent !in c.ix.dirs {
        t := NewDirHasTarget(c, p.parent);
      } else if DirDiffers(c, p.parent) {
        t := p.parent;
      } else {
        t := Root;
      }
    }
  }

  lemma RowsAtStart(c: Change, todo: set<Path>, p: Path)
    requires Given(c) && Under(c.s, p) && (forall t :: t in todo <==> IsTarget(c, t))
    ensures RowOk(c, c.ix, todo, p)
  {
    if p in c.ix.rows {
      HeldAtStart(c, todo, p);
    } else if Clash(c, p) {
      DirWasThere(c, p);
      assert DirTarget(c, p);
      assert p in todo && Claims(c, p, p);
    } else if Left(c, p).Some? {
      var t := WantedHasTarget(c, p);
      assert t in todo;
    }
  }

  lemma DirsAtStart(c: Change, todo: set<Path>, q: Path)
    requires Given(c) && Under(c.s, q) && (forall t :: t in todo <==> IsTarget(c, t))
    ensures DirOk(c, c.ix, todo, q)
  {
    if q in c.ix.dirs {
      DirWasThere(c, q);
      if DirDiffers(c, q) {
        assert q in todo && ClaimsDir(c, q, q);
      } else {
        StillVisited(c, q);
      }
    } else if Visited(c.r, c.d, c.s, q) {
      var t := NewDirHasTarget(c, q);
      assert t in todo;
    }
  }

  lemma ProgressAtStart(c: Change, todo: set<Path>)
    requires Given(c) && (forall t :: t in todo <==> IsTarget(c, t))
    ensures Progress(c, c.ix, todo)
  {
    forall p | Under(c.s, p) ensures RowOk(c, c.ix, todo, p) { RowsAtStart(c, todo, p); }
    forall q | Under(c.s, q) ensures DirOk(c, c.ix, todo, q) { DirsAtStart(c, todo, q); }
  }

  // ---- one directory target ----

  /** The only child of `t` above `p` is the step towards `p`. */
  lemma {:induction false} StepIsUnique(t: Path, x: Path, p: Path)
    requires x.In? && x.parent == t && Under(x, p)
    ensures Under(t, p) && p != t && Step(t, p) == x
  {
    if p != x {
      StepIsUnique(t, x, p.parent);
    }
    UnderDepth(x, p);
  }

  lemma StepFacts(c: Change, t: Path, p: Path)
    requires Given(c) && Under(c.s, t) && Under(t, p) && p != t
    ensures var x := Step(t, p); Under(c.s, x) && Under(c.s, p) && x != c.s
    ensures p in c.ix.dirs ==> Step(t, p) in c.ix.dirs
    ensures p in c.ix.rows && p.parent != t ==> Step(t, p) in c.ix.dirs
  {
    var x := Step(t, p);
    assert Under(c.s, x);
    UnderTransitive(c.s, x, p);
    UnderDepth(c.s, t);
    UnderDepth(t, x);
    UnderDepth(c.s, x);
    if p in c.ix.dirs {
      RecordedAbove(c, x, p);
    }
    if p in c.ix.rows && p.parent != t {
      RowWasThere(c, p);
      UnderDepth(x, p);
      RecordedAbove(c, x, p.parent);
    }
  }

  /** The rows under a scope keep telling the truth about the disk while targets are re-read. */
  lemma HeldIsHonest(c: Change, now: Ix, todo: set<Path>, p: Path)
    requires Given(c) && Progress(c, now, todo) && Under(c.s, p) && p in now.rows
    ensures HonestRow(c.r, c.d, now.rows[p], p)
  {
    assert RowOk(c, now, todo, p);
    if At(now.rows, p) == At(c.ix.rows, p) {
      RowWasThere(c, p);
      if IsFile(c.d, p) { assert SameBytes(c.d0[p], c.d[p]); }
    }
  }

  /** A target that is a directory now is one a walk of the scope visits. */
  lemma TargetIsVisited(c: Change, t: Path)
    requires Given(c) && DirTarget(c, t) && IsDir(c.d, t)
    ensures Visited(c.r, c.d, c.s, t)
  {
    if t in c.ix.dirs {
      DirWasThere(c, t);
      StillVisited(c, t);
    }
  }

  /** Below a directory target, a walk of the target and a walk of the scope agree, recorded children aside. */
  lemma {:induction false} WalksAgree(c: Change, t: Path, known: set<Path>, q: Path)
    requires Given(c) && DirTarget(c, t) && Under(t, q)
    requires forall k :: k in known ==> k.In? && k.parent == t
    requires q != t ==> Step(t, q) !in known
    ensures VisitedPast(c.r, c.d, t, known, q) <==> Visited(c.r, c.d, c.s, q)
  {
    if q == t {
      if IsDir(c.d, t) { TargetIsVisited(c, t); }
    } else {
      StepFacts(c, t, q);
      UnderDepth(t, q.parent);
      UnderDepth(c.s, t);
      if q in known {
        StepIsUnique(t, q, q);
      }
      WalksAgree(c, t, known, q.parent);
    }
  }

  /** What is below a known child is not walked. */
  lemma {:induction false} KnownIsNotWalked(r: Rules, d: Disk, t: Path, known: set<Path>, q: Path)
    requires Under(t, q) && q != t && Step(t, q) in known
    ensures !VisitedPast(r, d, t, known, q)
  {
    if q.parent != t {
      KnownIsNotWalked(r, d, t, known, q.parent);
    }
  }

  /** The time of a directory below a recorded child of the target. */
  lemma DirBelowKnown(c: Change, now: Ix, todo: set<Path>, t: Path, after: Ix, q: Path)
    requires Given(c) && Progress(c, now, todo) && t in todo && DirTarget(c, t) && Under(c.s, q)
    requires Under(t, q) && q != t && Step(t, q) in Known(now, t, true)
    requires At(after.dirs, q) == DirAfter(c.r, c.d, now, Job(t, true, false), true, q)
    ensures DirOk(c, after, todo - {t}, q)
  {
    var known, x := Known(now, t, true), Step(t, q);
    StepFacts(c, t, q);
    KnownIsNotWalked(c.r, c.d, t, known, q);
    OnlyStepVanishes(c, t, known, q);
    UnderDepth(c.s, t);
    if x !in c.ix.dirs {
      assert SettledBelow(c, now, x);
    } else if Vanished(c.r, c.d, t, known, x) {
      assert UnderVanished(c.r, c.d, t, known, q);
      if Visited(c.r, c.d, c.s, q) { ThroughStep(c, t, q); }
    } else {
      assert DirOk(c, now, todo, q);
    }
  }

  /** The directory's time after its target was re-read. */
  lemma DirAfterTarget(c: Change, now: Ix, todo: set<Path>, t: Path, after: Ix, q: Path)
    requires Given(c) && Progress(c, now, todo) && t in todo && DirTarget(c, t) && Under(c.s, q)
    requires At(after.dirs, q) == DirAfter(c.r, c.d, now, Job(t, true, false), true, q)
    ensures DirOk(c, after, todo - {t}, q)
  {
    assert DirOk(c, now, todo, q);
    var known := Known(now, t, true);
    if q == t {
      if IsDir(c.d, t) { TargetIsVisited(c, t); }
    } else if !Under(t, q) {
      NotReached(c, t, known, q);
    } else if Step(t, q) in known {
      DirBelowKnown(c, now, todo, t, after, q);
    } else {
      StepFacts(c, t, q);
      WalksAgree(c, t, known, q);
      OnlyStepVanishes(c, t, known, q);
    }
  }

  lemma NotReached(c: Change, t: Path, known: set<Path>, q: Path)
    requires !Under(t, q) && forall k :: k in known ==> k.In? && k.parent == t
    ensures !VisitedPast(c.r, c.d, t, known, q) && !CandidatePast(c.r, c.d, t, known, q)
    ensures !UnderVanished(c.r, c.d, t, known, q)
  {
    if VisitedPast(c.r, c.d, t, known, q) {
      VisitedPastIsVisited(c.r, c.d, t, known, q);
      VisitedIsUnder(c.r, c.d, t, q);
    }
    if CandidatePast(c.r, c.d, t, known, q) {
      VisitedPastIsVisited(c.r, c.d, t, known, q.parent);
      VisitedIsUnder(c.r, c.d, t, q.parent);
    }
    if v :| Vanished(c.r, c.d, t, known, v) && Under(v, q) {
      UnderTransitive(t, v, q);
    }
  }

  lemma OnlyStepVanishes(c: Change, t: Path, known: set<Path>, q: Path)
    requires Under(t, q) && q != t && forall k :: k in known ==> k.In? && k.parent == t
    ensures forall v :: Vanished(c.r, c.d, t, known, v) && Under(v, q) ==> v == Step(t, q)
  {
    forall v | Vanished(c.r, c.d, t, known, v) && Under(v, q) ensures v == Step(t, q) {
      StepIsUnique(t, v, q);
    }
  }

  /** A visited directory below a target is reached through an entered directory. */
  lemma ThroughStep(c: Change, t: Path, q: Path)
    requires Given(c) && Under(c.s, t) && Under(t, q) && q != t && Visited(c.r, c.d, c.s, q)
    ensures var x := Step(t, q); Visited(c.r, c.d, c.s, x) && IsDir(c.d, x) && c.r.enters(x)
  {
    StepFacts(c, t, q);
    VisitedBetween(c.r, c.d, c.s, Step(t, q), q);
  }

  /** A recorded directory is a file now: its own directory changed, and a walk comes by. */
  lemma FileForDirectory(c: Change, t: Path)
    requires Given(c) && DirTarget(c, t) && t in c.ix.dirs && t != c.s
    ensures Under(c.s, t.parent) && t.parent in c.ix.dirs && Visited(c.r, c.d0, c.s, t)
    ensures t !in c.ix.rows
    ensures IsFile(c.d, t) ==> DirDiffers(c, t.parent) && IsDir(c.d, t.parent) && Visited(c.r, c.d, c.s, t.parent)
  {
    DirWasThere(c, t);
    UnderDepth(c.s, t.parent);
    RecordedAbove(c, t.parent, t);
    if IsFile(c.d, t) {
      EntryChanged(c, t);
      DirWasThere(c, t.parent);
      StillVisited(c, t.parent);
    }
  }

  /** The target's own row: it can only be the row of a directory that became a file. */
  lemma RowOfTarget(c: Change, now: Ix, todo: set<Path>, t: Path, after: Ix, reached: set<Path>)
    requires Given(c) && Progress(c, now, todo) && t in todo && DirTarget(c, t)
    requires At(after.rows, t) == RowAfter(c.r, c.d, now, Job(t, true, false), reached, true, t)
    requires t in reached <==> Lists(c.r, c.d, now, t, true, t)
    ensures At(after.rows, t) == Left(c, t)
  {
    if t in now.rows { HeldIsHonest(c, now, todo, t); }
    if t in c.ix.dirs && t != c.s { FileForDirectory(c, t); }
    if t in reached {
      SettledIsExact(c.r, c.d, At(now.rows, t), At(now.rows, t), t, false);
    }
  }

  /** The row of an entry of the target, when the query does not ask for it and no row is put. */
  lemma RowNotAskedFor(c: Change, now: Ix, todo: set<Path>, t: Path, after: Ix, p: Path)
    requires Given(c) && Progress(c, now, todo) && t in todo && DirTarget(c, t) && Under(c.s, p) && p != c.s
    requires p.In? && p.parent == t && Beyond(p) && Want(c.r, c.d, c.s, p).None? && At(after.rows, p) == At(now.rows, p)
    ensures RowOk(c, after, todo - {t}, p)
  {
    assert RowOk(c, now, todo, p);
    if p in c.ix.rows { RowWasThere(c, p); }
    if Clash(c, p) {
      ClashIsLater(c, todo, t, p);
    }
  }

  /** A clash below a directory still to be re-read is a target of its own. */
  lemma ClashIsLater(c: Change, todo: set<Path>, t: Path, p: Path)
    requires Given(c) && TodoOk(c, todo) && t in todo && DirTarget(c, t) && Clash(c, p) && p.In? && p.parent == t
    ensures p in todo - {t} && Claims(c, p, p)
  {
    DirWasThere(c, p);
    UnderDepth(t, p);
    assert DirTarget(c, p) && Under(t, p);
  }

  /** The row of a file listed by the target. */
  lemma RowInTarget(c: Change, now: Ix, todo: set<Path>, t: Path, after: Ix, reached: set<Path>, p: Path)
    requires Given(c) && Progress(c, now, todo) && t in todo && DirTarget(c, t)
    requires p.In? && p.parent == t
    requires At(after.rows, p) == RowAfter(c.r, c.d, now, Job(t, true, false), reached, true, p)
    requires p in reached <==> Lists(c.r, c.d, now, t, true, p)
    ensures RowOk(c, after, todo - {t}, p)
  {
    UnderDepth(c.s, t);
    UnderDepth(t, p);
    assert Under(c.s, p) && p != c.s && p != t;
    if IsDir(c.d, t) { TargetIsVisited(c, t); }
    OnlyStepVanishes(c, t, Known(now, t, true), p);
    assert Loads(c.r, c.d, now, t, true, p) <==> !Beyond(p);
    assert p in reached <==> Candidate(c.r, c.d, c.s, p);
    if p in reached && (!Beyond(p) || Indexable(c.r, c.d, p)) {
      EntryIsRight(c, now, todo, t, p);
    } else if Beyond(p) {
      RowNotAskedFor(c, now, todo, t, after, p);
    } else if Clash(c, p) {
      ClashIsLater(c, todo, t, p);
      assert RowOk(c, now, todo, p);
      DirWasThere(c, p);
    }
  }

  /** A listed entry whose row was asked for, or that gets a new one. */
  lemma EntryIsRight(c: Change, now: Ix, todo: set<Path>, t: Path, p: Path)
    requires Given(c) && Progress(c, now, todo) && DirTarget(c, t) && p.In? && p.parent == t
    requires Candidate(c.r, c.d, c.s, p) && p != c.s && (!Beyond(p) || Indexable(c.r, c.d, p))
    ensures var before := if Beyond(p) then None else At(now.rows, p);
            Settled(c.r, c.d, before, At(now.rows, p), p, false) == Left(c, p)
  {
    CandidateIsUnder(c.r, c.d, c.s, p);
    if p in now.rows { HeldIsHonest(c, now, todo, p); }
    SettledIsExact(c.r, c.d, At(now.rows, p), if Beyond(p) then None else At(now.rows, p), p, false);
  }

  /** The row of a file below a recorded child of the target: left to that child, or removed with it. */
  lemma RowBelowKnown(c: Change, now: Ix, todo: set<Path>, t: Path, after: Ix, reached: set<Path>, p: Path)
    requires Given(c) && Progress(c, now, todo) && t in todo && DirTarget(c, t)
    requires Under(t, p) && p != t && p.parent != t && Step(t, p) in Known(now, t, true)
    requires At(after.rows, p) == RowAfter(c.r, c.d, now, Job(t, true, false), reached, true, p)
    requires p in reached <==> Lists(c.r, c.d, now, t, true, p)
    ensures RowOk(c, after, todo - {t}, p)
  {
    var known, x := Known(now, t, true), Step(t, p);
    StepFacts(c, t, p);
    UnderDepth(t, p.parent);
    UnderDepth(c.s, t);
    UnderDepth(x, p);
    OnlyStepVanishes(c, t, known, p);
    KnownIsNotWalked(c.r, c.d, t, known, p.parent);
    assert p !in reached;
    if x !in c.ix.dirs {
      assert SettledBelow(c, now, x);
      SettledRowStays(c, now, t, reached, x, p);
    } else if Vanished(c.r, c.d, t, known, x) {
      UnderDepth(x, p.parent);
      assert Loads(c.r, c.d, now, t, true, p);
      BelowVanished(c, t, x, p);
    } else {
      NotFoundAnew(c, now, t, x, p);
      OthersClaim(c, now, todo, t, after, p);
    }
  }

  /** What is below a recorded child that is asked for is not found anew from the root. */
  lemma {:induction false} NotFoundAnew(c: Change, now: Ix, t: Path, x: Path, p: Path)
    requires x in Known(now, t, true) && Under(x, p)
    ensures t.Root? ==> !BelowBeyond(p)
    decreases p
  {
    if t.Root? && p != x {
      NotFoundAnew(c, now, t, x, p.parent);
      UnderDepth(x, p.parent);
    }
  }

  /** The row of a file below a child of the target that is walked with it. */
  lemma RowBelowNew(c: Change, now: Ix, todo: set<Path>, t: Path, after: Ix, reached: set<Path>, p: Path)
    requires Given(c) && Progress(c, now, todo) && t in todo && DirTarget(c, t)
    requires Under(t, p) && p != t && p.parent != t && Step(t, p) !in Known(now, t, true)
    requires At(after.rows, p) == RowAfter(c.r, c.d, now, Job(t, true, false), reached, true, p)
    requires p in reached <==> Lists(c.r, c.d, now, t, true, p)
    ensures RowOk(c, after, todo - {t}, p)
  {
    StepFacts(c, t, p);
    NewIsNotLoaded(c, now, t, p);
    ListedBelowNew(c, now, t, p);
    if Step(t, p) in c.ix.dirs {
      if p in reached && Indexable(c.r, c.d, p) {
        WalkedIsRight(c, now, todo, t, p);
      } else {
        NotClaimedByWalk(c, now, t, p);
        OthersClaim(c, now, todo, t, after, p);
      }
    } else {
      RowOfNew(c, now, todo, t, p);
    }
  }

  lemma NotClaimedByWalk(c: Change, now: Ix, t: Path, p: Path)
    requires DirTarget(c, t) && Under(t, p) && p != t && p.parent != t && Step(t, p) in c.ix.dirs
    requires !(Candidate(c.r, c.d, c.s, p) && Indexable(c.r, c.d, p))
    ensures !Claims(c, t, p)
  {
  }

  /** Below a child that was not recorded, a row is read anew or there is none. */
  lemma RowOfNew(c: Change, now: Ix, todo: set<Path>, t: Path, p: Path)
    requires Given(c) && Progress(c, now, todo) && DirTarget(c, t)
    requires Under(t, p) && p != t && p.parent != t && Step(t, p) !in c.ix.dirs
    ensures Candidate(c.r, c.d, c.s, p) ==> Settled(c.r, c.d, None, At(now.rows, p), p, false) == Left(c, p)
    ensures !Candidate(c.r, c.d, c.s, p) ==> At(now.rows, p) == Left(c, p)
  {
    StepFacts(c, t, p);
    NewRow(c, t, p);
    NoStaleRow(c, now, todo, p);
    if Candidate(c.r, c.d, c.s, p) {
      if p in now.rows { HeldIsHonest(c, now, todo, p); }
      SettledIsExact(c.r, c.d, At(now.rows, p), None, p, false);
    }
  }

  /** A recorded directory is walked with the target only when the root's query does not ask for it. */
  lemma WalkedIsRight(c: Change, now: Ix, todo: set<Path>, t: Path, p: Path)
    requires Given(c) && Progress(c, now, todo) && DirTarget(c, t)
    requires Under(t, p) && p != t && p.parent != t && Step(t, p) !in Known(now, t, true) && Step(t, p) in c.ix.dirs
    requires Candidate(c.r, c.d, c.s, p) && Indexable(c.r, c.d, p)
    ensures Left(c, p) == Some(FactsOf(c.d, p))
    ensures Settled(c.r, c.d, None, At(now.rows, p), p, false) == Left(c, p)
  {
    var x := Step(t, p);
    StepFacts(c, t, p);
    UnderDepth(t, p.parent);
    UnderDepth(c.s, t);
    UnderDepth(x, p);
    VisitedBetween(c.r, c.d, c.s, x, p.parent);
    assert DirOk(c, now, todo, x);
    assert Beyond(x) && t.Root?;
    AllBelowBeyond(x, p);
    CandidateIsUnder(c.r, c.d, c.s, p);
    if p in now.rows { HeldIsHonest(c, now, todo, p); }
    SettledIsExact(c.r, c.d, At(now.rows, p), None, p, false);
  }

  lemma {:induction false} AllBelowBeyond(x: Path, p: Path)
    requires Beyond(x) && Under(x, p)
    ensures BelowBeyond(p)
  {
    if p != x { AllBelowBeyond(x, p.parent); }
  }

  lemma OthersClaim(c: Change, now: Ix, todo: set<Path>, t: Path, after: Ix, p: Path)
    requires Progress(c, now, todo) && Under(c.s, p) && !Claims(c, t, p)
    requires At(after.rows, p) == At(now.rows, p)
    ensures RowOk(c, after, todo - {t}, p)
  {
    assert RowOk(c, now, todo, p);
  }

  /** Where nothing was recorded, the row there is now, if any, is right. */
  lemma NoStaleRow(c: Change, now: Ix, todo: set<Path>, p: Path)
    requires Progress(c, now, todo) && Under(c.s, p) && p !in c.ix.rows
    ensures At(now.rows, p).None? || At(now.rows, p) == Left(c, p)
  {
    assert RowOk(c, now, todo, p);
  }

  lemma NewIsNotLoaded(c: Change, now: Ix, t: Path, p: Path)
    requires Under(t, p) && p != t && p.parent != t && Step(t, p) !in Known(now, t, true)
    ensures !Loads(c.r, c.d, now, t, true, p)
  {
    OnlyStepVanishes(c, t, Known(now, t, true), p);
  }

  /** Below a child that is walked with the target, the target's walk finds what the scope's finds. */
  lemma ListedBelowNew(c: Change, now: Ix, t: Path, p: Path)
    requires Given(c) && DirTarget(c, t)
    requires Under(t, p) && p != t && p.parent != t && Step(t, p) !in Known(now, t, true)
    ensures Lists(c.r, c.d, now, t, true, p) <==> Candidate(c.r, c.d, c.s, p)
  {
    StepFacts(c, t, p);
    UnderDepth(t, p.parent);
    UnderDepth(c.s, t);
    assert Step(t, p) == Step(t, p.parent);
    WalksAgree(c, t, Known(now, t, true), p.parent);
  }

  /** Nothing is left below a recorded directory that vanished. */
  lemma BelowVanished(c: Change, t: Path, x: Path, p: Path)
    requires Given(c) && DirTarget(c, t) && Under(t, p) && p != t && p.parent != t && x == Step(t, p)
    requires x in c.ix.dirs && !(IsDir(c.d, x) && c.r.enters(x))
    ensures Left(c, p) == None
  {
    StepFacts(c, t, p);
    UnderDepth(t, p.parent);
    UnderDepth(x, p.parent);
    if Visited(c.r, c.d, c.s, p.parent) { ThroughStep(c, t, p.parent); }
    DirWasThere(c, x);
    if IsFile(c.d, p) { AncestorsAreDirs(c.d, x, p); }
  }

  /** Below a new subdirectory nothing was recorded, so nothing is missed and nothing clashes. */
  lemma NewRow(c: Change, t: Path, p: Path)
    requires Given(c) && DirTarget(c, t) && Under(t, p) && p != t && p.parent != t
    requires Step(t, p) !in c.ix.dirs
    ensures p !in c.ix.rows && Left(c, p) == Want(c.r, c.d, c.s, p)
  {
    StepFacts(c, t, p);
    UnderDepth(t, p.parent);
    StepFacts(c, t, p.parent);
  }

  lemma RowAfterTarget(c: Change, now: Ix, todo: set<Path>, t: Path, after: Ix, reached: set<Path>, p: Path)
    requires Given(c) && Progress(c, now, todo) && t in todo && DirTarget(c, t) && Under(c.s, p)
    requires At(after.rows, p) == RowAfter(c.r, c.d, now, Job(t, true, false), reached, true, p)
    requires p in reached <==> Lists(c.r, c.d, now, t, true, p)
    ensures RowOk(c, after, todo - {t}, p)
  {
    if p == t {
      RowOfTarget(c, now, todo, t, after, reached);
    } else if p.In? && p.parent == t {
      RowInTarget(c, now, todo, t, after, reached, p);
    } else if Under(t, p) {
      UnderDepth(t, p.parent);
      if Step(t, p) in Known(now, t, true) {
        RowBelowKnown(c, now, todo, t, after, reached, p);
      } else {
        RowBelowNew(c, now, todo, t, after, reached, p);
      }
    } else {
      RowElsewhere(c, now, todo, t, after, reached, p);
    }
  }

  lemma RowElsewhere(c: Change, now: Ix, todo: set<Path>, t: Path, after: Ix, reached: set<Path>, p: Path)
    requires Progress(c, now, todo) && DirTarget(c, t) && Under(c.s, p) && !Under(t, p)
    requires At(after.rows, p) == RowAfter(c.r, c.d, now, Job(t, true, false), reached, true, p)
    requires p in reached <==> Lists(c.r, c.d, now, t, true, p)
    ensures RowOk(c, after, todo - {t}, p)
  {
    NotReached(c, t, Known(now, t, true), p);
    OthersClaim(c, now, todo, t, after, p);
  }

  // ---- directories that are recorded on the way ----

  /** Below what was not recorded there were no rows, and nothing is missed, clashes or is stale. */
  lemma BelowNew(c: Change, x: Path, p: Path)
    requires Given(c) && Under(c.s, x) && x !in c.ix.dirs && Under(x, p)
    ensures p !in c.ix.dirs
    ensures p != x ==> p !in c.ix.rows && Left(c, p) == Want(c.r, c.d, c.s, p)
  {
    UnderTransitive(c.s, x, p);
    if p in c.ix.dirs { RecordedAbove(c, x, p); }
    if p != x {
      var u := p.parent;
      UnderTransitive(c.s, x, u);
      UnderDepth(x, u);
      UnderDepth(c.s, x);
      if u in c.ix.dirs { RecordedAbove(c, x, u); }
      if p in c.ix.rows { RowWasThere(c, p); }
    }
  }

  lemma TargetNotBelow(c: Change, t: Path, x: Path)
    requires Given(c) && DirTarget(c, t) && Under(c.s, x) && x !in c.ix.dirs && x != c.s
    ensures !Under(x, t)
  {
    if Under(x, t) {
      if t in c.ix.dirs { RecordedAbove(c, x, t); } else { UnderIsAntisymmetric(c.s, x); }
    }
  }

  /** What is visited from the scope has not vanished, and is below nothing that has. */
  lemma NotBelowVanished(c: Change, t: Path, known: set<Path>, x: Path, p: Path)
    requires Under(c.s, t) && Visited(c.r, c.d, c.s, x) && Under(x, p) && !Under(x, t)
    requires forall k :: k in known ==> k.In? && k.parent == t
    ensures !UnderVanished(c.r, c.d, t, known, p)
  {
    if v :| Vanished(c.r, c.d, t, known, v) && Under(v, p) {
      AncestorsInLine(v, x, p);
      UnderDepth(c.s, t);
      if Under(v, x) { VisitedBetween(c.r, c.d, c.s, v, x); }
    }
  }

  lemma {:induction false} VisitedOnward(r: Rules, d: Disk, s: Path, t: Path, q: Path)
    requires Visited(r, d, s, t) && Visited(r, d, t, q)
    ensures Visited(r, d, s, q)
  {
    if q != t { VisitedOnward(r, d, s, t, q.parent); }
  }

  /** A file that a target's walk lists is one that the scope's walk finds. */
  lemma ListedIsCandidate(c: Change, now: Ix, t: Path, p: Path)
    requires Given(c) && DirTarget(c, t) && Lists(c.r, c.d, now, t, true, p) && p != t
    ensures p.In? && Visited(c.r, c.d, c.s, p.parent) && c.r.keeps(p) && IsFile(c.d, p)
    ensures p != c.s && Candidate(c.r, c.d, c.s, p)
  {
    var known := Known(now, t, true);
    VisitedPastIsVisited(c.r, c.d, t, known, p.parent);
    VisitedIsUnder(c.r, c.d, t, p.parent);
    TargetIsVisited(c, t);
    VisitedOnward(c.r, c.d, c.s, t, p.parent);
    VisitedIsUnder(c.r, c.d, c.s, p.parent);
    UnderDepth(c.s, p.parent);
  }

  /** The row of a file below a settled directory, after a target was re-read. */
  lemma SettledRowStays(c: Change, now: Ix, t: Path, reached: set<Path>, x: Path, p: Path)
    requires Given(c) && DirTarget(c, t) && Under(c.s, x) && x !in c.ix.dirs && x != c.s
    requires SettledBelow(c, now, x) && Under(x, p) && p != x
    requires p in reached ==> Lists(c.r, c.d, now, t, true, p)
    ensures RowAfter(c.r, c.d, now, Job(t, true, false), reached, true, p) == Left(c, p)
  {
    var known := Known(now, t, true);
    BelowNew(c, x, p);
    TargetNotBelow(c, t, x);
    NotBelowVanished(c, t, known, x, p);
    assert At(now.rows, p) == Left(c, p);
    if p in reached {
      ListedIsCandidate(c, now, t, p);
      var before := if Loads(c.r, c.d, now, t, true, p) then At(now.rows, p) else None;
      SettledIsExact(c.r, c.d, At(now.rows, p), before, p, false);
    }
  }

  /** What is settled stays so while targets are re-read. */
  lemma SettledStays(c: Change, now: Ix, t: Path, after: Ix, reached: set<Path>, x: Path)
    requires Given(c) && DirTarget(c, t) && Under(c.s, x) && x !in c.ix.dirs && x != c.s
    requires SettledBelow(c, now, x)
    requires Refreshed(c.r, c.d, now, after, Job(t, true, false), reached, true)
    ensures SettledBelow(c, after, x)
  {
    var known := Known(now, t, true);
    TargetNotBelow(c, t, x);
    forall p | Under(x, p) && p != x ensures At(after.rows, p) == Left(c, p) {
      SettledRowStays(c, now, t, reached, x, p);
      assert At(after.rows, p) == RowAfter(c.r, c.d, now, Job(t, true, false), reached, true, p);
    }
    forall q | Under(x, q) ensures At(after.dirs, q) == DirLeft(c, q) {
      NotBelowVanished(c, t, known, x, q);
      if VisitedPast(c.r, c.d, t, known, q) {
        VisitedPastIsVisited(c.r, c.d, t, known, q);
        VisitedIsUnder(c.r, c.d, t, q);
        TargetIsVisited(c, t);
        VisitedOnward(c.r, c.d, c.s, t, q);
      }
      assert At(after.dirs, q) == DirAfter(c.r, c.d, now, Job(t, true, false), true, q);
    }
  }

  /** Below a directory that a target's walk reaches, it goes wherever the scope's goes. */
  lemma {:induction false} WalksOnward(c: Change, t: Path, known: set<Path>, x: Path, q: Path)
    requires Under(c.s, t) && Under(t, x) && x != t && Under(x, q)
    requires VisitedPast(c.r, c.d, t, known, x) && Visited(c.r, c.d, c.s, x)
    requires forall k :: k in known ==> k.In? && k.parent == t
    ensures VisitedPast(c.r, c.d, t, known, q) <==> Visited(c.r, c.d, c.s, q)
  {
    if q != x {
      UnderDepth(t, x);
      UnderDepth(x, q.parent);
      UnderDepth(c.s, t);
      WalksOnward(c, t, known, x, q.parent);
    }
  }

  /** The row of a file below a directory that is new and that a target's walk reaches. */
  lemma NewRowIsRight(c: Change, now: Ix, todo: set<Path>, t: Path, reached: set<Path>, x: Path, p: Path)
    requires Given(c) && Progress(c, now, todo) && DirTarget(c, t)
    requires VisitedPast(c.r, c.d, t, Known(now, t, true), x) && Visited(c.r, c.d, c.s, x)
    requires Under(t, x) && x != t && x !in c.ix.dirs && Under(x, p) && p != x
    requires p in reached <==> Lists(c.r, c.d, now, t, true, p)
    ensures RowAfter(c.r, c.d, now, Job(t, true, false), reached, true, p) == Left(c, p)
  {
    UnderTransitive(c.s, t, x);
    UnderTransitive(c.s, x, p);
    BelowNew(c, x, p);
    NoStaleRow(c, now, todo, p);
    WalksOnward(c, t, Known(now, t, true), x, p.parent);
    UnderDepth(t, x);
    UnderDepth(x, p);
    UnderDepth(c.s, t);
    if p in now.rows { HeldIsHonest(c, now, todo, p); }
    if p in reached {
      var before := if Loads(c.r, c.d, now, t, true, p) then At(now.rows, p) else None;
      SettledIsExact(c.r, c.d, At(now.rows, p), before, p, false);
    }
  }

  /** A new directory that a target's walk reaches is settled by it. */
  lemma NewlySettled(c: Change, now: Ix, todo: set<Path>, t: Path, after: Ix, reached: set<Path>, x: Path)
    requires Given(c) && Progress(c, now, todo) && DirTarget(c, t)
    requires VisitedPast(c.r, c.d, t, Known(now, t, true), x) && x != t && x !in c.ix.dirs
    requires Refreshed(c.r, c.d, now, after, Job(t, true, false), reached, true)
    requires AllRead(c.r, c.d, now, Job(t, true, false), reached)
    ensures SettledBelow(c, after, x)
  {
    var known := Known(now, t, true);
    VisitedPastIsVisited(c.r, c.d, t, known, x);
    VisitedIsUnder(c.r, c.d, t, x);
    TargetIsVisited(c, t);
    VisitedOnward(c.r, c.d, c.s, t, x);
    UnderTransitive(c.s, t, x);
    forall p | Under(x, p) && p != x ensures At(after.rows, p) == Left(c, p) {
      NewRowIsRight(c, now, todo, t, reached, x, p);
      assert At(after.rows, p) == RowAfter(c.r, c.d, now, Job(t, true, false), reached, true, p);
    }
    forall q | Under(x, q) ensures At(after.dirs, q) == DirLeft(c, q) {
      UnderTransitive(c.s, x, q);
      WalksOnward(c, t, known, x, q);
      BelowNew(c, x, q);
      UnderDepth(t, x);
      UnderDepth(x, q);
      assert DirOk(c, now, todo, q);
      assert At(after.dirs, q) == DirAfter(c.r, c.d, now, Job(t, true, false), true, q);
    }
  }

  lemma NewChildAfterTarget(c: Change, now: Ix, todo: set<Path>, t: Path, after: Ix, reached: set<Path>, x: Path)
    requires Given(c) && Progress(c, now, todo) && t in todo && DirTarget(c, t)
    requires Refreshed(c.r, c.d, now, after, Job(t, true, false), reached, true)
    requires AllRead(c.r, c.d, now, Job(t, true, false), reached)
    requires x in after.dirs && x.In? && x.parent in todo - {t} && DirTarget(c, x.parent) && x !in c.ix.dirs
    ensures SettledBelow(c, after, x)
  {
    UnderDepth(c.s, x.parent);
    if x in now.dirs {
      WasSettled(c, now, todo, x);
      SettledStays(c, now, t, after, reached, x);
    } else {
      if x == t { NotItsOwnChild(c, t); }
      RecordedIsWalked(c, now, t, after, reached, x);
      NewlySettled(c, now, todo, t, after, reached, x);
    }
  }

  lemma WasSettled(c: Change, now: Ix, todo: set<Path>, x: Path)
    requires NewChildrenSettled(c, now, todo)
    requires x in now.dirs && x.In? && x.parent in todo && DirTarget(c, x.parent) && x !in c.ix.dirs
    ensures SettledBelow(c, now, x)
  {
  }

  lemma RecordedIsWalked(c: Change, now: Ix, t: Path, after: Ix, reached: set<Path>, x: Path)
    requires Refreshed(c.r, c.d, now, after, Job(t, true, false), reached, true)
    requires x in after.dirs && x !in now.dirs
    ensures VisitedPast(c.r, c.d, t, Known(now, t, true), x)
  {
    assert At(after.dirs, x) == DirAfter(c.r, c.d, now, Job(t, true, false), true, x);
  }

  lemma NewChildrenAfterTarget(c: Change, now: Ix, todo: set<Path>, t: Path, after: Ix, reached: set<Path>)
    requires Given(c) && Progress(c, now, todo) && t in todo && DirTarget(c, t)
    requires Refreshed(c.r, c.d, now, after, Job(t, true, false), reached, true)
    requires AllRead(c.r, c.d, now, Job(t, true, false), reached)
    ensures NewChildrenSettled(c, after, todo - {t})
  {
    forall x: Path | x in after.dirs && x.In? && x.parent in todo - {t} && DirTarget(c, x.parent) && x !in c.ix.dirs
      ensures SettledBelow(c, after, x)
    {
      NewChildAfterTarget(c, now, todo, t, after, reached, x);
    }
  }

  /** A target that was not recorded is the scope. */
  lemma NotItsOwnChild(c: Change, t: Path)
    requires DirTarget(c, t) && t !in c.ix.dirs
    ensures t == c.s
  {
  }

  lemma OutsideAfterTarget(c: Change, now: Ix, t: Path, after: Ix, reached: set<Path>)
    requires OutsideKept(c, now) && Under(c.s, t)
    requires Refreshed(c.r, c.d, now, after, Job(t, true, false), reached, true)
    ensures OutsideKept(c, after)
  {
    var job := Job(t, true, false);
    forall p | !Under(c.s, p) ensures At(after.rows, p) == At(c.ix.rows, p) {
      OutsideTarget(c, t, p);
      NotReached(c, t, Known(now, t, true), p);
      assert At(after.rows, p) == RowAfter(c.r, c.d, now, job, reached, true, p);
    }
    forall q | !Under(c.s, q) ensures At(after.dirs, q) == At(c.ix.dirs, q) {
      OutsideTarget(c, t, q);
      NotReached(c, t, Known(now, t, true), q);
      assert At(after.dirs, q) == DirAfter(c.r, c.d, now, job, true, q);
    }
  }

  /** Re-reading a changed directory makes progress. */
  lemma DirTargetDone(c: Change, now: Ix, todo: set<Path>, t: Path, after: Ix)
    requires Given(c) && Progress(c, now, todo) && t in todo && DirTarget(c, t)
    requires forall u :: u in todo && DirTarget(c, u) && Under(u, t) ==> u == t
    requires Done(c.r, c.d, now, after, Job(t, true, false))
    ensures Progress(c, after, todo - {t})
  {
    var job := Job(t, true, false);
    var reached :| Refreshed(c.r, c.d, now, after, job, reached, true) && AllRead(c.r, c.d, now, job, reached);
    forall p | Under(c.s, p) ensures RowOk(c, after, todo - {t}, p) {
      RowAfterTarget(c, now, todo, t, after, reached, p);
    }
    forall q | Under(c.s, q) ensures DirOk(c, after, todo - {t}, q) {
      DirAfterTarget(c, now, todo, t, after, q);
    }
    NewChildrenAfterTarget(c, now, todo, t, after, reached);
    OutsideAfterTarget(c, now, t, after, reached);
  }

  lemma OutsideTarget(c: Change, t: Path, p: Path)
    requires Under(c.s, t) && !Under(c.s, p)
    ensures !Under(t, p) && (p.In? ==> p.parent != t)
  {
    if Under(t, p) { UnderTransitive(c.s, t, p); }
  }

  // ---- one changed file ----

  /** A changed file is a file of the scope still, or the scope itself. */
  lemma LoneFacts(c: Change, t: Path)
    requires Given(c) && LoneTarget(c, t) && !DirTarget(c, t)
    ensures t == c.s || (IsFile(c.d, t) && c.r.keeps(t) && t in c.ix.rows && Visited(c.r, c.d, c.s, t.parent))
    ensures forall q :: Under(t, q) ==> q !in c.ix.dirs
    ensures t == c.s ==> forall p :: Under(t, p) && p != t ==> p !in c.ix.rows
  {
    if t != c.s {
      RowWasThere(c, t);
      VisitedIsUnder(c.r, c.d0, c.s, t.parent);
      if !SameKind(c, t) { EntryChanged(c, t); }
      DirWasThere(c, t.parent);
      StillVisited(c, t.parent);
    }
    forall q | Under(t, q) ensures q !in c.ix.dirs {
      if q in c.ix.dirs {
        RecordedAbove(c, t, q);
        if t in c.ix.rows { RowWasThere(c, t); }
        assert false;
      }
    }
    if t == c.s {
      forall p | Under(t, p) && p != t ensures p !in c.ix.rows {
        if p in c.ix.rows {
          RowWasThere(c, p);
          assert false;
        }
      }
    }
  }

  /** At and below a changed file, a refresh of it leaves what the scope's refresh would. */
  lemma LoneIsRight(c: Change, t: Path, p: Path)
    requires Given(c) && LoneTarget(c, t) && !DirTarget(c, t) && Under(t, p)
    ensures Want(c.r, c.d, t, p) == Left(c, p)
    ensures Visited(c.r, c.d, t, p) <==> Visited(c.r, c.d, c.s, p)
  {
    LoneFacts(c, t);
    UnderTransitive(c.s, t, p);
    assert p !in c.ix.dirs;
    if t != c.s {
      NothingBelowFile(c, t, p);
    } else if p != t {
      assert Under(t, p.parent);
    }
  }

  lemma NothingBelowFile(c: Change, t: Path, p: Path)
    requires Given(c) && LoneTarget(c, t) && !DirTarget(c, t) && Under(t, p) && t != c.s
    ensures Want(c.r, c.d, t, p) == Left(c, p)
    ensures Visited(c.r, c.d, t, p) <==> Visited(c.r, c.d, c.s, p)
  {
    LoneFacts(c, t);
    if p != t {
      if p in c.d { AncestorsAreDirs(c.d, t, p); assert false; }
    } else {
      assert t in c.ix.rows && t !in c.ix.dirs;
      assert Candidate(c.r, c.d, c.s, t) && Candidate(c.r, c.d, t, t);
    }
  }

  lemma HonestBelow(c: Change, now: Ix, todo: set<Path>, t: Path)
    requires Given(c) && Progress(c, now, todo) && Under(c.s, t)
    ensures Honest(c.r, c.d, now.rows, t)
  {
    forall p | p in now.rows && Under(t, p) ensures HonestRow(c.r, c.d, now.rows[p], p) {
      UnderTransitive(c.s, t, p);
      HeldIsHonest(c, now, todo, p);
    }
  }

  lemma OthersClaimDir(c: Change, now: Ix, todo: set<Path>, t: Path, after: Ix, q: Path)
    requires Progress(c, now, todo) && Under(c.s, q) && !ClaimsDir(c, t, q)
    requires At(after.dirs, q) == At(now.dirs, q)
    ensures DirOk(c, after, todo - {t}, q)
  {
    assert DirOk(c, now, todo, q);
  }

  /** A refresh of a changed file leaves what it stands for right, and the rest as it was. */
  lemma AfterLone(c: Change, now: Ix, todo: set<Path>, t: Path, after: Ix)
    requires Given(c) && Progress(c, now, todo) && t in todo && !DirTarget(c, t)
    requires Done(c.r, c.d, now, after, Job(t, false, false))
    ensures forall p :: At(after.rows, p) == if Under(t, p) then Left(c, p) else At(now.rows, p)
    ensures forall q :: At(after.dirs, q) == if Under(t, q) then DirLeft(c, q) else At(now.dirs, q)
  {
    HonestBelow(c, now, todo, t);
    RefreshIsExact(c.r, c.d, now, after, t, false);
    forall p ensures At(after.rows, p) == if Under(t, p) then Left(c, p) else At(now.rows, p) {
      if Under(t, p) { LoneIsRight(c, t, p); }
    }
    forall q ensures At(after.dirs, q) == if Under(t, q) then DirLeft(c, q) else At(now.dirs, q) {
      if Under(t, q) { LoneIsRight(c, t, q); }
    }
  }

  /** Re-reading a changed file makes progress. */
  lemma LoneTargetDone(c: Change, now: Ix, todo: set<Path>, t: Path, after: Ix)
    requires Given(c) && Progress(c, now, todo) && t in todo && !DirTarget(c, t)
    requires Done(c.r, c.d, now, after, Job(t, false, false))
    ensures Progress(c, after, todo - {t})
  {
    AfterLone(c, now, todo, t, after);
    forall p | Under(c.s, p) ensures RowOk(c, after, todo - {t}, p) {
      if !Under(t, p) { OthersClaim(c, now, todo, t, after, p); }
    }
    forall q | Under(c.s, q) ensures DirOk(c, after, todo - {t}, q) {
      if !Under(t, q) { OthersClaimDir(c, now, todo, t, after, q); }
    }
    NewChildrenAfterLone(c, now, todo, t, after);
    forall p | !Under(c.s, p) ensures !Under(t, p) { OutsideTarget(c, t, p); }
  }

  /** A changed file is neither above nor below a settled directory. */
  lemma LoneIsApart(c: Change, t: Path, u: Path, x: Path)
    requires Given(c) && LoneTarget(c, t) && !DirTarget(c, t)
    requires DirTarget(c, u) && x.In? && x.parent == u && x !in c.ix.dirs && Visited(c.r, c.d, c.s, x)
    ensures !Under(t, x) && !Under(x, t)
  {
    LoneFacts(c, t);
    UnderDepth(c.s, u);
    if Under(t, x) {
      if t != c.s {
        if t == x { assert false; } else { AncestorsAreDirs(c.d, t, x); }
      }
    }
    if Under(x, t) {
      if t == c.s { UnderIsAntisymmetric(c.s, x); } else { BelowNew(c, x, t); }
    }
  }

  lemma NewChildrenAfterLone(c: Change, now: Ix, todo: set<Path>, t: Path, after: Ix)
    requires Given(c) && Progress(c, now, todo) && t in todo && !DirTarget(c, t)
    requires forall p :: At(after.rows, p) == if Under(t, p) then Left(c, p) else At(now.rows, p)
    requires forall q :: At(after.dirs, q) == if Under(t, q) then DirLeft(c, q) else At(now.dirs, q)
    ensures NewChildrenSettled(c, after, todo - {t})
  {
    forall x: Path | x in after.dirs && x.In? && x.parent in todo - {t} && DirTarget(c, x.parent) && x !in c.ix.dirs
      ensures SettledBelow(c, after, x)
    {
      assert Under(c.s, x);
      assert DirOk(c, now, todo, x);
      assert Visited(c.r, c.d, c.s, x);
      LoneIsApart(c, t, x.parent, x);
      assert x in now.dirs && SettledBelow(c, now, x);
      forall p | Under(x, p) ensures !Under(t, p) {
        if Under(t, p) { AncestorsInLine(t, x, p); }
      }
    }
  }

  // ---- at the end ----

  /** No file is missed, none clashes and no row is stale: what the cheap re-read needs to be complete. */
  ghost predicate Exact(c: Change) {
    forall p :: Under(c.s, p) ==> !Missed(c, p) && !Clash(c, p) && !Stale(c, p)
  }

  /** With no target left, the index is complete exactly when nothing was missed, clashed or went stale. */
  lemma NothingLeft(c: Change, now: Ix)
    requires Given(c) && Progress(c, now, {})
    ensures Complete(c.r, c.d, now, c.s) <==> Exact(c)
    ensures forall p :: Under(c.s, p) ==> At(now.rows, p) == Left(c, p)
    ensures forall q :: Under(c.s, q) ==> At(now.dirs, q) == DirLeft(c, q)
  {
    forall p | Under(c.s, p) ensures At(now.rows, p) == Left(c, p) { assert RowOk(c, now, {}, p); }
    forall q | Under(c.s, q) ensures At(now.dirs, q) == DirLeft(c, q) { assert DirOk(c, now, {}, q); }
    forall p | Under(c.s, p)
      ensures Left(c, p) == Want(c.r, c.d, c.s, p) <==> !Missed(c, p) && !Clash(c, p) && !Stale(c, p)
    {
      if Stale(c, p) { RowWasThere(c, p); }
    }
  }

  /**
   * What is missed, said of the two disks: a file in a directory whose time did not
   * move, which could not be indexed when the index was built and now can.
   */
  lemma MissedIsAnEdit(c: Change, p: Path)
    requires Given(c) && Complete(c.r, c.d0, c.ix, c.s)
    ensures Missed(c, p) <==>
            && p.In? && p != c.s && p.parent in c.ix.dirs && !DirDiffers(c, p.parent) && !WalkedAnew(c, p)
            && Candidate(c.r, c.d, c.s, p)
            && IsFile(c.d0, p) && !Indexable(c.r, c.d0, p) && Indexable(c.r, c.d, p)
  {
    if p.In? && p != c.s && p.parent in c.ix.dirs && !DirDiffers(c, p.parent) && Candidate(c.r, c.d, c.s, p) {
      WasCandidate(c, p);
    }
  }

  lemma WasCandidate(c: Change, p: Path)
    requires Given(c) && Complete(c.r, c.d0, c.ix, c.s) && p.In? && p != c.s
    requires p.parent in c.ix.dirs && !DirDiffers(c, p.parent) && Candidate(c.r, c.d, c.s, p)
    ensures IsFile(c.d0, p) && (p in c.ix.rows <==> Indexable(c.r, c.d0, p))
  {
    CandidateIsUnder(c.r, c.d, c.s, p);
    assert Under(c.s, p.parent);
    DirWasThere(c, p.parent);
    assert SameKind(c, p);
    assert At(c.ix.rows, p) == Want(c.r, c.d0, c.s, p);
  }

  /**
   * The cheap re-read leaves the very index a full refresh of the scope leaves,
   * if and only if nothing was missed, nothing clashed and no row is stale.
   */
  lemma CheapEqualsFull(c: Change, now: Ix, full: Ix, force: bool)
    requires Given(c) && Progress(c, now, {})
    requires Done(c.r, c.d, c.ix, full, Job(c.s, false, force))
    ensures now == full <==> Exact(c)
  {
    forall p | p in c.ix.rows && Under(c.s, p) ensures HonestRow(c.r, c.d, c.ix.rows[p], p) {
      RowWasThere(c, p);
      if IsFile(c.d, p) { assert SameBytes(c.d0[p], c.d[p]); }
    }
    RefreshIsExact(c.r, c.d, c.ix, full, c.s, force);
    NothingLeft(c, now);
    if Exact(c) {
      forall p ensures At(now.rows, p) == At(full.rows, p) {
      }
      SameAt(now.rows, full.rows);
      forall q ensures At(now.dirs, q) == At(full.dirs, q) {
      }
      SameAt(now.dirs, full.dirs);
    }
  }

  /** One round: the disk changes from `d0` to `d`, then a query of `s` re-reads what differs. */
  ghost predicate Round(r: Rules, s: Path, d0: Disk, ix: Ix, d: Disk, now: Ix) {
    var c := Change(r, d0, d, s, ix);
    && ValidDisk(d) && TimesMove(c) && Exact(c)
    && (Given(c) ==> Progress(c, now, {}))
  }

  /** One round after another; the root, when it is the scope, stays a directory. */
  ghost predicate Rounds(r: Rules, s: Path, disks: seq<Disk>, ixs: seq<Ix>)
    requires |disks| == |ixs|
    decreases |disks|
  {
    var n := |disks| - 1;
    n <= 0 ||
    (&& Rounds(r, s, disks[..n], ixs[..n])
     && Round(r, s, disks[n - 1], ixs[n - 1], disks[n], ixs[n])
     && (s.Root? ==> IsDir(disks[n], s)))
  }

  /** The index of a scope: complete, with rows for texts only. */
  ghost predicate Current(r: Rules, s: Path, d: Disk, ix: Ix) {
    && ValidDisk(d) && (s.Root? ==> IsDir(d, s)) && Complete(r, d, ix, s)
    && (forall p :: p in ix.rows ==> r.text(ix.rows[p].hash))
  }

  /** However many rounds of edits and queries, the index stays the one a full refresh would give. */
  lemma {:induction false} RoundsStayCurrent(r: Rules, s: Path, disks: seq<Disk>, ixs: seq<Ix>)
    requires |disks| == |ixs| > 0 && Current(r, s, disks[0], ixs[0])
    requires forall p :: r.keeps(p) ==> r.source(p)
    requires Rounds(r, s, disks, ixs)
    ensures Current(r, s, disks[|disks| - 1], ixs[|ixs| - 1])
    decreases |disks|
  {
    var n := |disks| - 1;
    if n > 0 {
      RoundsStayCurrent(r, s, disks[..n], ixs[..n]);
      RoundStaysCurrent(r, s, disks[n - 1], ixs[n - 1], disks[n], ixs[n]);
    }
  }

  lemma RoundStaysCurrent(r: Rules, s: Path, d0: Disk, ix: Ix, d: Disk, now: Ix)
    requires Current(r, s, d0, ix) && Round(r, s, d0, ix, d, now) && (s.Root? ==> IsDir(d, s))
    requires forall p :: r.keeps(p) ==> r.source(p)
    ensures Current(r, s, d, now)
  {
    var c := Change(r, d0, d, s, ix);
    NothingLeft(c, now);
    forall p | p in now.rows ensures r.text(now.rows[p].hash) {
      if Under(s, p) {
        assert At(now.rows, p) == Want(r, d, s, p);
      } else {
        assert At(now.rows, p) == At(ix.rows, p);
      }
    }
  }

  // ---- the inputs on which the re-read is not complete ----

  const ANY_RULES := Rules((q: Path) => true, (p: Path) => true, (p: Path) => true, (b: Bytes) => |b| < 2, 100)

  const A := In(Root, "a.js")

  /**
   * A file that was not text, overwritten in place with text: its directory did
   * not move, it has no row, and no target covers it.
   */
  lemma OverwrittenFileIsMissed()
    ensures exists c :: Given(c) && Missed(c, A) && forall t :: !IsTarget(c, t)
  {
    var d0: Disk := map[Root := Dir(["a.js"], 1), A := File([7, 7], 1)];
    var d: Disk := map[Root := Dir(["a.js"], 1), A := File([7], 2)];
    var ix := Ix(map[], map[Root := 1]);
    var c := Change(ANY_RULES, d0, d, Root, ix);
    assert Complete(c.r, c.d0, c.ix, c.s);
    assert Given(c);
    assert Missed(c, A);
  }

  const NO_A := Rules((q: Path) => true, (p: Path) => p != A, (p: Path) => true, (b: Bytes) => true, 100)

  /** A recorded directory that became a file which its listing leaves out is re-read for itself, and gets a row. */
  lemma DirectoryBecomesExcludedFile()
    ensures exists c :: Given(c) && Clash(c, A) && Want(c.r, c.d, c.s, A).None?
  {
    var d0: Disk := map[Root := Dir(["a.js"], 1), A := Dir([], 1)];
    var d: Disk := map[Root := Dir(["a.js"], 2), A := File([7], 2)];
    var ix := Ix(map[], map[Root := 1, A := 1]);
    var c := Change(NO_A, d0, d, Root, ix);
    assert Complete(c.r, c.d0, c.ix, c.s);
    assert Given(c);
    assert Clash(c, A);
  }

  /** What is stale, said of the two disks and of the name. */
  lemma StaleIsARootFile(c: Change, p: Path)
    requires Given(c) && Complete(c.r, c.d0, c.ix, c.s)
    ensures Stale(c, p) <==>
            && c.s.Root? && DirDiffers(c, Root)
            && p.In? && p.parent.Root? && p.name != "" && p.name[0] >= '\U{FFFF}'
            && Want(c.r, c.d0, c.s, p).Some? && Want(c.r, c.d, c.s, p).None?
  {
    BeyondIs(p);
    if c.s.Root? && p.In? && p.parent.Root? {
      assert Under(c.s, p);
      assert At(c.ix.rows, p) == Want(c.r, c.d0, c.s, p);
    }
  }

  const FACE := In(Root, "\U{1F600}.js")

  /** There is one root file, and it is deleted. */
  function FaceDeleted(): Change {
    var d0: Disk := map[Root := Dir([FACE.name], 1), FACE := File([7], 1)];
    Change(ANY_RULES, d0, map[Root := Dir([], 2)], Root, Ix(map[FACE := Facts(1, 1, [7])], map[Root := 1]))
  }

  lemma FaceWasRecorded()
    ensures Given(FaceDeleted())
  {
    var c := FaceDeleted();
    assert Complete(c.r, c.d0, c.ix, c.s);
  }

  /** A root file whose name begins above U+FFFF was deleted; its row stays, and no gap tells of it. */
  lemma DeletedRootFileStays()
    ensures exists c :: Given(c) && Stale(c, FACE) && FACE !in c.d && (forall p :: !Missed(c, p) && !Clash(c, p))
  {
    var c := FaceDeleted();
    FaceWasRecorded();
    BeyondIs(FACE);
    assert Stale(c, FACE);
  }
}
