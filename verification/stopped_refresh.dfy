/**
 * After a refresh that was stopped when its walk was over: which files does the next
 * comparison of the unchanged disk with the index notice?
 */
module StoppedRefresh {
  import opened Common
  import opened SourceTree
  import opened IndexSpec
  import opened RefreshLaws
  import opened Freshen

  /** Comparing the scope again, with the disk as it was at the refresh. */
  function Again(r: Rules, d: Disk, s: Path, after: Ix): Change { Change(r, d, d, s, after) }

  /** Some target of the comparison stands for the file, so it is re-read. */
  ghost predicate Noticed(c: Change, p: Path) { exists t :: IsTarget(c, t) && Claims(c, t, p) }

  /** What is recorded under the scope is in recorded directories. */
  ghost predicate Closed(ix: Ix, s: Path) {
    && (forall q :: q in ix.dirs && Under(s, q) && q != s ==> q.In? && q.parent in ix.dirs)
    && (forall p :: p in ix.rows && Under(s, p) && p != s ==> p.In? && p.parent in ix.dirs)
  }

  lemma CompleteIsClosed(r: Rules, d: Disk, ix: Ix, s: Path)
    requires Complete(r, d, ix, s)
    ensures Closed(ix, s)
  {
    forall q | q in ix.dirs && Under(s, q) && q != s ensures q.In? && q.parent in ix.dirs {
      assert At(ix.dirs, q) == if Visited(r, d, s, q) then Some(d[q].mtime) else None;
      assert Visited(r, d, s, q) && Visited(r, d, s, q.parent);
      VisitedIsUnder(r, d, s, q.parent);
      assert At(ix.dirs, q.parent) == Some(d[q.parent].mtime);
    }
    forall p | p in ix.rows && Under(s, p) && p != s ensures p.In? && p.parent in ix.dirs {
      assert At(ix.rows, p) == Want(r, d, s, p);
      VisitedIsUnder(r, d, s, p.parent);
      assert At(ix.dirs, p.parent) == Some(d[p.parent].mtime);
    }
  }

  /** What is on the way to a directory that the walk reached was reached. */
  lemma {:induction false} ReachedAbove(r: Rules, d: Disk, s: Path, known: set<Path>, m: Path, q: Path)
    requires VisitedPast(r, d, s, known, q) && Under(s, m) && Under(m, q)
    ensures VisitedPast(r, d, s, known, m)
  {
    if m != q {
      if q == s { UnderIsAntisymmetric(s, m); } else { ReachedAbove(r, d, s, known, m, q.parent); }
    }
  }

  /** Recorded directories are recorded up to the scope's own children. */
  lemma {:induction false} StepIsRecorded(ix: Ix, s: Path, q: Path)
    requires Closed(ix, s) && Under(s, q) && q != s && q in ix.dirs
    ensures Step(s, q) in ix.dirs
  {
    if q.parent != s {
      UnderDepth(s, q.parent);
      StepIsRecorded(ix, s, q.parent);
    }
  }

  lemma {:induction false} NotBelowBeyond(s: Path, q: Path, p: Path)
    requires Under(s, q) && Under(q, p) && q != s && !BelowBeyond(p)
    ensures !BelowBeyond(q) && !Beyond(Step(s, q))
  {
    if q != p {
      NotBelowBeyond(s, q, p.parent);
    } else if q.parent != s {
      NotBelowBeyond(s, q.parent, q.parent);
    }
  }

  /** Nothing at or above a file that a shallow walk found, the scope aside, was a recorded directory. */
  lemma ReachedWasNotRecorded(r: Rules, d: Disk, ix: Ix, s: Path, q: Path, p: Path)
    requires p.In? && Closed(ix, s) && VisitedPast(r, d, s, Known(ix, s, true), p.parent)
    requires Under(s, q) && q != s && Under(q, p.parent) && !BelowBeyond(p)
    ensures q !in ix.dirs
  {
    if q in ix.dirs {
      StepIsRecorded(ix, s, q);
      NotBelowBeyond(s, q, p.parent);
      ReachedAbove(r, d, s, Known(ix, s, true), q, p.parent);
      KnownIsNotWalked(r, d, s, Known(ix, s, true), q);
      assert false;
    }
  }

  /** The job, its result, and a file that its finished walk found and that can be indexed. */
  ghost predicate Found(r: Rules, d: Disk, ix: Ix, after: Ix, job: Job, reached: set<Path>, p: Path) {
    && ValidDisk(d) && Refreshed(r, d, ix, after, job, reached, true) && Honest(r, d, ix.rows, job.scope)
    && p != job.scope && Lists(r, d, ix, job.scope, job.shallow, p) && Indexable(r, d, p)
    && (job.shallow ==> Closed(ix, job.scope) && !BelowBeyond(p))
  }

  /** A directory at or above the file's is recorded with the time it has now. */
  lemma AboveIsCurrent(r: Rules, d: Disk, ix: Ix, after: Ix, job: Job, reached: set<Path>, p: Path, q: Path)
    requires Found(r, d, ix, after, job, reached, p) && Under(job.scope, q) && Under(q, p.parent)
    ensures !DirTarget(Again(r, d, job.scope, after), q) && IsDir(d, q)
  {
    var s, known := job.scope, Known(ix, job.scope, job.shallow);
    ReachedAbove(r, d, s, known, q, p.parent);
    assert At(after.dirs, q) == DirAfter(r, d, ix, job, true, q);
  }

  /** The file itself is recorded as no directory. */
  lemma FileIsNoDirectory(r: Rules, d: Disk, ix: Ix, after: Ix, job: Job, reached: set<Path>, p: Path)
    requires Found(r, d, ix, after, job, reached, p)
    ensures p !in after.dirs
  {
    var s, known := job.scope, Known(ix, job.scope, job.shallow);
    ListsIsUnder(r, d, ix, s, job.shallow, p);
    assert At(after.dirs, p) == DirAfter(r, d, ix, job, true, p);
    if job.shallow && p in ix.dirs {
      VisitedPastIsVisited(r, d, s, known, p.parent);
      VisitedIsUnder(r, d, s, p.parent);
      if p.parent != s {
        ReachedWasNotRecorded(r, d, ix, s, p.parent, p);
      } else {
        assert Vanished(r, d, s, known, p) && Under(p, p);
      }
    }
  }

  /** A directory above the file has no row. */
  lemma AboveHasNoRow(r: Rules, d: Disk, ix: Ix, after: Ix, job: Job, reached: set<Path>, p: Path, q: Path)
    requires Found(r, d, ix, after, job, reached, p) && Under(job.scope, q) && Under(q, p.parent)
    ensures q !in after.rows
  {
    var s := job.scope;
    AboveIsCurrent(r, d, ix, after, job, reached, p, q);
    assert At(after.rows, q) == RowAfter(r, d, ix, job, reached, true, q);
    if job.shallow && q != s {
      NotBelowBeyond(s, q, p);
      if q.parent != s && q in ix.rows {
        UnderTransitive(q.parent, q, p.parent);
        UnderDepth(s, q.parent);
        ReachedWasNotRecorded(r, d, ix, s, q.parent, p);
      }
    }
  }

  /** A file that was not reached and had no row: nothing stands for it. */
  lemma UnreachedNewIsUnnoticed(r: Rules, d: Disk, ix: Ix, after: Ix, job: Job, reached: set<Path>, p: Path, t: Path)
    requires Found(r, d, ix, after, job, reached, p) && p !in reached && p !in ix.rows
    ensures p !in after.rows
    ensures var c := Again(r, d, job.scope, after); IsTarget(c, t) ==> !Claims(c, t, p)
  {
    var s, c := job.scope, Again(r, d, job.scope, after);
    var known := Known(ix, s, job.shallow);
    assert At(after.rows, p) == RowAfter(r, d, ix, job, reached, true, p);
    VisitedPastIsVisited(r, d, s, known, p.parent);
    VisitedIsUnder(r, d, s, p.parent);
    FileIsNoDirectory(r, d, ix, after, job, reached, p);
    AboveIsCurrent(r, d, ix, after, job, reached, p, s);
    if IsTarget(c, t) && Claims(c, t, p) {
      if t.Root? { assert Under(t, p.parent) by { RootIsAbove(p.parent); } }
      if t != p {
        if Under(t, p) { assert Under(t, p.parent); }
        AboveIsCurrent(r, d, ix, after, job, reached, p, t);
        AboveHasNoRow(r, d, ix, after, job, reached, p, t);
      }
    }
  }

  lemma {:induction false} RootIsAbove(p: Path)
    ensures Under(Root, p)
  {
    if p.In? { RootIsAbove(p.parent); }
  }

  /** A file that was not reached and had a row: it is right, or it differs and is noticed. */
  lemma UnreachedOldIsNoticed(r: Rules, d: Disk, ix: Ix, after: Ix, job: Job, reached: set<Path>, p: Path)
    requires Found(r, d, ix, after, job, reached, p) && p !in reached && p in ix.rows
    ensures At(after.rows, p) == Some(FactsOf(d, p)) || Noticed(Again(r, d, job.scope, after), p)
  {
    var c := Again(r, d, job.scope, after);
    ListsIsUnder(r, d, ix, job.scope, job.shallow, p);
    assert At(after.rows, p) == RowAfter(r, d, ix, job, reached, true, p);
    assert HonestRow(r, d, ix.rows[p], p);
    if after.rows[p] != FactsOf(d, p) {
      assert FileDiffers(c, p);
      var t := if DirTarget(c, p.parent) then p.parent else p;
      assert IsTarget(c, t) && Claims(c, t, p);
    }
  }

  /**
   * Once its walk is over a refresh can be stopped anywhere. A file of the scope that
   * can be indexed is right or is noticed by the next comparison, if and only if it
   * was reached or had a row: new files that were not reached stay out.
   */
  lemma NoticedExactlyWithARow(r: Rules, d: Disk, ix: Ix, after: Ix, job: Job, reached: set<Path>, p: Path)
    requires Found(r, d, ix, after, job, reached, p)
    ensures (At(after.rows, p) == Some(FactsOf(d, p)) || Noticed(Again(r, d, job.scope, after), p)) <==>
            p in reached || p in ix.rows
  {
    ListsIsUnder(r, d, ix, job.scope, job.shallow, p);
    assert At(after.rows, p) == RowAfter(r, d, ix, job, reached, true, p);
    if p in reached {
      SettledIsExact(r, d, At(ix.rows, p),
                     if Loads(r, d, ix, job.scope, job.shallow, p) then At(ix.rows, p) else None, p, job.force);
    } else if p in ix.rows {
      UnreachedOldIsNoticed(r, d, ix, after, job, reached, p);
    } else {
      UnreachedNewIsUnnoticed(r, d, ix, after, job, reached, p, p);
      forall t | IsTarget(Again(r, d, job.scope, after), t)
        ensures !Claims(Again(r, d, job.scope, after), t, p)
      {
        UnreachedNewIsUnnoticed(r, d, ix, after, job, reached, p, t);
      }
    }
  }

  /**
   * A refresh the clock stopped after its walk: the new file has no row, and the
   * next comparison of the unchanged disk with the index finds nothing to re-read.
   */
  lemma StoppedReReadGoesUnnoticed()
    ensures exists d: Disk, ix: Ix, after: Ix ::
              && Refreshed(ANY_RULES, d, ix, after, Job(Root, true, false), {}, true)
              && Want(ANY_RULES, d, Root, A).Some? && A !in after.rows
              && forall t :: !IsTarget(Change(ANY_RULES, d, d, Root, after), t)
  {
    var d: Disk := map[Root := Dir(["a.js"], 2), A := File([7], 2)];
    var ix := Ix(map[], map[Root := 1]);
    var after := Ix(map[], map[Root := 2]);
    var job := Job(Root, true, false);
    forall p ensures At(after.rows, p) == RowAfter(ANY_RULES, d, ix, job, {}, true, p) {
    }
    forall q ensures At(after.dirs, q) == DirAfter(ANY_RULES, d, ix, job, true, q) {
      if VisitedPast(ANY_RULES, d, Root, Known(ix, Root, true), q) {
        assert q == Root;
      }
    }
    assert Refreshed(ANY_RULES, d, ix, after, job, {}, true);
    assert Visited(ANY_RULES, d, Root, Root) && Candidate(ANY_RULES, d, Root, A);
    var c := Change(ANY_RULES, d, d, Root, after);
    forall t ensures !IsTarget(c, t) {
    }
    assert Want(ANY_RULES, d, Root, A).Some? && A !in after.rows;
  }
}
