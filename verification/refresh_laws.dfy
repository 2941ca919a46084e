/** What the refresh guarantees, whichever way it took. */
module RefreshLaws {
  import opened Common
  import opened SourceTree
  import opened IndexSpec

  /** Equal size and time mean equal bytes below `s`, and only texts have rows there. */
  ghost predicate Honest(r: Rules, d: Disk, rows: map<Path, Facts>, s: Path) {
    forall p :: p in rows && Under(s, p) ==> HonestRow(r, d, rows[p], p)
  }

  ghost predicate HonestRow(r: Rules, d: Disk, row: Facts, p: Path) {
    && r.text(row.hash)
    && (IsFile(d, p) && row.size == |d[p].bytes| && row.mtime == d[p].mtime ==> row.hash == d[p].bytes)
  }

  /** The row a file under `s` should have. */
  function Want(r: Rules, d: Disk, s: Path, p: Path): Option<Facts> {
    if Candidate(r, d, s, p) && Indexable(r, d, p) then Some(FactsOf(d, p)) else None
  }

  /** The rows and directory times below `s` are those of `d`. */
  ghost predicate Complete(r: Rules, d: Disk, ix: Ix, s: Path) {
    && (forall p :: Under(s, p) ==> At(ix.rows, p) == Want(r, d, s, p))
    && (forall q :: Under(s, q) ==> At(ix.dirs, q) == if Visited(r, d, s, q) then Some(d[q].mtime) else None)
  }

  /** A candidate that is read ends with the row it should have, if its old row was loaded or is none. */
  lemma SettledIsExact(r: Rules, d: Disk, held: Option<Facts>, before: Option<Facts>, p: Path, force: bool)
    requires IsFile(d, p) && (held.Some? ==> HonestRow(r, d, held.value, p))
    requires before == held || (before.None? && (Indexable(r, d, p) || held.None?))
    ensures Settled(r, d, before, held, p, force) == if Indexable(r, d, p) then Some(FactsOf(d, p)) else None
  {
  }

  lemma {:induction false} PastNothing(r: Rules, d: Disk, s: Path, q: Path)
    ensures VisitedPast(r, d, s, {}, q) <==> Visited(r, d, s, q)
  {
    if q != s && q.In? { PastNothing(r, d, s, q.parent); }
  }

  lemma CandidateIsUnder(r: Rules, d: Disk, s: Path, p: Path)
    requires Candidate(r, d, s, p)
    ensures Under(s, p)
  {
    if p != s { VisitedIsUnder(r, d, s, p.parent); }
  }

  lemma ListsIsUnder(r: Rules, d: Disk, ix: Ix, s: Path, shallow: bool, p: Path)
    requires Lists(r, d, ix, s, shallow, p)
    ensures Under(s, p) && Candidate(r, d, s, p)
  {
    if p != s {
      VisitedPastIsVisited(r, d, s, Known(ix, s, shallow), p.parent);
      VisitedIsUnder(r, d, s, p.parent);
    }
  }

  lemma ListsAll(r: Rules, d: Disk, ix: Ix, s: Path, p: Path)
    ensures Lists(r, d, ix, s, false, p) <==> Candidate(r, d, s, p)
  {
    if p.In? { PastNothing(r, d, s, p.parent); }
  }

  /** A finished refresh leaves exactly the scope's files and directories, and nothing else changed. */
  lemma RefreshIsExact(r: Rules, d: Disk, ix: Ix, after: Ix, s: Path, force: bool)
    requires Done(r, d, ix, after, Job(s, false, force)) && Honest(r, d, ix.rows, s)
    ensures Complete(r, d, after, s)
    ensures forall p :: !Under(s, p) ==> At(after.rows, p) == At(ix.rows, p)
    ensures forall q :: !Under(s, q) ==> At(after.dirs, q) == At(ix.dirs, q)
  {
    var job := Job(s, false, force);
    var reached :| Refreshed(r, d, ix, after, job, reached, true) && AllRead(r, d, ix, job, reached);
    forall p ensures At(after.rows, p) == if Under(s, p) then Want(r, d, s, p) else At(ix.rows, p) {
      ListsAll(r, d, ix, s, p);
      assert At(after.rows, p) == RowAfter(r, d, ix, job, reached, true, p);
      if Candidate(r, d, s, p) {
        CandidateIsUnder(r, d, s, p);
        SettledIsExact(r, d, At(ix.rows, p), At(ix.rows, p), p, force);
      }
    }
    forall q ensures At(after.dirs, q) ==
                     if Visited(r, d, s, q) then Some(d[q].mtime)
                     else if Under(s, q) then None else At(ix.dirs, q) {
      PastNothing(r, d, s, q);
      assert At(after.dirs, q) == DirAfter(r, d, ix, job, true, q);
    }
    forall q | !Under(s, q) ensures !Visited(r, d, s, q) {
      if Visited(r, d, s, q) { VisitedIsUnder(r, d, s, q); }
    }
  }

  lemma SameRowEitherWay(r: Rules, d: Disk, ix: Ix, s: Path, shallow: bool, x: set<Path>, y: set<Path>, p: Path)
    requires Honest(r, d, ix.rows, s) && (p in x <==> p in y) && (p in x ==> Lists(r, d, ix, s, shallow, p))
    ensures RowAfter(r, d, ix, Job(s, shallow, false), x, true, p) == RowAfter(r, d, ix, Job(s, shallow, true), y, true, p)
  {
    if p in x { ListsIsUnder(r, d, ix, s, shallow, p); }
  }

  /** Trusting times gives what reading everything gives, deep or shallow. */
  lemma IncrementalEqualsForced(r: Rules, d: Disk, ix: Ix, a: Ix, b: Ix, s: Path, shallow: bool)
    requires Honest(r, d, ix.rows, s)
    requires Done(r, d, ix, a, Job(s, shallow, false)) && Done(r, d, ix, b, Job(s, shallow, true))
    ensures a == b
  {
    var quick, full := Job(s, shallow, false), Job(s, shallow, true);
    var x :| Refreshed(r, d, ix, a, quick, x, true) && AllRead(r, d, ix, quick, x);
    var y :| Refreshed(r, d, ix, b, full, y, true) && AllRead(r, d, ix, full, y);
    forall p ensures At(a.rows, p) == At(b.rows, p) {
      SameRowEitherWay(r, d, ix, s, shallow, x, y, p);
    }
    SameAt(a.rows, b.rows);
    forall q ensures At(a.dirs, q) == At(b.dirs, q) {
      assert DirAfter(r, d, ix, quick, true, q) == DirAfter(r, d, ix, full, true, q);
    }
    SameAt(a.dirs, b.dirs);
  }

  lemma SameAt<V>(m: map<Path, V>, n: map<Path, V>)
    requires forall p :: At(m, p) == At(n, p)
    ensures m == n
  {
    forall p ensures p in m <==> p in n {
      assert At(m, p) == At(n, p);
    }
    forall p | p in m ensures m[p] == n[p] {
      assert At(m, p) == At(n, p);
    }
  }

  /**
   * However a refresh stopped, the row of a file that should be indexed is still
   * there, brought up to date if the file was read and as it was if not.
   */
  lemma StoppedRefreshKeepsRows(r: Rules, d: Disk, ix: Ix, after: Ix, job: Job, reached: set<Path>, walked: bool, p: Path)
    requires Refreshed(r, d, ix, after, job, reached, walked) && Honest(r, d, ix.rows, job.scope)
    requires Candidate(r, d, job.scope, p) && Indexable(r, d, p) && p in ix.rows
    ensures p in after.rows && after.rows[p] == if p in reached then FactsOf(d, p) else ix.rows[p]
  {
    assert At(after.rows, p) == RowAfter(r, d, ix, job, reached, walked, p);
    CandidateIsUnder(r, d, job.scope, p);
    if p in reached {
      SettledIsExact(r, d, At(ix.rows, p),
                     if Loads(r, d, ix, job.scope, job.shallow, p) then At(ix.rows, p) else None, p, job.force);
    } else if Loads(r, d, ix, job.scope, job.shallow, p) {
      NotLoadedInVain(r, d, ix, job, p);
    }
  }

  /** A file the walk would find is loaded to be removed by no finished walk. */
  lemma NotLoadedInVain(r: Rules, d: Disk, ix: Ix, job: Job, p: Path)
    requires Candidate(r, d, job.scope, p) && Loads(r, d, ix, job.scope, job.shallow, p)
    ensures Lists(r, d, ix, job.scope, job.shallow, p)
  {
    if !job.shallow {
      ListsAll(r, d, ix, job.scope, p);
    } else if p != job.scope && p.parent != job.scope {
      var known := Known(ix, job.scope, true);
      var v :| Vanished(r, d, job.scope, known, v) && Under(v, p) && p != v;
      VisitedIsUnder(r, d, job.scope, p.parent);
      VisitedThrough(r, d, job.scope, v, p.parent);
      assert false;
    }
  }

  lemma VisitedThrough(r: Rules, d: Disk, s: Path, v: Path, q: Path)
    requires Visited(r, d, s, q) && Under(v, q) && v.In? && v.parent == s
    ensures IsDir(d, v) && r.enters(v)
  {
    assert Under(s, v);
    VisitedBetween(r, d, s, v, q);
    UnderDepth(s, v);
  }

  /** A second refresh of a disk that did not change has nothing to do. */
  lemma RefreshIsIdempotent(r: Rules, d: Disk, ix: Ix, once: Ix, twice: Ix, s: Path, force: bool, again: bool)
    requires Honest(r, d, ix.rows, s)
    requires Done(r, d, ix, once, Job(s, false, force)) && Done(r, d, once, twice, Job(s, false, again))
    ensures twice == once
  {
    RefreshIsExact(r, d, ix, once, s, force);
    forall p | p in once.rows && Under(s, p) ensures HonestRow(r, d, once.rows[p], p) {
      assert At(once.rows, p) == Want(r, d, s, p);
    }
    RefreshIsExact(r, d, once, twice, s, again);
    forall p ensures At(twice.rows, p) == At(once.rows, p) {
    }
    forall q ensures At(twice.dirs, q) == At(once.dirs, q) {
    }
    SameAt(twice.rows, once.rows);
    SameAt(twice.dirs, once.dirs);
  }

  /**
   * When the clock stops a refresh after its walk has finished, a new file it did
   * not get to has no row, and yet its directory is recorded with the disk's time.
   */
  lemma UnreadNewFileIsHidden(r: Rules, d: Disk, ix: Ix, after: Ix, job: Job, reached: set<Path>, p: Path)
    requires Refreshed(r, d, ix, after, job, reached, true)
    requires Lists(r, d, ix, job.scope, job.shallow, p) && p != job.scope && p !in reached && p !in ix.rows
    ensures p !in after.rows && At(after.dirs, p.parent) == Some(d[p.parent].mtime)
  {
    assert At(after.rows, p) == RowAfter(r, d, ix, job, reached, true, p);
    assert At(after.dirs, p.parent) == DirAfter(r, d, ix, job, true, p.parent);
  }
}
