/** The stored index and the refresh that brings a part of it up to date. */
module FileIndex {
  import opened Common
  import opened SourceTree
  import opened TreeWalk
  import opened IndexSpec

  /** A stored row; ids are the database's, and are used again once free. */
  datatype Row = Row(id: nat, facts: Facts)

  /** What a refresh queues for the database. A removal and a touch name the row by id. */
  datatype Write =
    | DropRow(path: Path, id: nat)
    | TouchRow(path: Path, id: nat, size: nat, mtime: int)
    | PutRow(path: Path, facts: Facts)

  /** What one write does to the row at `p`. */
  function Effect(row: Option<Facts>, w: Write, p: Path): Option<Facts> {
    if w.path != p then row
    else
      match w
      case DropRow(_, _) => None
      case TouchRow(_, _, size, mtime) => if row.Some? then Some(Facts(size, mtime, row.value.hash)) else None
      case PutRow(_, facts) => Some(facts)
  }

  function Effects(row: Option<Facts>, writes: seq<Write>, p: Path): Option<Facts> {
    if writes == [] then row else Effect(Effects(row, writes[..|writes| - 1], p), writes[|writes| - 1], p)
  }

  lemma EffectsAppend(row: Option<Facts>, writes: seq<Write>, w: Write, p: Path)
    ensures Effects(row, writes + [w], p) == Effect(Effects(row, writes, p), w, p)
  {
    assert (writes + [w])[..|writes + [w]| - 1] == writes;
  }

  lemma {:induction false} UntouchedByWrites(row: Option<Facts>, writes: seq<Write>, p: Path)
    requires forall w :: w in writes ==> w.path != p
    ensures Effects(row, writes, p) == row
  {
    if writes != [] {
      UntouchedByWrites(row, writes[..|writes| - 1], p);
    }
  }

  function PathsOf(writes: seq<Write>): set<Path> {
    if writes == [] then {} else PathsOf(writes[..|writes| - 1]) + {writes[|writes| - 1].path}
  }

  lemma {:induction false} PathsAreWritten(writes: seq<Write>)
    ensures forall p :: p in PathsOf(writes) <==> exists i :: 0 <= i < |writes| && writes[i].path == p
  {
    if writes != [] {
      var n := |writes| - 1;
      PathsAreWritten(writes[..n]);
      forall p ensures p in PathsOf(writes) <==> exists i :: 0 <= i < |writes| && writes[i].path == p {
        if p in PathsOf(writes[..n]) {
          var i :| 0 <= i < n && writes[..n][i].path == p;
          assert writes[i].path == p;
        }
        if i :| 0 <= i < |writes| && writes[i].path == p {
          assert i < n ==> writes[..n][i].path == p;
        }
      }
    }
  }

  /** Every path is written once, and a row named by id is the row at that path. */
  ghost predicate Aligned(files: map<Path, Row>, writes: seq<Write>) {
    && (forall i, j :: 0 <= i < j < |writes| ==> writes[i].path != writes[j].path)
    && (forall w :: w in writes && !w.PutRow? ==> w.path in files && files[w.path].id == w.id)
  }

  ghost predicate UniqueIds(files: map<Path, Row>) {
    forall p, q :: p in files && q in files && files[p].id == files[q].id ==> p == q
  }

  /** `written` is false when the refresh was cancelled in its walk, before it wrote anything. */
  datatype Outcome = Outcome(limits: set<Limit>, cancelled: bool, written: bool, parsed: nat, kept: nat) {
    predicate Finished() { limits == {} && !cancelled }
  }

  /** `flushFiles` and `flushRows` are how many parsed files and rows may wait for a transaction. */
  datatype Settings = Settings(budget: Budget, cancel: nat -> bool, flushFiles: nat, flushRows: nat, weight: Bytes -> nat)

  /** A refresh looks at its budget once for each directory and each file at most, and once more. */
  function Moments(d: Disk): nat { 2 * |d.Keys| + 1 }

  /** At one of these moments the time is up. */
  ghost predicate Expires(b: Budget, moments: nat) { exists i: nat :: i < moments && b.expired(i) }

  ghost predicate Cancels(settings: Settings, moments: nat) { exists i: nat :: i < moments && settings.cancel(i) }

  ghost predicate AllFiles(r: Rules, d: Disk, ix: Ix, job: Job, files: set<Path>) {
    forall p :: p in files ==> Lists(r, d, ix, job.scope, job.shallow, p)
  }

  ghost predicate AllDirs(r: Rules, d: Disk, ix: Ix, job: Job, dirs: set<Path>) {
    forall q :: q in dirs ==> VisitedPast(r, d, job.scope, Known(ix, job.scope, job.shallow), q)
  }

  /** So many files, or directories, are there for a job's walk to find. */
  ghost predicate ManyFiles(r: Rules, d: Disk, ix: Ix, job: Job, n: nat) {
    exists files: set<Path> :: AllFiles(r, d, ix, job, files) && |files| >= n
  }

  ghost predicate ManyDirs(r: Rules, d: Disk, ix: Ix, job: Job, n: nat) {
    exists dirs: set<Path> :: AllDirs(r, d, ix, job, dirs) && |dirs| >= n
  }

  /** Whatever stopped a refresh was met: more files or directories than allowed, the clock, or the caller. */
  ghost predicate Reasoned(r: Rules, d: Disk, ix: Ix, job: Job, settings: Settings, o: Outcome) {
    && (FileLimit in o.limits ==> ManyFiles(r, d, ix, job, settings.budget.maxFiles + 1))
    && (DirLimit in o.limits ==> ManyDirs(r, d, ix, job, settings.budget.maxDirectories + 1))
    && (TimeLimit in o.limits ==> Expires(settings.budget, Moments(d)))
    && (o.cancelled ==> Cancels(settings, Moments(d)))
  }

  /** As many files and directories are allowed as there are on the disk, and nobody stops the clock or cancels. */
  ghost predicate Ample(d: Disk, settings: Settings) {
    && |d.Keys| <= settings.budget.maxFiles && |d.Keys| <= settings.budget.maxDirectories
    && !Expires(settings.budget, Moments(d)) && !Cancels(settings, Moments(d))
  }

  lemma NoMore(small: set<Path>, big: set<Path>)
    requires small <= big
    ensures |small| <= |big|
  {
    assert big == small + (big - small);
  }

  /** With an ample budget a refresh gets through. */
  lemma AmpleFinishes(r: Rules, d: Disk, ix: Ix, job: Job, settings: Settings, o: Outcome)
    requires Reasoned(r, d, ix, job, settings, o) && Ample(d, settings)
    ensures o.Finished()
  {
    if FileLimit in o.limits {
      var files: set<Path> :| AllFiles(r, d, ix, job, files) && |files| >= settings.budget.maxFiles + 1;
      NoMore(files, d.Keys);
    }
    if DirLimit in o.limits {
      var dirs: set<Path> :| AllDirs(r, d, ix, job, dirs) && |dirs| >= settings.budget.maxDirectories + 1;
      NoMore(dirs, d.Keys);
    }
    assert forall l :: l in o.limits ==> l == FileLimit || l == DirLimit || l == TimeLimit;
  }

  /** The moment at which the next of the files is looked at. */
  method MomentOf(d: Disk, files: set<Path>, todo: set<Path>, clock: nat) returns (moment: nat)
    requires todo != {} && todo <= files <= d.Keys && clock <= |d.Keys| + 1
    ensures clock <= moment < Moments(d)
  {
    NoMore(todo, files);
    NoMore(files, d.Keys);
    moment := clock + |files| - |todo|;
  }

  /** A walk looks at most once for each directory of the disk, and once more. */
  lemma WalkIsShort(r: Rules, d: Disk, s: Path, known: set<Path>, walk: Walk)
    requires Sound(r, d, s, known, walk)
    ensures |walk.dirs| <= |d.Keys| && walk.files <= d.Keys
  {
    NoMore(walk.dirs.Keys, d.Keys);
    assert |walk.dirs.Keys| == |walk.dirs|;
  }

  lemma ManyFilesMet(r: Rules, d: Disk, ix: Ix, job: Job, files: set<Path>, n: nat)
    requires AllFiles(r, d, ix, job, files) && |files| >= n
    requires MoreFiles(r, d, job.scope, Known(ix, job.scope, job.shallow), files)
    ensures ManyFiles(r, d, ix, job, n + 1)
  {
    var p :| CandidatePast(r, d, job.scope, Known(ix, job.scope, job.shallow), p) && p !in files;
    assert AllFiles(r, d, ix, job, files + {p});
  }

  lemma ManyDirsMet(r: Rules, d: Disk, ix: Ix, job: Job, dirs: set<Path>, n: nat)
    requires AllDirs(r, d, ix, job, dirs) && |dirs| >= n
    requires MoreDirs(r, d, job.scope, Known(ix, job.scope, job.shallow), dirs)
    ensures ManyDirs(r, d, ix, job, n + 1)
  {
    var q :| VisitedPast(r, d, job.scope, Known(ix, job.scope, job.shallow), q) && q !in dirs;
    assert AllDirs(r, d, ix, job, dirs + {q});
  }

  lemma WalkIsReasoned(r: Rules, d: Disk, ix: Ix, job: Job, settings: Settings, walk: Walk, clock: nat, o: Outcome)
    requires var known := Known(ix, job.scope, job.shallow);
             Sound(r, d, job.scope, known, walk) && LimitsMet(r, d, job.scope, known, settings.budget, walk, clock)
    requires clock <= Moments(d) && walk.limits <= o.limits <= walk.limits + {TimeLimit}
    requires o.limits != walk.limits ==> Expires(settings.budget, Moments(d))
    requires o.cancelled ==> Cancels(settings, Moments(d))
    ensures Reasoned(r, d, ix, job, settings, o)
  {
    if FileLimit in walk.limits { ManyFilesMet(r, d, ix, job, walk.files, settings.budget.maxFiles); }
    assert |walk.dirs.Keys| == |walk.dirs|;
    if DirLimit in walk.limits { ManyDirsMet(r, d, ix, job, walk.dirs.Keys, settings.budget.maxDirectories); }
  }

  function FactsAt(files: map<Path, Row>, p: Path): Option<Facts> {
    if p in files then Some(files[p].facts) else None
  }

  class Index {
    var files: map<Path, Row>
    var dirs: map<Path, int>
    var generation: nat

    ghost predicate Valid()
      reads this
    {
      UniqueIds(files)
    }

    ghost function View(): Ix
      reads this
    {
      Ix(map p | p in files :: files[p].facts, dirs)
    }

    constructor ()
      ensures Valid() && View() == Ix(map[], map[]) && generation == 0
    {
      files, dirs, generation := map[], map[], 0;
    }

    // ---- statements inside a transaction ----

    /** An id no row has: the database takes one more than the largest in use. */
    method FreeId() returns (id: nat)
      ensures forall p :: p in files ==> files[p].id < id
    {
      id := 1;
      var rest := files.Keys;
      while rest != {}
        invariant rest <= files.Keys
        invariant forall p :: p in files && p !in rest ==> files[p].id < id
      {
        var p :| p in rest;
        rest := rest - {p};
        if files[p].id >= id {
          id := files[p].id + 1;
        }
      }
    }

    method RemoveFile(id: nat)
      requires Valid()
      modifies `files
      ensures Valid()
      ensures files == map p | p in old(files) && old(files)[p].id != id :: old(files)[p]
    {
      files := map p | p in files && files[p].id != id :: files[p];
    }

    method TouchFile(id: nat, size: nat, mtime: int)
      requires Valid()
      modifies `files
      ensures Valid()
      ensures files == map p | p in old(files) ::
                         if old(files)[p].id == id
                         then Row(id, Facts(size, mtime, old(files)[p].facts.hash))
                         else old(files)[p]
    {
      files := map p | p in files ::
                 if files[p].id == id then Row(id, Facts(size, mtime, files[p].facts.hash)) else files[p];
    }

    /** A row that already says the same is left alone; any other is replaced under a new id. */
    method WriteFile(path: Path, facts: Facts)
      requires Valid()
      modifies `files
      ensures Valid()
      ensures path in files && files[path].facts == facts
      ensures forall p :: p != path ==> (p in files <==> p in old(files)) && (p in files ==> files[p] == old(files)[p])
    {
      if path in files && files[path].facts == facts { return; }
      if path in files {
        RemoveFile(files[path].id);
      }
      var id := FreeId();
      files := files[path := Row(id, facts)];
    }

    /** Rows other than those at `paths` are the same objects, ids included. */
    twostate predicate SameElsewhere(paths: set<Path>)
      reads this
    {
      forall p :: p !in paths ==>
        (p in files <==> p in old(files)) && (p in files ==> files[p] == old(files)[p])
    }

    method RunWrite(w: Write)
      requires Valid()
      requires !w.PutRow? ==> w.path in files && files[w.path].id == w.id
      modifies `files
      ensures Valid() && SameElsewhere({w.path})
      ensures forall p :: FactsAt(files, p) == Effect(FactsAt(old(files), p), w, p)
    {
      match w
      case DropRow(_, id) => RemoveFile(id);
      case TouchRow(_, id, size, mtime) => TouchFile(id, size, mtime);
      case PutRow(path, facts) => WriteFile(path, facts);
    }

    /** One transaction for the whole queue; a dirty one moves the generation. */
    method Flush(pending: seq<Write>, dirty: bool)
      requires Valid() && Aligned(files, pending)
      modifies `files, `generation
      ensures Valid() && SameElsewhere(PathsOf(pending))
      ensures forall p :: FactsAt(files, p) == Effects(FactsAt(old(files), p), pending, p)
      ensures generation == old(generation) + if dirty then 1 else 0
    {
      var i := 0;
      while i < |pending|
        invariant i <= |pending| && Valid() && generation == old(generation)
        invariant SameElsewhere(PathsOf(pending[..i]))
        invariant forall p :: FactsAt(files, p) == Effects(FactsAt(old(files), p), pending[..i], p)
      {
        var w := pending[i];
        assert pending[..i + 1][..i] == pending[..i];
        NotYetWritten(old(files), pending, i);
        RunWrite(w);
        i := i + 1;
      }
      assert pending[..|pending|] == pending;
      if dirty {
        generation := generation + 1;
      }
    }

    /** The rows to compare with the walk, by path. */
    method StoredFiles(scope: Path, shallow: bool, vanished: set<Path>) returns (stored: map<Path, Row>)
      ensures forall p :: p in stored ==> p in files && stored[p] == files[p]
      ensures forall p :: p in stored <==> p in files && Loaded(scope, shallow, vanished, p)
    {
      stored := map p | p in files && Loaded(scope, shallow, vanished, p) :: files[p];
    }

    /** The directory times after a walk that finished. */
    method RecordDirs(scope: Path, shallow: bool, walk: Walk)
      modifies `dirs
      ensures dirs == (map q | q in old(dirs) && !Forgotten(scope, shallow, walk.vanished, q) :: old(dirs)[q]) + walk.dirs
    {
      dirs := (map q | q in dirs && !Forgotten(scope, shallow, walk.vanished, q) :: dirs[q]) + walk.dirs;
    }

    /**
     * Read the candidates of a finished or unfinished walk, one after another. The
     * clock, which the walk read `clock` times, goes on.
     */
    method ReadCandidates(r: Rules, d: Disk, job: Job, settings: Settings, walk: Walk, clock: nat,
                          stored: map<Path, Row>, ghost ix: Ix, ghost files0: map<Path, Row>)
      returns (pending: seq<Write>, o: Outcome, ghost reached: set<Path>)
      requires Valid() && files == files0 && View() == ix
      requires walk.files <= d.Keys && clock <= |d.Keys| + 1
      requires forall p :: p in walk.files ==> Lists(r, d, ix, job.scope, job.shallow, p)
      requires forall p :: p in walk.files ==> Recalled(r, d, ix, job, stored, files0, p)
      modifies `files, `generation
      ensures Valid() && generation >= old(generation)
      ensures Progress(r, d, ix, files0, files, job, reached, pending)
      ensures reached <= walk.files && walk.limits <= o.limits <= walk.limits + {TimeLimit}
      ensures o.Finished() ==> reached == walk.files
      ensures o.written && (o.limits != walk.limits ==> Expires(settings.budget, Moments(d)))
      ensures o.cancelled ==> Cancels(settings, Moments(d))
    {
      pending, reached := [], {};
      o := Outcome(walk.limits, false, true, 0, 0);
      var rows, todo := 0, walk.files;
      NoProgress(r, d, ix, files0, job);
      while todo != {}
        invariant Valid() && generation >= old(generation)
        invariant reached + todo == walk.files && reached !! todo
        invariant Progress(r, d, ix, files0, files, job, reached, pending)
        invariant o.limits == walk.limits && !o.cancelled && o.written
        decreases todo
      {
        var moment := MomentOf(d, walk.files, todo, clock);
        if settings.cancel(moment) {
          o := o.(cancelled := true);
          break;
        }
        if settings.budget.expired(moment) {
          o := o.(limits := o.limits + {TimeLimit});
          break;
        }
        var p :| p in todo;
        todo := todo - {p};
        assert Lists(r, d, ix, job.scope, job.shallow, p) && Recalled(r, d, ix, job, stored, files0, p);
        pending, rows, o := ReadOne(r, d, job, settings, p, stored, pending, rows, o, ix, files0, reached);
        reached := reached + {p};
      }
    }

    /** Read one candidate: it is kept, touched, dropped or parsed. */
    method ReadOne(r: Rules, d: Disk, job: Job, settings: Settings, p: Path, stored: map<Path, Row>, sofar: seq<Write>,
                   count: nat, before: Outcome, ghost ix: Ix, ghost files0: map<Path, Row>, ghost reached: set<Path>)
      returns (pending: seq<Write>, rows: nat, o: Outcome)
      requires Valid() && ix.rows == map q | q in files0 :: files0[q].facts
      requires Progress(r, d, ix, files0, files, job, reached, sofar) && p !in reached
      requires IsFile(d, p) && Recalled(r, d, ix, job, stored, files0, p)
      modifies `files, `generation
      ensures Valid() && generation >= old(generation)
      ensures Progress(r, d, ix, files0, files, job, reached + {p}, pending)
      ensures o == before.(parsed := o.parsed, kept := o.kept)
    {
      pending, rows, o := sofar, count, before;
      var row := if p in stored then Some(stored[p]) else None;
      var write := WriteFor(r, d, row, p, job.force);
      OneMore(r, d, ix, files0, files, job, reached, sofar, row, p);
      if write.Some? {
        pending := pending + [write.value];
        if write.value.PutRow? {
          o := o.(parsed := o.parsed + 1);
          rows := rows + settings.weight(d[p].bytes);
          pending, rows := FlushWhenFull(r, d, job, settings, pending, rows, ix, files0, reached + {p});
        }
      }
      if write.None? || write.value.TouchRow? {
        o := o.(kept := o.kept + 1);
      }
    }

    /** Enough parsed files or rows wait: they go out in a transaction. */
    method FlushWhenFull(ghost r: Rules, ghost d: Disk, ghost job: Job, settings: Settings, pending: seq<Write>, rows: nat,
                         ghost ix: Ix, ghost files0: map<Path, Row>, ghost reached: set<Path>)
      returns (rest: seq<Write>, left: nat)
      requires Valid() && Progress(r, d, ix, files0, files, job, reached, pending)
      modifies `files, `generation
      ensures Valid() && generation >= old(generation) && Progress(r, d, ix, files0, files, job, reached, rest)
    {
      rest, left := pending, rows;
      if |pending| >= settings.flushFiles || rows >= settings.flushRows {
        Flush(pending, true);
        Flushed(r, d, ix, files0, old(files), files, job, reached, pending);
        rest, left := [], 0;
      }
    }

    /** Rows that were loaded and whose file the finished walk did not find are to go. */
    method QueueRemovals(r: Rules, d: Disk, job: Job, walk: Walk, stored: map<Path, Row>, sofar: seq<Write>,
                         ghost ix: Ix, ghost files0: map<Path, Row>, ghost reached: set<Path>)
      returns (pending: seq<Write>)
      requires Progress(r, d, ix, files0, files, job, reached, sofar) && reached <= walk.files
      requires forall p :: p in stored ==> p in files0 && stored[p] == files0[p]
      requires ix.rows == map q | q in files0 :: files0[q].facts
      ensures Aligned(files, pending)
      ensures forall p :: Effects(FactsAt(files, p), pending, p) ==
                if p in stored && p !in walk.files then None else RowAfter(r, d, ix, job, reached, false, p)
    {
      pending := sofar;
      var todo := stored.Keys - walk.files;
      ghost var removed := {};
      NothingRemoved(r, d, ix, files0, files, job, reached, pending);
      while todo != {}
        invariant removed + todo == stored.Keys - walk.files && removed !! todo
        invariant Removing(r, d, ix, files0, files, job, reached, removed, pending)
        decreases todo
      {
        var p :| p in todo;
        todo := todo - {p};
        OneLess(r, d, ix, files0, files, job, reached, removed, pending, p);
        pending := pending + [DropRow(p, stored[p].id)];
        removed := removed + {p};
      }
      forall p ensures Effects(FactsAt(files, p), pending, p) ==
                if p in stored && p !in walk.files then None else RowAfter(r, d, ix, job, reached, false, p) {
        assert Goal(r, d, ix, files, job, reached, removed, pending, p);
      }
    }

    /**
     * Make the rows of a job's scope say what the disk says.
     *
     * Writes wait in memory and go out in short transactions; where those are cut
     * does not show in the result. A run that stops early, at a limit or because
     * it was cancelled, keeps what it read: `reached` are the candidates it got to,
     * and `walked` says whether its listing was complete and was recorded.
     */
    method RefreshIndex(r: Rules, d: Disk, job: Job, settings: Settings)
      returns (o: Outcome, ghost reached: set<Path>, ghost walked: bool)
      requires Valid() && ValidDisk(d)
      modifies this
      ensures Valid()
      ensures if o.written then generation > old(generation)
              else o.cancelled && generation == old(generation) && View() == old(View())
      ensures Refreshed(r, d, old(View()), View(), job, reached, walked)
      ensures o.Finished() ==> walked && AllRead(r, d, old(View()), job, reached)
      ensures Reasoned(r, d, old(View()), job, settings, o)
    {
      ghost var ix, files0 := View(), files;
      var known := if job.shallow then ChildDirs(dirs, job.scope) else {};
      var walk, clock, cancelled := Collect(r, d, job.scope, settings.budget, settings.cancel, known);
      WalkIsShort(r, d, job.scope, known, walk);
      if cancelled {
        o, reached, walked := Outcome({}, true, false, 0, 0), {}, false;
        NothingDone(r, d, ix, job);
        return;
      }
      var stored := StoredFiles(job.scope, job.shallow, walk.vanished);
      AllRecalled(r, d, ix, job, known, walk, stored, files0);
      var pending;
      pending, o, reached := ReadCandidates(r, d, job, settings, walk, clock, stored, ix, files0);
      WalkIsReasoned(r, d, ix, job, settings, walk, clock, o);
      walked := !o.cancelled && walk.limits == {};
      WriteLast(r, d, job, walk, !o.cancelled && walk.limits == {}, stored, pending, ix, files0, known, reached);
    }

    /** The last transaction; when the walk finished and nobody cancelled, the rows without a file go in it too. */
    method WriteLast(r: Rules, d: Disk, job: Job, walk: Walk, walked: bool, stored: map<Path, Row>, sofar: seq<Write>,
                     ghost ix: Ix, ghost files0: map<Path, Row>, ghost known: set<Path>, ghost reached: set<Path>)
      requires Valid() && dirs == ix.dirs && ix.rows == map q | q in files0 :: files0[q].facts
      requires known == Known(ix, job.scope, job.shallow) && Sound(r, d, job.scope, known, walk)
      requires walked ==> Full(r, d, job.scope, known, walk)
      requires forall p :: p in stored <==> p in files0 && Loaded(job.scope, job.shallow, walk.vanished, p)
      requires forall p :: p in stored ==> stored[p] == files0[p]
      requires Progress(r, d, ix, files0, files, job, reached, sofar) && reached <= walk.files
      modifies this
      ensures Valid() && generation > old(generation)
      ensures Refreshed(r, d, ix, View(), job, reached, walked)
    {
      var pending := sofar;
      if walked {
        pending := QueueRemovals(r, d, job, walk, stored, pending, ix, files0, reached);
        RecordDirs(job.scope, job.shallow, walk);
      } else {
        forall p ensures Effects(FactsAt(files, p), pending, p) == RowAfter(r, d, ix, job, reached, false, p) {
          assert ProgressAt(r, d, ix, files, job, reached, pending, p);
        }
      }
      ghost var was := files;
      Flush(pending, true);
      Concluded(r, d, ix, View(), job, known, walk, stored, files0, was, files, reached, walked, pending);
    }
  }

  lemma AllRecalled(r: Rules, d: Disk, ix: Ix, job: Job, known: set<Path>, walk: Walk, stored: map<Path, Row>,
                    files0: map<Path, Row>)
    requires known == Known(ix, job.scope, job.shallow) && Sound(r, d, job.scope, known, walk)
    requires forall p :: p in stored ==> p in files0 && stored[p] == files0[p]
    requires forall p :: p in stored <==> p in files0 && Loaded(job.scope, job.shallow, walk.vanished, p)
    ensures forall p :: p in walk.files ==> Recalled(r, d, ix, job, stored, files0, p)
  {
    forall p | p in walk.files ensures Recalled(r, d, ix, job, stored, files0, p) {
      LoadedCandidate(r, d, ix, job, known, walk, p);
    }
  }

  /** The rows a refresh asks the database for. */
  predicate Loaded(scope: Path, shallow: bool, vanished: set<Path>, p: Path) {
    if !shallow then Under(scope, p)
    else
      || p == scope
      || (p.In? && p.parent == scope && !Beyond(p))
      || exists v :: v in vanished && Under(v, p) && p != v
  }

  /** The directory rows that go before the walk's are put. */
  predicate Forgotten(scope: Path, shallow: bool, vanished: set<Path>, q: Path) {
    || q == scope
    || (!shallow && Under(scope, q))
    || (shallow && exists v :: v in vanished && Under(v, q))
  }

  /** The write a candidate calls for, given the row that was loaded for it. */
  function WriteFor(r: Rules, d: Disk, before: Option<Row>, p: Path, force: bool): Option<Write>
    requires IsFile(d, p)
  {
    match Decide(r, d, if before.Some? then Some(before.value.facts) else None, p, force)
    case Keep => None
    case Drop => Some(DropRow(p, before.value.id))
    case Touch(size, mtime) => Some(TouchRow(p, before.value.id, size, mtime))
    case Put(facts) => Some(PutRow(p, facts))
  }

  /** Rows not reached are as they were, and waiting writes are for reached ones that were not written. */
  ghost predicate Pended(files0: map<Path, Row>, files: map<Path, Row>, pending: seq<Write>, reached: set<Path>) {
    && Aligned(files, pending)
    && PathsOf(pending) <= reached
    && forall p :: p !in reached ==> (p in files <==> p in files0) && (p in files ==> files[p] == files0[p])
  }

  lemma {:induction false} NotBelowKnown(r: Rules, d: Disk, s: Path, known: set<Path>, q: Path, v: Path)
    requires VisitedPast(r, d, s, known, q) && v in known && Under(v, q) && v.In? && v.parent == s
    ensures false
  {
    if q == s {
      UnderDepth(v, s);
    } else if q != v {
      NotBelowKnown(r, d, s, known, q.parent, v);
    }
  }

  /** The row loaded for a candidate is the one a refresh is to compare it with. */
  ghost predicate Recalled(r: Rules, d: Disk, ix: Ix, job: Job, stored: map<Path, Row>, files0: map<Path, Row>, p: Path) {
    && (p in stored <==> p in files0 && Loads(r, d, ix, job.scope, job.shallow, p))
    && (p in stored ==> stored[p] == files0[p])
  }

  /** With the waiting writes done, the row at `p` is what having read `reached` makes it. */
  ghost predicate ProgressAt(r: Rules, d: Disk, ix: Ix, files: map<Path, Row>, job: Job, reached: set<Path>,
                             pending: seq<Write>, p: Path)
  {
    Effects(FactsAt(files, p), pending, p) == RowAfter(r, d, ix, job, reached, false, p)
  }

  ghost predicate Progress(r: Rules, d: Disk, ix: Ix, files0: map<Path, Row>, files: map<Path, Row>, job: Job,
                           reached: set<Path>, pending: seq<Write>)
  {
    Pended(files0, files, pending, reached) &&
    forall p :: ProgressAt(r, d, ix, files, job, reached, pending, p)
  }

  lemma NoProgress(r: Rules, d: Disk, ix: Ix, files: map<Path, Row>, job: Job)
    requires ix.rows == map q | q in files :: files[q].facts
    ensures Progress(r, d, ix, files, files, job, {}, [])
  {
    forall p ensures ProgressAt(r, d, ix, files, job, {}, [], p) {
    }
  }

  lemma AppendAligned(files: map<Path, Row>, was: seq<Write>, w: Write)
    requires Aligned(files, was) && w.path !in PathsOf(was)
    requires !w.PutRow? ==> w.path in files && files[w.path].id == w.id
    ensures Aligned(files, was + [w]) && PathsOf(was + [w]) == PathsOf(was) + {w.path}
  {
    assert (was + [w])[..|was + [w]| - 1] == was;
    PathsAreWritten(was);
    forall i, j | 0 <= i < j < |was + [w]| ensures (was + [w])[i].path != (was + [w])[j].path {
      assert was[i].path in PathsOf(was);
    }
  }

  /** As `ProgressAt`, with the rows of `removed` to go. */
  ghost predicate Goal(r: Rules, d: Disk, ix: Ix, files: map<Path, Row>, job: Job, reached: set<Path>,
                       removed: set<Path>, pending: seq<Write>, p: Path)
  {
    Effects(FactsAt(files, p), pending, p) ==
    if p in removed then None else RowAfter(r, d, ix, job, reached, false, p)
  }

  ghost predicate Removing(r: Rules, d: Disk, ix: Ix, files0: map<Path, Row>, files: map<Path, Row>, job: Job,
                           reached: set<Path>, removed: set<Path>, pending: seq<Write>)
  {
    && Pended(files0, files, pending, reached + removed)
    && forall p :: Goal(r, d, ix, files, job, reached, removed, pending, p)
  }

  lemma NothingRemoved(r: Rules, d: Disk, ix: Ix, files0: map<Path, Row>, files: map<Path, Row>, job: Job,
                       reached: set<Path>, pending: seq<Write>)
    requires Progress(r, d, ix, files0, files, job, reached, pending)
    ensures Removing(r, d, ix, files0, files, job, reached, {}, pending)
  {
    assert reached + {} == reached;
    forall p ensures Goal(r, d, ix, files, job, reached, {}, pending, p) {
      assert ProgressAt(r, d, ix, files, job, reached, pending, p);
    }
  }

  /** Queueing one more removal. */
  lemma OneLess(r: Rules, d: Disk, ix: Ix, files0: map<Path, Row>, files: map<Path, Row>, job: Job,
                reached: set<Path>, removed: set<Path>, was: seq<Write>, p: Path)
    requires Removing(r, d, ix, files0, files, job, reached, removed, was)
    requires p !in reached && p !in removed && p in files0
    ensures Removing(r, d, ix, files0, files, job, reached, removed + {p}, was + [DropRow(p, files0[p].id)])
  {
    assert reached + (removed + {p}) == reached + removed + {p};
    var w := DropRow(p, files0[p].id);
    AppendAligned(files, was, w);
    forall q ensures Goal(r, d, ix, files, job, reached, removed + {p}, was + [w], q) {
      assert Goal(r, d, ix, files, job, reached, removed, was, q);
      EffectsAppend(FactsAt(files, q), was, w, q);
    }
  }

  /** When the walk finished, what was loaded is what a refresh loads. */
  lemma LoadedWhenWalked(r: Rules, d: Disk, ix: Ix, job: Job, known: set<Path>, walk: Walk, p: Path)
    requires known == Known(ix, job.scope, job.shallow)
    requires Sound(r, d, job.scope, known, walk) && Full(r, d, job.scope, known, walk)
    ensures Loaded(job.scope, job.shallow, walk.vanished, p) <==> Loads(r, d, ix, job.scope, job.shallow, p)
    ensures p in walk.files <==> Lists(r, d, ix, job.scope, job.shallow, p)
  {
    if job.shallow {
      if v :| v in walk.vanished && Under(v, p) && p != v {
        assert Vanished(r, d, job.scope, known, v);
      }
      if v :| Vanished(r, d, job.scope, known, v) && Under(v, p) && p != v {
        assert v in walk.vanished;
      }
    }
  }

  lemma ForgottenWhenWalked(r: Rules, d: Disk, ix: Ix, job: Job, known: set<Path>, walk: Walk, q: Path)
    requires known == Known(ix, job.scope, job.shallow)
    requires Sound(r, d, job.scope, known, walk) && Full(r, d, job.scope, known, walk)
    ensures Forgotten(job.scope, job.shallow, walk.vanished, q) <==>
              || q == job.scope
              || (!job.shallow && Under(job.scope, q))
              || (job.shallow && UnderVanished(r, d, job.scope, known, q))
    ensures q in walk.dirs <==> VisitedPast(r, d, job.scope, known, q)
    ensures q in walk.dirs ==> walk.dirs[q] == d[q].mtime
  {
    if job.shallow {
      if v :| v in walk.vanished && Under(v, q) {
        assert Vanished(r, d, job.scope, known, v);
      }
      if v :| Vanished(r, d, job.scope, known, v) && Under(v, q) {
        assert v in walk.vanished;
      }
    }
  }

  lemma NothingDone(r: Rules, d: Disk, ix: Ix, job: Job)
    ensures Refreshed(r, d, ix, ix, job, {}, false)
  {
    forall p ensures At(ix.rows, p) == RowAfter(r, d, ix, job, {}, false, p) {
    }
  }

  /** The final transaction leaves what the refresh is to leave. */
  lemma Concluded(r: Rules, d: Disk, ix: Ix, after: Ix, job: Job, known: set<Path>, walk: Walk,
                  stored: map<Path, Row>, files0: map<Path, Row>, was: map<Path, Row>, files: map<Path, Row>,
                  reached: set<Path>, walked: bool, pending: seq<Write>)
    requires known == Known(ix, job.scope, job.shallow)
    requires Sound(r, d, job.scope, known, walk) && (walked ==> Full(r, d, job.scope, known, walk))
    requires ix.rows == map q | q in files0 :: files0[q].facts
    requires forall p :: p in stored <==> p in files0 && Loaded(job.scope, job.shallow, walk.vanished, p)
    requires reached <= walk.files
    requires forall p :: FactsAt(files, p) == Effects(FactsAt(was, p), pending, p)
    requires forall p :: Effects(FactsAt(was, p), pending, p) ==
               if walked && p in stored && p !in walk.files then None
               else RowAfter(r, d, ix, job, reached, false, p)
    requires after.rows == map p | p in files :: files[p].facts
    requires after.dirs == if walked
                           then (map q | q in ix.dirs && !Forgotten(job.scope, job.shallow, walk.vanished, q) ::
                                   ix.dirs[q]) + walk.dirs
                           else ix.dirs
    ensures Refreshed(r, d, ix, after, job, reached, walked)
  {
    forall p ensures At(after.rows, p) == RowAfter(r, d, ix, job, reached, walked, p) {
      assert At(after.rows, p) == FactsAt(files, p);
      if walked { LoadedWhenWalked(r, d, ix, job, known, walk, p); }
    }
    forall q ensures At(after.dirs, q) == DirAfter(r, d, ix, job, walked, q) {
      if walked { ForgottenWhenWalked(r, d, ix, job, known, walk, q); }
    }
  }

  lemma LoadedCandidate(r: Rules, d: Disk, ix: Ix, job: Job, known: set<Path>, walk: Walk, p: Path)
    requires known == Known(ix, job.scope, job.shallow)
    requires Sound(r, d, job.scope, known, walk) && p in walk.files
    ensures Loaded(job.scope, job.shallow, walk.vanished, p) <==> Loads(r, d, ix, job.scope, job.shallow, p)
  {
    if job.shallow && p != job.scope {
      forall v | v in known && Under(v, p) && p != v ensures false {
        NotBelowKnown(r, d, job.scope, known, p.parent, v);
      }
    }
  }

  /** Reading one more candidate. */
  lemma OneMore(r: Rules, d: Disk, ix: Ix, files0: map<Path, Row>, files: map<Path, Row>, job: Job,
                reached: set<Path>, was: seq<Write>, before: Option<Row>, p: Path)
    requires Progress(r, d, ix, files0, files, job, reached, was) && p !in reached && IsFile(d, p)
    requires ix.rows == map q | q in files0 :: files0[q].facts
    requires before == if p in files0 && Loads(r, d, ix, job.scope, job.shallow, p) then Some(files0[p]) else None
    ensures var w := WriteFor(r, d, before, p, job.force);
            var pending := if w.Some? then was + [w.value] else was;
            Progress(r, d, ix, files0, files, job, reached + {p}, pending)
  {
    var w := WriteFor(r, d, before, p, job.force);
    var pending := if w.Some? then was + [w.value] else was;
    if w.Some? {
      AppendAligned(files, was, w.value);
    }
    forall q ensures ProgressAt(r, d, ix, files, job, reached + {p}, pending, q) {
      assert ProgressAt(r, d, ix, files, job, reached, was, q);
      if w.Some? {
        EffectsAppend(FactsAt(files, q), was, w.value, q);
      }
      if q == p {
        PathsAreWritten(was);
        forall x | x in was ensures x.path != p { assert x.path in PathsOf(was); }
        UntouchedByWrites(FactsAt(files, p), was, p);
      }
    }
  }

  /** A transaction in between changes nothing of the result. */
  lemma Flushed(r: Rules, d: Disk, ix: Ix, files0: map<Path, Row>, was: map<Path, Row>, files: map<Path, Row>,
                job: Job, reached: set<Path>, pending: seq<Write>)
    requires Progress(r, d, ix, files0, was, job, reached, pending)
    requires forall p :: FactsAt(files, p) == Effects(FactsAt(was, p), pending, p)
    requires forall p :: p !in PathsOf(pending) ==> (p in files <==> p in was) && (p in files ==> files[p] == was[p])
    ensures Progress(r, d, ix, files0, files, job, reached, [])
  {
    forall p ensures ProgressAt(r, d, ix, files, job, reached, [], p) {
      assert ProgressAt(r, d, ix, was, job, reached, pending, p);
    }
  }

  lemma NotYetWritten(files: map<Path, Row>, writes: seq<Write>, i: nat)
    requires Aligned(files, writes) && i < |writes|
    ensures writes[i].path !in PathsOf(writes[..i])
    ensures !writes[i].PutRow? ==> writes[i].path in files && files[writes[i].path].id == writes[i].id
  {
    PathsAreWritten(writes[..i]);
    assert writes[i] in writes;
  }
}
