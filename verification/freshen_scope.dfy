/** The comparison in front of every query, with its bounds and with what it says when they are met. */
module FreshenScope {
  import opened SourceTree
  import opened IndexSpec
  import opened RefreshLaws
  import opened Freshen
  import FileIndex

  const FEW_FILES := 25
  const FEW_DIRS := 25
  const FEW_BYTES := 16 * 1024 * 1024
  const MAX_FILES_CHECKED := 250_000
  const MAX_DIRS_CHECKED := 20_000

  /** What stood in the way of comparing everything or of re-reading what differs. */
  datatype Gap = NotAllCompared | TooManyToReRead | ReReadStopped

  datatype Freshened = Freshened(reread: bool, gaps: set<Gap>)

  /** What there is to compare with the disk. */
  function RowsOf(c: Change): set<Path> { set p | p in c.ix.rows && Under(c.s, p) }

  function DirsOf(c: Change): set<Path> { set q | q in c.ix.dirs && Under(c.s, q) }

  predicate AllCompared(c: Change) { |RowsOf(c)| <= MAX_FILES_CHECKED && |DirsOf(c)| <= MAX_DIRS_CHECKED }

  /** What differs from the disk. */
  function ChangedFiles(c: Change): set<Path> { set p | p in c.ix.rows.Keys + {c.s} && ChangedFile(c, p) }

  function ChangedDirs(c: Change): set<Path> { set q | q in c.ix.dirs.Keys + {c.s} && DirTarget(c, q) }

  function SizeAt(d: Disk, p: Path): nat { if IsFile(d, p) then |d[p].bytes| else 0 }

  /** The bytes of the changed files that are still files. */
  ghost function BytesOf(d: Disk, files: set<Path>): nat {
    if files == {} then 0
    else
      var p :| p in files;
      SizeAt(d, p) + BytesOf(d, files - {p})
  }

  /** In any order. */
  lemma {:induction false} BytesWithout(d: Disk, files: set<Path>, p: Path)
    requires p in files
    ensures BytesOf(d, files) == SizeAt(d, p) + BytesOf(d, files - {p})
    decreases files
  {
    var q :| q in files && BytesOf(d, files) == SizeAt(d, q) + BytesOf(d, files - {q});
    if q != p {
      BytesWithout(d, files - {q}, p);
      BytesWithout(d, files - {p}, q);
      assert files - {q} - {p} == files - {p} - {q};
    }
  }

  /** Little enough differs to re-read it for one query. */
  ghost predicate Few(c: Change) { Little(c.d, ChangedFiles(c), ChangedDirs(c)) }

  /** The first `n` of the paths: what a limited query returns. */
  method Limited(paths: set<Path>, n: nat) returns (some: set<Path>)
    ensures some <= paths && |some| == if |paths| <= n then |paths| else n
    ensures |paths| <= n ==> some == paths
  {
    if |paths| <= n { return paths; }
    some := {};
    var rest := paths;
    while |some| < n
      invariant some + rest == paths && some !! rest && |some| <= n
      decreases rest
    {
      assert |some + rest| == |some| + |rest|;
      var p :| p in rest;
      rest, some := rest - {p}, some + {p};
    }
  }

  /** As many of the paths as are compared: all, or `n`. */
  predicate FirstN(paths: set<Path>, n: nat, some: set<Path>) {
    if |paths| <= n then some == paths else some <= paths && |some| == n
  }

  /** One more than is compared is asked for, to see whether there are more. */
  method FirstOf(paths: set<Path>, n: nat) returns (stored: set<Path>, checked: set<Path>)
    ensures FirstN(paths, n, checked) && checked <= stored <= paths && (|stored| > n <==> |paths| > n)
  {
    stored := Limited(paths, n + 1);
    checked := Limited(stored, n);
  }

  method TotalBytes(d: Disk, files: set<Path>) returns (bytes: nat)
    ensures bytes == BytesOf(d, files)
  {
    bytes := 0;
    var rest := files;
    while rest != {}
      invariant bytes + BytesOf(d, rest) == BytesOf(d, files)
      decreases rest
    {
      var p :| p in rest;
      BytesWithout(d, rest, p);
      rest, bytes := rest - {p}, bytes + SizeAt(d, p);
    }
  }

  lemma ShallowestExists(todo: set<Path>)
    requires todo != {}
    ensures exists t :: t in todo && Shallowest(todo, t)
    decreases todo
  {
    var t :| t in todo;
    if todo != {t} {
      ShallowestExists(todo - {t});
      var u :| u in todo - {t} && Shallowest(todo - {t}, u);
      var m := if Depth(t) <= Depth(u) then t else u;
      forall x | x in todo ensures Depth(m) <= Depth(x) {
        assert x == t || x in todo - {t};
      }
      assert m in todo && Shallowest(todo, m);
    } else {
      assert Shallowest(todo, t);
    }
  }

  predicate Shallowest(todo: set<Path>, t: Path) { forall x :: x in todo ==> Depth(t) <= Depth(x) }

  /** None of the others is above it: the names in order give such a path first, and so do other orders. */
  predicate Topmost(todo: set<Path>, t: Path) { forall u :: u in todo && Under(u, t) ==> u == t }

  lemma TopmostExists(todo: set<Path>)
    requires todo != {}
    ensures exists t :: t in todo && Topmost(todo, t)
  {
    ShallowestExists(todo);
    var t :| t in todo && Shallowest(todo, t);
    forall u | u in todo && Under(u, t) ensures u == t {
      UnderDepth(u, t);
    }
    assert Topmost(todo, t);
  }

  /** Of the rows and directories compared, those that differ. */
  function DifferingRows(ix: FileIndex.Index, d: Disk, rows: set<Path>): set<Path>
    reads ix
  {
    set p | p in rows && p in ix.files && RowDiffers(d, p, ix.files[p].facts)
  }

  function DifferingDirs(ix: FileIndex.Index, d: Disk, recorded: set<Path>): set<Path>
    reads ix
  {
    set q | q in recorded && q in ix.dirs && !(q in d && d[q].mtime == ix.dirs[q])
  }

  /**
   * What comparing some of the rows and directories finds: those that differ, and the
   * scope itself when it counts as not recorded, because no row of it was seen.
   */
  ghost predicate FoundIn(c: Change, rows: set<Path>, recorded: set<Path>, alone: bool, files: set<Path>, dirs: set<Path>) {
    && (Unrecorded(c) ==> alone) && (alone ==> c.s.In? && c.s !in rows && c.s !in recorded)
    && files == (set p | p in rows && FileDiffers(c, p)) +
                (if alone && IsFile(c.d, c.s) && c.r.source(c.s) then {c.s} else {})
    && dirs == (set q | q in recorded && DirDiffers(c, q)) + (if alone && IsDir(c.d, c.s) then {c.s} else {})
  }

  ghost predicate Finds(c: Change, files: set<Path>, dirs: set<Path>) {
    exists rows, recorded, alone ::
      && FirstN(RowsOf(c), MAX_FILES_CHECKED, rows) && FirstN(DirsOf(c), MAX_DIRS_CHECKED, recorded)
      && FoundIn(c, rows, recorded, alone, files, dirs)
  }

  /** What was found did change, but for the scope itself; when all was compared, that is all that changed. */
  lemma Compared(ix: FileIndex.Index, c: Change, rows: set<Path>, recorded: set<Path>, alone: bool,
                 files: set<Path>, dirs: set<Path>)
    requires c.ix == ix.View() && rows <= RowsOf(c) && recorded <= DirsOf(c)
    requires (Unrecorded(c) ==> alone) && (alone ==> c.s.In? && c.s !in rows && c.s !in recorded)
    requires files == DifferingRows(ix, c.d, rows) + if alone && IsFile(c.d, c.s) && c.r.source(c.s) then {c.s} else {}
    requires dirs == DifferingDirs(ix, c.d, recorded) + if alone && IsDir(c.d, c.s) then {c.s} else {}
    ensures FoundIn(c, rows, recorded, alone, files, dirs)
  {
  }

  lemma FoundDidChange(c: Change, rows: set<Path>, recorded: set<Path>, alone: bool, files: set<Path>, dirs: set<Path>)
    requires FoundIn(c, rows, recorded, alone, files, dirs)
    ensures forall p :: p in files && p != c.s ==> ChangedFile(c, p)
    ensures forall q :: q in dirs && q != c.s ==> DirTarget(c, q)
    ensures rows == RowsOf(c) && recorded == DirsOf(c) ==> files == ChangedFiles(c) && dirs == ChangedDirs(c)
  {
    if rows == RowsOf(c) && recorded == DirsOf(c) { assert alone ==> Unrecorded(c); }
  }

  /** What comparing leaves. */
  ghost predicate AsCompared(c: Change, files: set<Path>, dirs: set<Path>, gaps: set<Gap>) {
    && gaps == (if AllCompared(c) then {} else {NotAllCompared}) && Finds(c, files, dirs)
    && (AllCompared(c) ==> files == ChangedFiles(c) && dirs == ChangedDirs(c))
  }

  method Recorded(ix: FileIndex.Index, s: Path, ghost c: Change) returns (rows: set<Path>, recorded: set<Path>)
    requires c.s == s && c.ix == ix.View()
    ensures rows == RowsOf(c) && recorded == DirsOf(c)
  {
    rows := set p | p in ix.files && Under(s, p);
    recorded := set q | q in ix.dirs && Under(s, q);
  }

  /** Compare the recorded files and directories of the scope with the disk, and the scope itself. */
  method Compare(ix: FileIndex.Index, r: Rules, d: Disk, s: Path, ghost c: Change)
    returns (files: set<Path>, dirs: set<Path>, gaps: set<Gap>)
    requires c.r == r && c.d == d && c.s == s && c.ix == ix.View()
    ensures AsCompared(c, files, dirs, gaps)
    ensures forall p :: p in files && p != s ==> ChangedFile(c, p)
    ensures forall q :: q in dirs && q != s ==> DirTarget(c, q)
  {
    var rows, recorded := Recorded(ix, s, c);
    var stored, checkedRows := FirstOf(rows, MAX_FILES_CHECKED);
    var dirRows, checkedDirs := FirstOf(recorded, MAX_DIRS_CHECKED);
    var alone := s.In? && s !in stored && s !in dirRows;
    files := DifferingRows(ix, d, checkedRows) + if alone && IsFile(d, s) && r.source(s) then {s} else {};
    dirs := DifferingDirs(ix, d, checkedDirs) + if alone && IsDir(d, s) then {s} else {};
    SeenOrAlone(c, stored, checkedRows, dirRows, checkedDirs, alone);
    Compared(ix, c, checkedRows, checkedDirs, alone, files, dirs);
    gaps := {};
    if |stored| > MAX_FILES_CHECKED || |dirRows| > MAX_DIRS_CHECKED {
      gaps := {NotAllCompared};
    }
    HowCompared(c, checkedRows, checkedDirs, alone, files, dirs, gaps);
  }

  lemma SeenOrAlone(c: Change, stored: set<Path>, rows: set<Path>, dirRows: set<Path>, recorded: set<Path>, alone: bool)
    requires rows <= stored <= RowsOf(c) && recorded <= dirRows <= DirsOf(c)
    requires alone <==> c.s.In? && c.s !in stored && c.s !in dirRows
    ensures (Unrecorded(c) ==> alone) && (alone ==> c.s.In? && c.s !in rows && c.s !in recorded)
  {
  }

  lemma HowCompared(c: Change, rows: set<Path>, recorded: set<Path>, alone: bool, files: set<Path>, dirs: set<Path>,
                    gaps: set<Gap>)
    requires FirstN(RowsOf(c), MAX_FILES_CHECKED, rows) && FirstN(DirsOf(c), MAX_DIRS_CHECKED, recorded)
    requires FoundIn(c, rows, recorded, alone, files, dirs)
    requires gaps == if |RowsOf(c)| > MAX_FILES_CHECKED || |DirsOf(c)| > MAX_DIRS_CHECKED then {NotAllCompared} else {}
    ensures AsCompared(c, files, dirs, gaps)
    ensures forall p :: p in files && p != c.s ==> ChangedFile(c, p)
    ensures forall q :: q in dirs && q != c.s ==> DirTarget(c, q)
  {
    FoundDidChange(c, rows, recorded, alone, files, dirs);
  }

  /** One refresh that the re-read ran, with the index before and after it. */
  datatype Reread = Reread(
    before: Ix, after: Ix, job: Job, o: FileIndex.Outcome, reached: set<Path>, walked: bool)

  /** It is a refresh of its target, and what stopped it, if anything did, was met. */
  ghost predicate Ran(c: Change, settings: FileIndex.Settings, dirs: set<Path>, x: Reread) {
    && x.job == Job(x.job.scope, x.job.scope in dirs, false)
    && Refreshed(c.r, c.d, x.before, x.after, x.job, x.reached, x.walked)
    && FileIndex.Reasoned(c.r, c.d, x.before, x.job, settings, x.o)
    && (x.o.Finished() ==> x.walked && AllRead(c.r, c.d, x.before, x.job, x.reached))
  }

  /** One after another they lead from one index to another. */
  ghost predicate RanFrom(c: Change, settings: FileIndex.Settings, dirs: set<Path>, from: Ix, to: Ix, xs: seq<Reread>)
    decreases |xs|
  {
    if xs == [] then from == to
    else
      var x := xs[|xs| - 1];
      x.after == to && Ran(c, settings, dirs, x) && RanFrom(c, settings, dirs, from, x.before, xs[..|xs| - 1])
  }

  function Scopes(xs: seq<Reread>): set<Path> { set x | x in xs :: x.job.scope }

  predicate Stopped(xs: seq<Reread>) { exists x :: x in xs && !x.o.Finished() }

  predicate CutOff(xs: seq<Reread>) { exists x :: x in xs && x.o.cancelled }

  /** The targets in `done` were refreshed by `xs`; a gap is added exactly when one of these was stopped. */
  ghost predicate Taken(c: Change, settings: FileIndex.Settings, dirs: set<Path>, from: Ix, to: Ix, xs: seq<Reread>,
                        gaps: set<Gap>, after: set<Gap>, done: set<Path>)
  {
    && RanFrom(c, settings, dirs, from, to, xs) && Scopes(xs) == done
    && after == gaps + if Stopped(xs) then {ReReadStopped} else {}
  }

  /** Every target is done, unless the caller cancelled: then those up to that one are. */
  ghost predicate AllTaken(c: Change, settings: FileIndex.Settings, dirs: set<Path>, lone: set<Path>, to: Ix,
                           xs: seq<Reread>, gaps: set<Gap>, after: set<Gap>)
  {
    && Scopes(xs) <= dirs + lone && Taken(c, settings, dirs, c.ix, to, xs, gaps, after, Scopes(xs))
    && (Scopes(xs) == dirs + lone || CutOff(xs))
  }

  /** Changed files that no changed directory's listing covers. */
  function LoneOf(files: set<Path>, dirs: set<Path>): set<Path> { set p | p in files && !(p.In? && p.parent in dirs) }

  ghost predicate Little(d: Disk, files: set<Path>, dirs: set<Path>) {
    |files| <= FEW_FILES && |dirs| <= FEW_DIRS && BytesOf(d, files) <= FEW_BYTES
  }

  /** What is reported, and which refreshes were run, when comparing found `files` and `dirs`. */
  ghost predicate Reported(c: Change, settings: FileIndex.Settings, now: Ix, out: Freshened, xs: seq<Reread>,
                           files: set<Path>, dirs: set<Path>)
  {
    var gaps := if AllCompared(c) then {} else {NotAllCompared};
    if Little(c.d, files, dirs) && files + dirs != {} then
      out.reread && AllTaken(c, settings, dirs, LoneOf(files, dirs), now, xs, gaps, out.gaps)
    else
      && !out.reread && xs == [] && now == c.ix
      && out.gaps == gaps + if Little(c.d, files, dirs) then {} else {TooManyToReRead}
  }

  /**
   * Each gap is reported exactly when it is one, what was found is re-read exactly when
   * it is little, and `xs` are the refreshes that were run for that.
   */
  ghost predicate GapsHaveReasons(
    c: Change, settings: FileIndex.Settings, now: Ix, out: Freshened, xs: seq<Reread>)
  {
    && (NotAllCompared in out.gaps <==> !AllCompared(c))
    && (ReReadStopped in out.gaps <==> Stopped(xs))
    && (exists files, dirs :: Finds(c, files, dirs) && Reported(c, settings, now, out, xs, files, dirs))
    && (AllCompared(c) ==> Reported(c, settings, now, out, xs, ChangedFiles(c), ChangedDirs(c)))
    && (AllCompared(c) ==> (TooManyToReRead in out.gaps <==> !Few(c)))
    && (AllCompared(c) ==> (out.reread <==> Few(c) && ChangedFiles(c) + ChangedDirs(c) != {}))
  }

  /** Without a gap nothing is left to re-read, and the scope is complete exactly when nothing escapes the comparison. */
  ghost predicate Current(c: Change, after: Ix, out: Freshened) {
    Given(c) && out.gaps == {} ==> Progress(c, after, {}) && (Complete(c.r, c.d, after, c.s) <==> Exact(c))
  }

  lemma {:induction false} AmpleNeverStops(
    c: Change, settings: FileIndex.Settings, dirs: set<Path>, from: Ix, to: Ix, xs: seq<Reread>)
    requires RanFrom(c, settings, dirs, from, to, xs) && FileIndex.Ample(c.d, settings)
    ensures !Stopped(xs)
    decreases |xs|
  {
    if xs != [] {
      var n := |xs| - 1;
      AmpleNeverStops(c, settings, dirs, from, xs[n].before, xs[..n]);
      FileIndex.AmpleFinishes(c.r, c.d, xs[n].before, xs[n].job, settings, xs[n].o);
      assert forall x :: x in xs ==> x in xs[..n] || x == xs[n];
    }
  }

  /** Few changes and an ample budget: no gap, and so the scope is up to date exactly when nothing escapes the comparison. */
  lemma AmpleLeavesNoGap(c: Change, settings: FileIndex.Settings, after: Ix, out: Freshened, xs: seq<Reread>)
    requires GapsHaveReasons(c, settings, after, out, xs) && Current(c, after, out)
    requires AllCompared(c) && Few(c) && FileIndex.Ample(c.d, settings)
    ensures out.gaps == {}
    ensures Given(c) ==> (Complete(c.r, c.d, after, c.s) <==> Exact(c))
  {
    if out.reread { AmpleNeverStops(c, settings, ChangedDirs(c), c.ix, after, xs); }
    assert forall g :: g in out.gaps ==> g == NotAllCompared || g == TooManyToReRead || g == ReReadStopped;
  }

  /** Compare the scope with the disk and, when little differs, re-read what does. */
  method FreshenScope(ix: FileIndex.Index, r: Rules, d: Disk, s: Path, settings: FileIndex.Settings, ghost d0: Disk)
    returns (out: Freshened, ghost xs: seq<Reread>)
    requires ix.Valid() && ValidDisk(d)
    modifies ix
    ensures ix.Valid() && ix.generation >= old(ix.generation)
    ensures Current(Change(r, d0, d, s, old(ix.View())), ix.View(), out)
    ensures GapsHaveReasons(Change(r, d0, d, s, old(ix.View())), settings, ix.View(), out, xs)
  {
    ghost var c := Change(r, d0, d, s, ix.View());
    var files, dirs, gaps := Compare(ix, r, d, s, c);
    var lone := LoneOf(files, dirs);
    if gaps == {} {
      TargetsFound(c, files, dirs, lone);
    }
    if files == {} && dirs == {} {
      NothingChanged(c, settings, files, dirs, lone, gaps);
      return Freshened(false, gaps), [];
    }
    var bytes := TotalBytes(d, files);
    if |files| > FEW_FILES || |dirs| > FEW_DIRS || bytes > FEW_BYTES {
      TooMany(c, settings, files, dirs, gaps);
      return Freshened(false, gaps + {TooManyToReRead}), [];
    }
    var after;
    after, xs := ReRead(ix, r, d, dirs, lone, settings, gaps, c);
    out := Freshened(true, after);
    WereFew(c, settings, files, dirs, lone, gaps, ix.View(), out, xs);
    IsCurrent(c, ix.View(), out);
  }

  lemma NothingChanged(c: Change, settings: FileIndex.Settings, files: set<Path>, dirs: set<Path>, lone: set<Path>,
                       gaps: set<Gap>)
    requires AsCompared(c, files, dirs, gaps) && files == {} && dirs == {} && lone <= files
    requires Given(c) && gaps == {} ==> Progress(c, c.ix, dirs + lone)
    ensures GapsHaveReasons(c, settings, c.ix, Freshened(false, gaps), []) && Current(c, c.ix, Freshened(false, gaps))
  {
    assert dirs + lone == {};
    assert files + dirs == {};
    assert Little(c.d, files, dirs);
    assert Reported(c, settings, c.ix, Freshened(false, gaps), [], files, dirs);
    IsCurrent(c, c.ix, Freshened(false, gaps));
  }

  lemma TooMany(c: Change, settings: FileIndex.Settings, files: set<Path>, dirs: set<Path>, gaps: set<Gap>)
    requires AsCompared(c, files, dirs, gaps)
    requires !Little(c.d, files, dirs)
    ensures GapsHaveReasons(c, settings, c.ix, Freshened(false, gaps + {TooManyToReRead}), [])
  {
    assert Reported(c, settings, c.ix, Freshened(false, gaps + {TooManyToReRead}), [], files, dirs);
  }

  lemma WereFew(c: Change, settings: FileIndex.Settings, files: set<Path>, dirs: set<Path>, lone: set<Path>,
                gaps: set<Gap>, now: Ix, out: Freshened, xs: seq<Reread>)
    requires AsCompared(c, files, dirs, gaps) && files + dirs != {}
    requires lone == LoneOf(files, dirs) && Little(c.d, files, dirs)
    requires out.reread && AllTaken(c, settings, dirs, lone, now, xs, gaps, out.gaps)
    ensures GapsHaveReasons(c, settings, now, out, xs)
  {
    assert Reported(c, settings, now, out, xs, files, dirs);
  }

  lemma IsCurrent(c: Change, now: Ix, out: Freshened)
    requires Given(c) && out.gaps == {} ==> Progress(c, now, {})
    ensures Current(c, now, out)
  {
    if Given(c) && out.gaps == {} { NothingLeft(c, now); }
  }

  predicate RowDiffers(d: Disk, p: Path, facts: Facts) {
    !(IsFile(d, p) && |d[p].bytes| == facts.size && d[p].mtime == facts.mtime)
  }

  lemma TargetsFound(c: Change, files: set<Path>, dirs: set<Path>, lone: set<Path>)
    requires files == ChangedFiles(c) && dirs == ChangedDirs(c)
    requires lone == LoneOf(files, dirs)
    ensures Given(c) ==> Progress(c, c.ix, dirs + lone)
    ensures Given(c) ==> forall t :: t in dirs ==> DirTarget(c, t)
    ensures Given(c) ==> lone !! dirs
  {
    if Given(c) {
      ProgressAtStart(c, dirs + lone);
      forall t | t in lone && t in dirs ensures false {
        if t in c.ix.rows { RowWasThere(c, t); }
      }
    }
  }

  /** Changed directories from the top down, each for its own entries; then the files left over. */
  method ReRead(ix: FileIndex.Index, r: Rules, d: Disk, dirs: set<Path>, lone: set<Path>,
                settings: FileIndex.Settings, gaps: set<Gap>, ghost c: Change)
    returns (after: set<Gap>, ghost xs: seq<Reread>)
    requires ix.Valid() && ValidDisk(d) && c.r == r && c.d == d && c.ix == ix.View() && ReReadStopped !in gaps
    requires Given(c) && gaps == {} ==>
               Progress(c, ix.View(), dirs + lone) && lone !! dirs && dirs == ChangedDirs(c)
    modifies ix
    ensures ix.Valid() && ix.generation >= old(ix.generation)
    ensures AllTaken(c, settings, dirs, lone, ix.View(), xs, gaps, after)
    ensures Given(c) && after == {} ==> Progress(c, ix.View(), {})
  {
    var stopped;
    after, stopped, xs := ReReadDirs(ix, r, d, dirs, lone, settings, gaps, c);
    if !stopped {
      after, xs := ReReadFiles(ix, r, d, dirs, lone, settings, gaps, after, xs, c);
    }
  }

  lemma OneMoreTaken(c: Change, settings: FileIndex.Settings, dirs: set<Path>, from: Ix, xs: seq<Reread>,
                     gaps: set<Gap>, after: set<Gap>, done: set<Path>, x: Reread)
    requires Taken(c, settings, dirs, from, x.before, xs, gaps, after, done) && Ran(c, settings, dirs, x)
    ensures Taken(c, settings, dirs, from, x.after, xs + [x], gaps,
                  after + (if x.o.Finished() then {} else {ReReadStopped}), done + {x.job.scope})
    ensures x.o.cancelled ==> CutOff(xs + [x])
  {
    var ys := xs + [x];
    assert ys[..|ys| - 1] == xs;
    assert x in ys && forall y :: y in ys <==> y in xs || y == x;
  }

  /** Re-read one target. */
  method ReReadOne(ix: FileIndex.Index, r: Rules, d: Disk, dirs: set<Path>, t: Path, settings: FileIndex.Settings,
                   sofar: set<Gap>, ghost gaps: set<Gap>, ghost xs: seq<Reread>, ghost done: set<Path>, ghost c: Change)
    returns (after: set<Gap>, cancelled: bool, ghost ys: seq<Reread>)
    requires ix.Valid() && ValidDisk(d) && c.r == r && c.d == d
    requires Taken(c, settings, dirs, c.ix, ix.View(), xs, gaps, sofar, done)
    modifies ix
    ensures ix.Valid() && ix.generation >= old(ix.generation)
    ensures Taken(c, settings, dirs, c.ix, ix.View(), ys, gaps, after, done + {t})
    ensures sofar <= after && (cancelled ==> after != {} && CutOff(ys))
    ensures after == {} ==> Done(r, d, old(ix.View()), ix.View(), Job(t, t in dirs, false))
  {
    ghost var now := ix.View();
    var job := Job(t, t in dirs, false);
    var o, reached, walked := ix.RefreshIndex(r, d, job, settings);
    after, cancelled := sofar, o.cancelled;
    if !o.Finished() {
      after := after + {ReReadStopped};
    }
    ghost var x := Reread(now, ix.View(), job, o, reached, walked);
    OneMoreTaken(c, settings, dirs, c.ix, xs, gaps, sofar, done, x);
    ys := xs + [x];
  }

  lemma DirReRead(c: Change, now: Ix, dirs: set<Path>, lone: set<Path>, todo: set<Path>, t: Path, after: Ix)
    requires Given(c) && dirs == ChangedDirs(c) && lone !! dirs && todo <= dirs
    requires Progress(c, now, todo + lone) && t in todo && Topmost(todo, t)
    requires Done(c.r, c.d, now, after, Job(t, true, false))
    ensures Progress(c, after, (todo - {t}) + lone)
  {
    forall u | u in todo + lone && DirTarget(c, u) && Under(u, t) ensures u == t {
      assert u in ChangedDirs(c);
    }
    DirTargetDone(c, now, todo + lone, t, after);
    assert todo + lone - {t} == (todo - {t}) + lone;
  }

  method ReReadDirs(ix: FileIndex.Index, r: Rules, d: Disk, dirs: set<Path>, ghost lone: set<Path>,
                    settings: FileIndex.Settings, gaps: set<Gap>, ghost c: Change)
    returns (after: set<Gap>, stopped: bool, ghost xs: seq<Reread>)
    requires ix.Valid() && ValidDisk(d) && c.r == r && c.d == d && c.ix == ix.View()
    requires Given(c) && gaps == {} ==>
               Progress(c, ix.View(), dirs + lone) && lone !! dirs && dirs == ChangedDirs(c)
    modifies ix
    ensures ix.Valid() && ix.generation >= old(ix.generation)
    ensures Taken(c, settings, dirs, c.ix, ix.View(), xs, gaps, after, Scopes(xs)) && Scopes(xs) <= dirs
    ensures if stopped then CutOff(xs) && after != {} else Scopes(xs) == dirs
    ensures Given(c) && after == {} ==> Progress(c, ix.View(), lone)
  {
    after, xs := gaps, [];
    var todo := dirs;
    assert dirs - todo == {};
    while todo != {}
      invariant ix.Valid() && ix.generation >= old(ix.generation)
      invariant todo <= dirs && Taken(c, settings, dirs, c.ix, ix.View(), xs, gaps, after, dirs - todo)
      invariant gaps <= after && (Given(c) && after == {} ==> Progress(c, ix.View(), todo + lone))
      decreases todo
    {
      TopmostExists(todo);
      var t :| t in todo && Topmost(todo, t);
      ghost var now := ix.View();
      assert dirs - todo + {t} == dirs - (todo - {t});
      after, stopped, xs := ReReadOne(ix, r, d, dirs, t, settings, after, gaps, xs, dirs - todo, c);
      if stopped { return; }
      if Given(c) && after == {} {
        DirReRead(c, now, dirs, lone, todo, t, ix.View());
      }
      todo := todo - {t};
    }
    assert {} + lone == lone && dirs - todo == dirs;
    stopped := false;
  }

  lemma LoneReRead(c: Change, now: Ix, dirs: set<Path>, todo: set<Path>, t: Path, after: Ix)
    requires Given(c) && dirs == ChangedDirs(c) && t in todo && t !in dirs && Progress(c, now, todo)
    requires Done(c.r, c.d, now, after, Job(t, false, false))
    ensures Progress(c, after, todo - {t})
  {
    assert DirTarget(c, t) ==> t in ChangedDirs(c);
    LoneTargetDone(c, now, todo, t, after);
  }

  method ReReadFiles(ix: FileIndex.Index, r: Rules, d: Disk, dirs: set<Path>, lone: set<Path>,
                     settings: FileIndex.Settings, ghost gaps: set<Gap>, sofar: set<Gap>, ghost before: seq<Reread>,
                     ghost c: Change)
    returns (after: set<Gap>, ghost xs: seq<Reread>)
    requires ix.Valid() && ValidDisk(d) && c.r == r && c.d == d
    requires Taken(c, settings, dirs, c.ix, ix.View(), before, gaps, sofar, dirs)
    requires Given(c) && sofar == {} ==> Progress(c, ix.View(), lone) && lone !! dirs && dirs == ChangedDirs(c)
    modifies ix
    ensures ix.Valid() && ix.generation >= old(ix.generation)
    ensures AllTaken(c, settings, dirs, lone, ix.View(), xs, gaps, after)
    ensures Given(c) && after == {} ==> Progress(c, ix.View(), {})
  {
    after, xs := sofar, before;
    var todo := lone;
    assert dirs + (lone - todo) == dirs;
    while todo != {}
      invariant ix.Valid() && ix.generation >= old(ix.generation)
      invariant todo <= lone && Taken(c, settings, dirs, c.ix, ix.View(), xs, gaps, after, dirs + (lone - todo))
      invariant sofar <= after && (Given(c) && after == {} ==> Progress(c, ix.View(), todo))
      decreases todo
    {
      var t :| t in todo;
      ghost var now := ix.View();
      assert dirs + (lone - todo) + {t} == dirs + (lone - (todo - {t}));
      var cancelled;
      after, cancelled, xs := ReReadOne(ix, r, d, dirs, t, settings, after, gaps, xs, dirs + (lone - todo), c);
      if cancelled { return; }
      if Given(c) && after == {} {
        LoneReRead(c, now, dirs, todo, t, ix.View());
      }
      todo := todo - {t};
    }
    assert dirs + (lone - todo) == dirs + lone;
  }
}
