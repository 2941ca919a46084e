/** The explicit-stack walk that collects the source files of a part of the tree. */
module TreeWalk {
  import opened SourceTree

  datatype Limit = TimeLimit | DirLimit | FileLimit

  /** `expired(i)` is what the clock says at its `i`-th reading. */
  datatype Budget = Budget(maxDirectories: nat, maxFiles: nat, expired: nat -> bool)

  /** What a walk found: files to parse, directories listed with their times, and known ones that are gone. */
  datatype Walk = Walk(files: set<Path>, dirs: map<Path, int>, limits: set<Limit>, vanished: set<Path>)

  const EMPTY_WALK := Walk({}, map[], {}, {})

  ghost predicate Below(pending: seq<Path>, q: Path) { exists x :: x in pending && Under(x, q) }

  /** `known` are children of `s`. */
  ghost predicate Children(s: Path, known: set<Path>) {
    forall k :: k in known ==> k.In? && k.parent == s
  }

  /** Everything in a walk is there to be found. */
  ghost predicate Sound(r: Rules, d: Disk, s: Path, known: set<Path>, walk: Walk) {
    && (forall p :: p in walk.files ==> CandidatePast(r, d, s, known, p))
    && (forall q :: q in walk.dirs ==> VisitedPast(r, d, s, known, q) && walk.dirs[q] == d[q].mtime)
    && walk.vanished <= known
  }

  /** Everything there is to be found is in the walk. */
  ghost predicate Full(r: Rules, d: Disk, s: Path, known: set<Path>, walk: Walk) {
    && (forall p :: CandidatePast(r, d, s, known, p) ==> p in walk.files)
    && (forall q :: VisitedPast(r, d, s, known, q) ==> q in walk.dirs)
    && (forall k :: k in walk.vanished <==> Vanished(r, d, s, known, k))
  }

  /** A file is collected, or in a directory below one still to be listed. */
  ghost predicate FileCovered(walk: Walk, pending: seq<Path>, p: Path) {
    p in walk.files || (p.In? && Below(pending, p.parent))
  }

  ghost predicate DirCovered(walk: Walk, pending: seq<Path>, q: Path) {
    q in walk.dirs || Below(pending, q)
  }

  ghost predicate Covered(r: Rules, d: Disk, s: Path, known: set<Path>, walk: Walk, pending: seq<Path>) {
    && (forall p :: CandidatePast(r, d, s, known, p) ==> FileCovered(walk, pending, p))
    && (forall q :: VisitedPast(r, d, s, known, q) ==> DirCovered(walk, pending, q))
  }

  /** What a listing does with one entry of a directory. */
  ghost predicate EntryListed(r: Rules, d: Disk, known: set<Path>, c: Path, files: set<Path>, subdirs: seq<Path>) {
    && (IsFile(d, c) && r.keeps(c) ==> c in files)
    && (IsDir(d, c) && r.enters(c) && c !in known ==> c in subdirs)
  }

  ghost predicate EntryKept(r: Rules, d: Disk, known: set<Path>, c: Path, kept: set<Path>) {
    c in known && IsDir(d, c) && r.enters(c) ==> c in kept
  }

  /** What listing a directory has found: files so far, directories to walk, last first, and known ones that are there. */
  datatype Listing = Listing(files: set<Path>, subdirs: seq<Path>, kept: set<Path>)

  /** One more entry: it is collected, left to others, or left out. */
  function WithEntry(r: Rules, d: Disk, known: set<Path>, l: Listing, c: Path): Listing {
    if IsDir(d, c) then
      if !r.enters(c) then l
      else if c in known then l.(kept := l.kept + {c})
      else l.(subdirs := [c] + l.subdirs)
    else if IsFile(d, c) && r.keeps(c) then l.(files := l.files + {c})
    else l
  }

  /** Everything in the listing is there to be found. */
  ghost predicate AllFound(r: Rules, d: Disk, s: Path, known: set<Path>, dir: Path, l: Listing) {
    && (forall p :: p in l.files ==> CandidatePast(r, d, s, known, p))
    && (forall c :: c in l.subdirs ==> c.In? && c.parent == dir && VisitedPast(r, d, s, known, c))
    && (forall k :: k in l.kept ==> k in known && IsDir(d, k) && r.enters(k))
  }

  /** The first `n` entries of a directory were listed. */
  ghost predicate ListedTo(r: Rules, d: Disk, known: set<Path>, dir: Path, names: seq<string>, n: nat, l: Listing)
    requires n <= |names|
  {
    && (forall j :: 0 <= j < n ==> EntryListed(r, d, known, In(dir, names[j]), l.files, l.subdirs))
    && (forall j :: 0 <= j < n ==> EntryKept(r, d, known, In(dir, names[j]), l.kept))
  }

  lemma EntryIsFound(r: Rules, d: Disk, s: Path, known: set<Path>, dir: Path, l: Listing, c: Path)
    requires AllFound(r, d, s, known, dir, l) && c.In? && c.parent == dir && c != s
    requires VisitedPast(r, d, s, known, dir)
    ensures AllFound(r, d, s, known, dir, WithEntry(r, d, known, l, c))
  {
  }

  lemma EntryIsListed(r: Rules, d: Disk, known: set<Path>, dir: Path, names: seq<string>, n: nat, l: Listing)
    requires n < |names| && ListedTo(r, d, known, dir, names, n, l)
    ensures ListedTo(r, d, known, dir, names, n + 1, WithEntry(r, d, known, l, In(dir, names[n])))
  {
    var l' := WithEntry(r, d, known, l, In(dir, names[n]));
    forall j | 0 <= j < n + 1 ensures EntryListed(r, d, known, In(dir, names[j]), l'.files, l'.subdirs) {
      if j < n { assert EntryListed(r, d, known, In(dir, names[j]), l.files, l.subdirs); }
    }
    forall j | 0 <= j < n + 1 ensures EntryKept(r, d, known, In(dir, names[j]), l'.kept) {
      if j < n { assert EntryKept(r, d, known, In(dir, names[j]), l.kept); }
    }
  }

  /** Of a directory listed to its end, the known children that were not kept are gone. */
  lemma NotKeptIsGone(r: Rules, d: Disk, s: Path, known: set<Path>, names: seq<string>, l: Listing)
    requires ValidDisk(d) && Children(s, known) && IsDir(d, s) && names == d[s].names
    requires ListedTo(r, d, known, s, names, |names|, l) && AllFound(r, d, s, known, s, l)
    ensures AllGone(r, d, s, known, known - l.kept)
  {
    forall k | k in known && IsDir(d, k) && r.enters(k) ensures k in l.kept {
      assert k == In(s, k.name) && k.name in names;
      var j :| 0 <= j < |names| && names[j] == k.name;
      assert EntryKept(r, d, known, In(s, names[j]), l.kept);
    }
  }

  /** There is a file, or a directory, that the walk is to find and has not found. */
  ghost predicate MoreFiles(r: Rules, d: Disk, s: Path, known: set<Path>, files: set<Path>) {
    exists p :: CandidatePast(r, d, s, known, p) && p !in files
  }

  ghost predicate MoreDirs(r: Rules, d: Disk, s: Path, known: set<Path>, dirs: set<Path>) {
    exists q :: VisitedPast(r, d, s, known, q) && q !in dirs
  }

  /** Files come from the listed directories. */
  ghost predicate FilesListed(files: set<Path>, dirs: set<Path>) { forall p :: p in files ==> p.In? && p.parent in dirs }

  /**
   * Nothing is found twice: the entries from the `n`-th on are not among the files, and
   * the directories to walk are apart and named by the entries before.
   */
  ghost predicate Once(dir: Path, names: seq<string>, n: nat, dirs: set<Path>, l: Listing)
    requires n <= |names|
  {
    && FilesListed(l.files, dirs)
    && (forall j :: n <= j < |names| ==> In(dir, names[j]) !in l.files)
    && NoRepeats(l.subdirs)
    && (forall c :: c in l.subdirs ==> c.In? && exists j :: 0 <= j < n && names[j] == c.name)
  }

  lemma OnceAtFirst(dir: Path, names: seq<string>, dirs: set<Path>, files: set<Path>)
    requires FilesListed(files, dirs) && dir !in dirs
    ensures Once(dir, names, 0, dirs + {dir}, Listing(files, [], {}))
  {
    assert forall j :: 0 <= j < |names| ==> In(dir, names[j]).parent == dir;
  }

  lemma OnceMore(r: Rules, d: Disk, known: set<Path>, dir: Path, names: seq<string>, n: nat, dirs: set<Path>, l: Listing)
    requires n < |names| && NoRepeats(names) && dir in dirs && Once(dir, names, n, dirs, l)
    ensures In(dir, names[n]) !in l.files
    ensures Once(dir, names, n + 1, dirs, WithEntry(r, d, known, l, In(dir, names[n])))
  {
    var c := In(dir, names[n]);
    assert names[n] == c.name;
    assert c !in l.subdirs;
  }

  ghost predicate AllListed(r: Rules, d: Disk, known: set<Path>, dir: Path, files: set<Path>, subdirs: seq<Path>) {
    forall n :: IsDir(d, dir) && n in d[dir].names ==> EntryListed(r, d, known, In(dir, n), files, subdirs)
  }

  ghost predicate AreIn(dir: Path, subdirs: seq<Path>) { forall c :: c in subdirs ==> c.In? && c.parent == dir }

  /** What holds after the first `n` entries of a directory. */
  ghost predicate SoFar(r: Rules, d: Disk, s: Path, known: set<Path>, dir: Path, names: seq<string>, n: nat,
                        dirs: set<Path>, l: Listing)
    requires n <= |names|
  {
    && AllFound(r, d, s, known, dir, l) && ListedTo(r, d, known, dir, names, n, l) && Once(dir, names, n, dirs, l)
  }

  lemma OneEntry(r: Rules, d: Disk, s: Path, known: set<Path>, dir: Path, names: seq<string>, n: nat, dirs: set<Path>,
                 l: Listing)
    requires n < |names| && NoRepeats(names) && dir in dirs && SoFar(r, d, s, known, dir, names, n, dirs, l)
    requires VisitedPast(r, d, s, known, dir)
    ensures var c := In(dir, names[n]);
            && SoFar(r, d, s, known, dir, names, n + 1, dirs, WithEntry(r, d, known, l, c))
            && (IsFile(d, c) && r.keeps(c) ==> MoreFiles(r, d, s, known, l.files))
  {
    var c := In(dir, names[n]);
    NoLoop(r, d, s, known, dir, [c]);
    assert c in [c];
    EntryIsFound(r, d, s, known, dir, l, c);
    EntryIsListed(r, d, known, dir, names, n, l);
    OnceMore(r, d, known, dir, names, n, dirs, l);
  }

  lemma EveryEntry(r: Rules, d: Disk, known: set<Path>, dir: Path, l: Listing)
    requires IsDir(d, dir) && ListedTo(r, d, known, dir, d[dir].names, |d[dir].names|, l)
    ensures AllListed(r, d, known, dir, l.files, l.subdirs)
  {
    var names := d[dir].names;
    forall n | n in names ensures EntryListed(r, d, known, In(dir, n), l.files, l.subdirs) {
      var j :| 0 <= j < |names| && names[j] == n;
      assert EntryListed(r, d, known, In(dir, names[j]), l.files, l.subdirs);
    }
  }

  /** The walk after `n` entries of a directory were listed; these are all when there is no limit. */
  lemma EndOfListing(r: Rules, d: Disk, s: Path, known: set<Path>, dir: Path, walk: Walk, n: nat, l: Listing, after: Walk)
    requires ValidDisk(d) && Children(s, known) && VisitedPast(r, d, s, known, dir) && Sound(r, d, s, known, walk)
    requires n <= |d[dir].names| && SoFar(r, d, s, known, dir, d[dir].names, n, walk.dirs.Keys + {dir}, l)
    requires after.files == l.files && after.dirs == walk.dirs[dir := d[dir].mtime]
    requires after.vanished == if dir == s then known - l.kept else walk.vanished
    ensures Sound(r, d, s, known, after) && FilesListed(after.files, after.dirs.Keys)
    ensures AllVisited(r, d, s, known, l.subdirs) && AreIn(dir, l.subdirs) && NoRepeats(l.subdirs)
    ensures n == |d[dir].names| ==> AllListed(r, d, known, dir, after.files, l.subdirs)
    ensures n == |d[dir].names| && dir == s ==> AllGone(r, d, s, known, after.vanished)
  {
    assert after.dirs.Keys == walk.dirs.Keys + {dir};
    if n == |d[dir].names| {
      EveryEntry(r, d, known, dir, l);
      if dir == s { NotKeptIsGone(r, d, s, known, d[dir].names, l); }
    }
  }

  /** List one directory: its files are collected, its subdirectories returned, last first. */
  method ListDirectory(r: Rules, d: Disk, s: Path, maxFiles: nat, known: set<Path>, dir: Path, walk: Walk)
    returns (after: Walk, subdirs: seq<Path>)
    requires ValidDisk(d) && Children(s, known) && VisitedPast(r, d, s, known, dir) && !IsFile(d, s)
    requires Sound(r, d, s, known, walk) && walk.limits == {}
    requires FilesListed(walk.files, walk.dirs.Keys) && dir !in walk.dirs
    ensures Sound(r, d, s, known, after) && FilesListed(after.files, after.dirs.Keys)
    ensures after.dirs == walk.dirs[dir := d[dir].mtime] && walk.files <= after.files
    ensures AllVisited(r, d, s, known, subdirs) && AreIn(dir, subdirs) && NoRepeats(subdirs)
    ensures after.limits == {} ==> AllListed(r, d, known, dir, after.files, subdirs)
    ensures after.limits != {} ==>
              after.limits == {FileLimit} && |after.files| >= maxFiles && MoreFiles(r, d, s, known, after.files)
    ensures dir != s ==> after.vanished == walk.vanished
    ensures after.limits == {} && dir == s ==> AllGone(r, d, s, known, after.vanished)
  {
    var names := d[dir].names;
    var l := Listing(walk.files, [], {});
    var limits: set<Limit> := {};
    OnceAtFirst(dir, names, walk.dirs.Keys, walk.files);
    var i := 0;
    while i < |names|
      invariant i <= |names| && walk.files <= l.files
      invariant SoFar(r, d, s, known, dir, names, i, walk.dirs.Keys + {dir}, l)
    {
      var c := In(dir, names[i]);
      OneEntry(r, d, s, known, dir, names, i, walk.dirs.Keys + {dir}, l);
      if IsFile(d, c) && r.keeps(c) && |l.files| >= maxFiles {
        limits := {FileLimit};
        break;
      }
      l := WithEntry(r, d, known, l, c);
      i := i + 1;
    }
    after := Walk(l.files, walk.dirs[dir := d[dir].mtime], limits, if dir == s then known - l.kept else walk.vanished);
    subdirs := l.subdirs;
    EndOfListing(r, d, s, known, dir, walk, i, l, after);
  }

  /** After a directory is listed, what was below it is collected or below one of its subdirectories. */
  lemma ListingCovers(r: Rules, d: Disk, s: Path, known: set<Path>, before: Walk, after: Walk, rest: seq<Path>,
                      dir: Path, subdirs: seq<Path>)
    requires ValidDisk(d) && IsDir(d, s) && VisitedPast(r, d, s, known, dir)
    requires Covered(r, d, s, known, before, rest + [dir])
    requires before.files <= after.files && after.dirs == before.dirs[dir := d[dir].mtime]
    requires AllListed(r, d, known, dir, after.files, subdirs)
    ensures Covered(r, d, s, known, after, rest + subdirs)
  {
    forall p | CandidatePast(r, d, s, known, p) ensures FileCovered(after, rest + subdirs, p) {
      assert FileCovered(before, rest + [dir], p);
      if p !in before.files {
        if p.parent == dir {
          assert EntryListed(r, d, known, In(dir, p.name), after.files, subdirs);
        } else {
          StillBelow(r, d, s, known, rest, dir, subdirs, after.files, p.parent);
        }
      }
    }
    forall q | VisitedPast(r, d, s, known, q) ensures DirCovered(after, rest + subdirs, q) {
      assert DirCovered(before, rest + [dir], q);
      if q !in after.dirs {
        StillBelow(r, d, s, known, rest, dir, subdirs, after.files, q);
      }
    }
  }

  lemma StillBelow(r: Rules, d: Disk, s: Path, known: set<Path>, rest: seq<Path>, dir: Path, subdirs: seq<Path>,
                   files: set<Path>, q: Path)
    requires ValidDisk(d) && VisitedPast(r, d, s, known, dir) && VisitedPast(r, d, s, known, q) && q != dir
    requires Below(rest + [dir], q)
    requires AllListed(r, d, known, dir, files, subdirs)
    ensures Below(rest + subdirs, q)
  {
    var x :| x in rest + [dir] && Under(x, q);
    if x in rest {
      assert x in rest + subdirs;
    } else {
      var c := Step(dir, q);
      VisitedPastBetween(r, d, s, known, dir, q);
      assert c == In(dir, c.name) && c.name in d[dir].names;
      assert EntryListed(r, d, known, In(dir, c.name), files, subdirs);
      assert c in rest + subdirs;
    }
  }

  /** The way from a listed directory down to another goes through an entered subdirectory. */
  lemma {:induction false} VisitedPastBetween(r: Rules, d: Disk, s: Path, known: set<Path>, dir: Path, q: Path)
    requires VisitedPast(r, d, s, known, dir) && VisitedPast(r, d, s, known, q) && Under(dir, q) && q != dir
    ensures var c := Step(dir, q); c != s && VisitedPast(r, d, s, known, c)
  {
    VisitedPastIsVisited(r, d, s, known, dir);
    VisitedIsUnder(r, d, s, dir);
    if q == s {
      UnderIsAntisymmetric(dir, s);
    } else if q.parent != dir {
      VisitedPastBetween(r, d, s, known, dir, q.parent);
    }
  }

  lemma NothingFrom(r: Rules, d: Disk, s: Path, known: set<Path>)
    requires ValidDisk(d) && !IsDir(d, s)
    ensures forall q :: !VisitedPast(r, d, s, known, q)
    ensures forall p :: CandidatePast(r, d, s, known, p) <==> p == s && IsFile(d, s) && r.source(s)
    ensures forall k :: !Vanished(r, d, s, known, k)
  {
    forall q ensures !VisitedPast(r, d, s, known, q) {
      if VisitedPast(r, d, s, known, q) {
        VisitedPastIsVisited(r, d, s, known, q);
        VisitedIsUnder(r, d, s, q);
        assert false;
      }
    }
  }

  // ---- every directory is listed once ----

  /** What is pending is in no other's subtree, and nothing in its own was listed. */
  ghost predicate Apart(pending: seq<Path>, listed: set<Path>) {
    && (forall i, j :: 0 <= i < |pending| && 0 <= j < |pending| && i != j ==> !Under(pending[i], pending[j]))
    && (forall x, y :: x in pending && y in listed ==> !Under(x, y))
  }

  lemma ApartFromRest(rest: seq<Path>, dir: Path, listed: set<Path>, x: Path, c: Path)
    requires Apart(rest + [dir], listed) && x in rest && c.In? && c.parent == dir
    ensures !Under(x, c) && !Under(c, x)
  {
    var pending := rest + [dir];
    var i :| 0 <= i < |rest| && rest[i] == x;
    assert pending[i] == x && pending[|rest|] == dir;
    if Under(c, x) { UnderTransitive(dir, c, x); }
  }

  lemma ApartStays(rest: seq<Path>, dir: Path, listed: set<Path>, subdirs: seq<Path>)
    requires Apart(rest + [dir], listed) && NoRepeats(subdirs)
    requires AreIn(dir, subdirs)
    ensures Apart(rest + subdirs, listed + {dir})
  {
    var pending, after := rest + [dir], rest + subdirs;
    forall i, j | 0 <= i < |after| && 0 <= j < |after| && i != j ensures !Under(after[i], after[j]) {
      if i < |rest| && j < |rest| {
        assert pending[i] == after[i] && pending[j] == after[j];
      } else if i < |rest| {
        ApartFromRest(rest, dir, listed, after[i], after[j]);
      } else if j < |rest| {
        ApartFromRest(rest, dir, listed, after[j], after[i]);
      } else if Under(after[i], after[j]) {
        UnderDepth(after[i], after[j]);
      }
    }
    forall x, y | x in after && y in listed + {dir} ensures !Under(x, y) {
      if x in rest {
        assert x in pending;
        var i :| 0 <= i < |rest| && rest[i] == x;
        assert pending[i] == x && pending[|rest|] == dir;
      } else if Under(x, y) {
        UnderTransitive(dir, x, y);
        assert dir in pending;
        UnderDepth(x, y);
      }
    }
  }

  /** Why a walk stopped: as many files or directories as it may find, and there are more; or the clock. */
  ghost predicate LimitsMet(r: Rules, d: Disk, s: Path, known: set<Path>, b: Budget, walk: Walk, clock: nat) {
    && (FileLimit in walk.limits ==> |walk.files| >= b.maxFiles && MoreFiles(r, d, s, known, walk.files))
    && (DirLimit in walk.limits ==> |walk.dirs| >= b.maxDirectories && MoreDirs(r, d, s, known, walk.dirs.Keys))
    && (TimeLimit in walk.limits ==> exists i: nat :: i < clock && b.expired(i))
  }

  /**
   * What there is from `start` on, which may itself be a file. The subtrees of
   * `known`, children of `start`, are left to others; when one is gone it is said so.
   * `clock` counts the moments at which the budget was looked at.
   */
  method Collect(r: Rules, d: Disk, start: Path, b: Budget, cancel: nat -> bool, known: set<Path>)
    returns (walk: Walk, clock: nat, cancelled: bool)
    requires ValidDisk(d) && Children(start, known)
    ensures Sound(r, d, start, known, walk)
    ensures walk.limits == {} && !cancelled ==> Full(r, d, start, known, walk)
    ensures LimitsMet(r, d, start, known, b, walk, clock) && clock <= |walk.dirs| + 1
    ensures cancelled ==> exists i: nat :: i < clock && cancel(i)
  {
    walk, clock, cancelled := EMPTY_WALK, 0, false;
    if !IsDir(d, start) {
      if start in d && d[start].File? && r.source(start) {
        walk := walk.(files := {start});
      }
      NothingFrom(r, d, start, known);
      return;
    }
    var pending := [start];
    FirstCovers(r, d, start, known);
    while pending != [] && walk.limits == {}
      invariant Sound(r, d, start, known, walk) && Walking(r, d, start, known, walk, pending)
      invariant clock == |walk.dirs| && FilesListed(walk.files, walk.dirs.Keys)
      invariant LimitsMet(r, d, start, known, b, walk, clock)
      decreases walk.limits == {}, b.maxDirectories - clock
    {
      var dir := pending[|pending| - 1];
      var rest := pending[..|pending| - 1];
      LastApart(pending);
      NextIsNew(r, d, start, known, walk, rest, dir);
      clock := clock + 1;
      if cancel(clock - 1) {
        cancelled := true;
        return;
      }
      if clock > b.maxDirectories {
        walk := walk.(limits := walk.limits + {DirLimit});
        return;
      }
      if b.expired(clock - 1) {
        walk := walk.(limits := walk.limits + {TimeLimit});
        return;
      }
      ghost var before := walk;
      var subdirs;
      walk, subdirs := ListDirectory(r, d, start, b.maxFiles, known, dir, walk);
      OneListed(r, d, start, known, before, walk, rest, dir, subdirs);
      pending := rest + subdirs;
    }
    if walk.limits == {} {
      NothingPending(r, d, start, known, walk);
    }
  }

  lemma LastApart(pending: seq<Path>)
    requires pending != []
    ensures pending == pending[..|pending| - 1] + [pending[|pending| - 1]]
  {
  }

  lemma NothingPending(r: Rules, d: Disk, s: Path, known: set<Path>, walk: Walk)
    requires Sound(r, d, s, known, walk) && Walking(r, d, s, known, walk, []) && walk.limits == {}
    ensures Full(r, d, s, known, walk)
  {
    forall p | CandidatePast(r, d, s, known, p) ensures p in walk.files {
      assert FileCovered(walk, [], p);
    }
    forall q | VisitedPast(r, d, s, known, q) ensures q in walk.dirs {
      assert DirCovered(walk, [], q);
    }
    assert |[s]| == 1;
  }

  lemma NextIsNew(r: Rules, d: Disk, s: Path, known: set<Path>, walk: Walk, rest: seq<Path>, dir: Path)
    requires Walking(r, d, s, known, walk, rest + [dir])
    ensures VisitedPast(r, d, s, known, dir) && dir !in walk.dirs
  {
    assert dir in rest + [dir] && Under(dir, dir);
  }

  ghost predicate AllVisited(r: Rules, d: Disk, s: Path, known: set<Path>, pending: seq<Path>) {
    forall x :: x in pending ==> VisitedPast(r, d, s, known, x)
  }

  ghost predicate AllGone(r: Rules, d: Disk, s: Path, known: set<Path>, vanished: set<Path>) {
    forall k :: k in vanished <==> Vanished(r, d, s, known, k)
  }

  /** What holds between two listings of a walk from a directory. */
  ghost predicate Walking(r: Rules, d: Disk, s: Path, known: set<Path>, walk: Walk, pending: seq<Path>) {
    && AllVisited(r, d, s, known, pending)
    && Apart(pending, walk.dirs.Keys)
    && (if walk.dirs == map[] then pending == [s] else s !in pending)
    && (walk.limits == {} ==> Covered(r, d, s, known, walk, pending))
    && (walk.limits == {} && walk.dirs != map[] ==> AllGone(r, d, s, known, walk.vanished))
  }

  lemma StillVisited(r: Rules, d: Disk, s: Path, known: set<Path>, rest: seq<Path>, dir: Path, subdirs: seq<Path>)
    requires AllVisited(r, d, s, known, rest + [dir]) && AllVisited(r, d, s, known, subdirs)
    ensures AllVisited(r, d, s, known, rest + subdirs) && VisitedPast(r, d, s, known, dir)
  {
    var pending := rest + [dir];
    assert dir in pending;
    forall x | x in rest + subdirs ensures VisitedPast(r, d, s, known, x) {
      assert x in rest ==> x in pending;
    }
  }

  lemma NewKey(m: map<Path, int>, k: Path, v: int)
    requires k !in m
    ensures |m[k := v]| == |m| + 1
  {
    assert m[k := v].Keys == m.Keys + {k};
    assert |m[k := v].Keys| == |m[k := v]|;
  }

  lemma StartIsListed(rest: seq<Path>, dir: Path, s: Path, dirs: map<Path, int>)
    requires if dirs == map[] then rest + [dir] == [s] else s !in rest + [dir]
    ensures s !in rest && (dir == s <==> dirs == map[])
  {
    var pending := rest + [dir];
    assert pending[|rest|] == dir;
    assert s in rest ==> s in pending;
    assert dirs == map[] ==> |pending| == 1;
  }

  /** One more directory was listed. */
  lemma OneListed(r: Rules, d: Disk, s: Path, known: set<Path>, before: Walk, after: Walk, rest: seq<Path>,
                  dir: Path, subdirs: seq<Path>)
    requires ValidDisk(d) && IsDir(d, s) && VisitedPast(r, d, s, known, dir)
    requires Walking(r, d, s, known, before, rest + [dir]) && before.limits == {}
    requires after.dirs == before.dirs[dir := d[dir].mtime] && before.files <= after.files
    requires AllVisited(r, d, s, known, subdirs) && AreIn(dir, subdirs)
    requires after.limits == {} ==>
               AllListed(r, d, known, dir, after.files, subdirs)
    requires NoRepeats(subdirs) && (dir != s ==> after.vanished == before.vanished)
    requires after.limits == {} && dir == s ==> AllGone(r, d, s, known, after.vanished)
    ensures Walking(r, d, s, known, after, rest + subdirs) && |after.dirs| == |before.dirs| + 1
  {
    NextIsNew(r, d, s, known, before, rest, dir);
    NewKey(before.dirs, dir, d[dir].mtime);
    StillVisited(r, d, s, known, rest, dir, subdirs);
    if after.limits == {} {
      ListingCovers(r, d, s, known, before, after, rest, dir, subdirs);
    }
    NoLoop(r, d, s, known, dir, subdirs);
    ApartStays(rest, dir, before.dirs.Keys, subdirs);
    StartIsListed(rest, dir, s, before.dirs);
    assert dir in after.dirs;
    assert after.dirs.Keys == before.dirs.Keys + {dir};
  }

  lemma FirstCovers(r: Rules, d: Disk, s: Path, known: set<Path>)
    requires IsDir(d, s)
    ensures Covered(r, d, s, known, EMPTY_WALK, [s])
  {
    forall q | VisitedPast(r, d, s, known, q) ensures Below([s], q) {
      VisitedPastIsVisited(r, d, s, known, q);
      VisitedIsUnder(r, d, s, q);
      assert s in [s];
    }
  }

  lemma NoLoop(r: Rules, d: Disk, s: Path, known: set<Path>, dir: Path, subdirs: seq<Path>)
    requires VisitedPast(r, d, s, known, dir)
    requires AreIn(dir, subdirs)
    ensures s !in subdirs
  {
    if s in subdirs {
      VisitedPastIsVisited(r, d, s, known, dir);
      VisitedIsUnder(r, d, s, dir);
      UnderDepth(s, dir);
      assert false;
    }
  }
}
