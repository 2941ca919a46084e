/**
 * What a refresh of a part of the index leaves, path by path.
 *
 * The index is a row per file and a time per directory. A file's hash is taken to
 * be injective, so a row holds the bytes themselves, and what hangs off the row
 * (functions, literals, calls) is determined by path and bytes.
 */
module IndexSpec {
  import opened Common
  import opened SourceTree
  import PathRange

  /** What a file's row says of the file. */
  datatype Facts = Facts(size: nat, mtime: int, hash: Bytes)

  datatype Ix = Ix(rows: map<Path, Facts>, dirs: map<Path, int>)

  function At<V>(m: map<Path, V>, p: Path): Option<V> { if p in m then Some(m[p]) else None }

  function FactsOf(d: Disk, p: Path): Facts
    requires IsFile(d, p)
  {
    Facts(|d[p].bytes|, d[p].mtime, d[p].bytes)
  }

  /** What is done with one candidate. */
  datatype Decision = Keep | Drop | Touch(size: nat, mtime: int) | Put(facts: Facts)

  /**
   * Size and time first, then the hash, then a parse. `before` is the row as the
   * refresh loaded it; only a loaded row is dropped.
   */
  function Decide(r: Rules, d: Disk, before: Option<Facts>, p: Path, force: bool): Decision
    requires IsFile(d, p)
  {
    var now := FactsOf(d, p);
    if now.size > r.maxBytes then (if before.Some? then Drop else Keep)
    else if !force && before.Some? && before.value.size == now.size && before.value.mtime == now.mtime then Keep
    else if !force && before.Some? && before.value.hash == now.hash then Touch(now.size, now.mtime)
    else if !r.text(now.hash) then (if before.Some? then Drop else Keep)
    else Put(now)
  }

  /** The row after the decision; `held` is the row there is. */
  function Settled(r: Rules, d: Disk, before: Option<Facts>, held: Option<Facts>, p: Path, force: bool): Option<Facts>
    requires IsFile(d, p)
  {
    match Decide(r, d, before, p, force)
    case Keep => held
    case Drop => None
    case Touch(size, mtime) => if held.Some? then Some(Facts(size, mtime, held.value.hash)) else None
    case Put(facts) => Some(facts)
  }

  /**
   * What is not asked for when the root's own entries are: their range has U+FFFF as
   * its upper bound. The ranges of other directories are those of `RangeIsBelow`.
   */
  predicate Beyond(p: Path) { p.In? && p.parent.Root? && !PathRange.Within(p.name, "", PathRange.LAST) }

  lemma BeyondIs(p: Path)
    ensures Beyond(p) <==> p.In? && p.parent.Root? && p.name != "" && p.name[0] >= '\U{FFFF}'
  {
    if p.In? { PathRange.RootRangeIs(p.name); }
  }

  /** At or below such an entry. */
  predicate BelowBeyond(p: Path) { p.In? && (Beyond(p) || BelowBeyond(p.parent)) }

  /** Child directories that have a row which the query finds; below the root it stops short of some names. */
  function ChildDirs(dirs: map<Path, int>, scope: Path): set<Path> {
    set q | q in dirs && q.In? && q.parent == scope && !Beyond(q)
  }

  /** The child directories a refresh leaves to their own rows: all recorded ones when it is shallow. */
  function Known(ix: Ix, scope: Path, shallow: bool): set<Path> {
    if shallow then ChildDirs(ix.dirs, scope) else {}
  }

  ghost predicate UnderVanished(r: Rules, d: Disk, scope: Path, known: set<Path>, p: Path) {
    exists v :: Vanished(r, d, scope, known, v) && Under(v, p)
  }

  /** The rows a refresh loads, to compare or to remove. */
  ghost predicate Loads(r: Rules, d: Disk, ix: Ix, scope: Path, shallow: bool, p: Path) {
    if !shallow then Under(scope, p)
    else
      || p == scope
      || (p.In? && p.parent == scope && !Beyond(p))
      || (exists v :: Vanished(r, d, scope, Known(ix, scope, true), v) && Under(v, p) && p != v)
  }

  ghost predicate Lists(r: Rules, d: Disk, ix: Ix, scope: Path, shallow: bool, p: Path) {
    CandidatePast(r, d, scope, Known(ix, scope, shallow), p)
  }

  /** What to do and how: `scope` shallowly or wholly, trusting times or not. */
  datatype Job = Job(scope: Path, shallow: bool, force: bool)

  /**
   * The row at `p` after a refresh that read the candidates in `reached`, and
   * whose walk finished when `walked`.
   */
  ghost function RowAfter(r: Rules, d: Disk, ix: Ix, job: Job, reached: set<Path>, walked: bool, p: Path): Option<Facts> {
    var held := At(ix.rows, p);
    var before := if Loads(r, d, ix, job.scope, job.shallow, p) then held else None;
    if p in reached && IsFile(d, p) then Settled(r, d, before, held, p, job.force)
    else if walked && Loads(r, d, ix, job.scope, job.shallow, p) && !Lists(r, d, ix, job.scope, job.shallow, p) then None
    else held
  }

  /** The recorded time of directory `q` after a refresh; nothing is recorded when the walk was cut short. */
  ghost function DirAfter(r: Rules, d: Disk, ix: Ix, job: Job, walked: bool, q: Path): Option<int> {
    var known := Known(ix, job.scope, job.shallow);
    if !walked then At(ix.dirs, q)
    else if VisitedPast(r, d, job.scope, known, q) then Some(d[q].mtime)
    else if q == job.scope || (!job.shallow && Under(job.scope, q)) then None
    else if job.shallow && UnderVanished(r, d, job.scope, known, q) then None
    else At(ix.dirs, q)
  }

  /** `after` is what the job leaves, having read `reached`. */
  ghost predicate Refreshed(r: Rules, d: Disk, ix: Ix, after: Ix, job: Job, reached: set<Path>, walked: bool) {
    && (forall p :: At(after.rows, p) == RowAfter(r, d, ix, job, reached, walked, p))
    && (forall q :: At(after.dirs, q) == DirAfter(r, d, ix, job, walked, q))
    && (forall p :: p in reached ==> Lists(r, d, ix, job.scope, job.shallow, p))
  }

  ghost predicate AllRead(r: Rules, d: Disk, ix: Ix, job: Job, reached: set<Path>) {
    forall p :: Lists(r, d, ix, job.scope, job.shallow, p) ==> p in reached
  }

  /** The job was done to the end: the walk finished and every candidate was read. */
  ghost predicate Done(r: Rules, d: Disk, ix: Ix, after: Ix, job: Job) {
    exists reached :: Refreshed(r, d, ix, after, job, reached, true) && AllRead(r, d, ix, job, reached)
  }
}
