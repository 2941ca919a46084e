/**
 * A file tree as the indexer sees it, and what a walk of a part of it finds.
 * What is left out of a walk is decided by rules on paths.
 */
module SourceTree {
  datatype Path = Root | In(parent: Path, name: string)

  type Bytes = seq<int>

  datatype Entry =
    | File(bytes: Bytes, mtime: int)
    | Dir(names: seq<string>, mtime: int)
    | Other(mtime: int)  // neither of the two, such as a link

  type Disk = map<Path, Entry>

  /**
   * `enters(q)`: a directory listed at `q` is walked. `keeps(p)` and `source(p)`: a
   * file at `p` counts when a listing shows it, and when a walk is started on it.
   * `text` and `maxBytes` say which contents are indexed.
   */
  datatype Rules = Rules(
    enters: Path -> bool, keeps: Path -> bool, source: Path -> bool, text: Bytes -> bool, maxBytes: nat)

  /** `p` is `s` or below it. */
  predicate Under(s: Path, p: Path) {
    p == s || (p.In? && Under(s, p.parent))
  }

  predicate IsDir(d: Disk, q: Path) { q in d && d[q].Dir? }

  predicate IsFile(d: Disk, p: Path) { p in d && d[p].File? }

  predicate NoRepeats<T(==)>(s: seq<T>) { forall i, j :: 0 <= i < j < |s| ==> s[i] != s[j] }

  /** Listings name exactly the entries, each once, and every entry is listed by a directory. */
  ghost predicate ValidDisk(d: Disk) {
    && (forall q :: IsDir(d, q) ==> NoRepeats(d[q].names))
    && (forall q, n :: IsDir(d, q) ==> (n in d[q].names <==> In(q, n) in d))
    && (forall p :: p in d && p.In? ==> IsDir(d, p.parent))
  }

  /** The directories a walk from `s` lists: `s`, and those below it entered at every step. */
  predicate Visited(r: Rules, d: Disk, s: Path, q: Path) {
    IsDir(d, q) && (q == s || (q.In? && r.enters(q) && Visited(r, d, s, q.parent)))
  }

  /** The files a walk from `s` finds. */
  predicate Candidate(r: Rules, d: Disk, s: Path, p: Path) {
    IsFile(d, p) && if p == s then r.source(p) else p.In? && r.keeps(p) && Visited(r, d, s, p.parent)
  }

  predicate Indexable(r: Rules, d: Disk, p: Path) {
    IsFile(d, p) && |d[p].bytes| <= r.maxBytes && r.text(d[p].bytes)
  }

  /** A walk from `s` that leaves the directories in `known`, children of `s`, to others. */
  predicate VisitedPast(r: Rules, d: Disk, s: Path, known: set<Path>, q: Path) {
    IsDir(d, q) && (q == s || (q.In? && r.enters(q) && q !in known && VisitedPast(r, d, s, known, q.parent)))
  }

  predicate CandidatePast(r: Rules, d: Disk, s: Path, known: set<Path>, p: Path) {
    IsFile(d, p) && if p == s then r.source(p) else p.In? && r.keeps(p) && VisitedPast(r, d, s, known, p.parent)
  }

  /** A known child directory that is no longer there, or no longer entered. */
  predicate Vanished(r: Rules, d: Disk, s: Path, known: set<Path>, k: Path) {
    IsDir(d, s) && k in known && !(IsDir(d, k) && r.enters(k))
  }

  /** The child of `s` on the way to `p`. */
  function Step(s: Path, p: Path): (c: Path)
    requires Under(s, p) && p != s
    ensures c.In? && c.parent == s && Under(c, p)
  {
    if p.parent == s then p else Step(s, p.parent)
  }

  lemma {:induction false} UnderTransitive(a: Path, b: Path, c: Path)
    requires Under(a, b) && Under(b, c)
    ensures Under(a, c)
  {
    if c != b { UnderTransitive(a, b, c.parent); }
  }

  /** A path is not below its own descendants. */
  lemma {:induction false} UnderIsAntisymmetric(a: Path, b: Path)
    requires Under(a, b) && Under(b, a)
    ensures a == b
  {
    if a != b {
      UnderDepth(a, b);
      UnderDepth(b, a);
    }
  }

  function Depth(p: Path): nat { if p.Root? then 0 else 1 + Depth(p.parent) }

  lemma {:induction false} UnderDepth(s: Path, p: Path)
    requires Under(s, p)
    ensures Depth(s) <= Depth(p) && (Depth(s) == Depth(p) ==> s == p)
  {
    if s != p { UnderDepth(s, p.parent); }
  }

  /** Two ancestors of one path are in line. */
  lemma {:induction false} AncestorsInLine(a: Path, b: Path, p: Path)
    requires Under(a, p) && Under(b, p)
    ensures Under(a, b) || Under(b, a)
  {
    if p != a && p != b { AncestorsInLine(a, b, p.parent); }
  }

  lemma {:induction false} VisitedIsUnder(r: Rules, d: Disk, s: Path, q: Path)
    requires Visited(r, d, s, q)
    ensures Under(s, q) && IsDir(d, s)
  {
    if q != s { VisitedIsUnder(r, d, s, q.parent); }
  }

  /** What is on the way to a visited directory is visited. */
  lemma {:induction false} VisitedBetween(r: Rules, d: Disk, s: Path, m: Path, q: Path)
    requires Visited(r, d, s, q) && Under(s, m) && Under(m, q)
    ensures Visited(r, d, s, m)
  {
    if m != q {
      if q == s { UnderIsAntisymmetric(s, m); }
      else { VisitedBetween(r, d, s, m, q.parent); }
    }
  }

  lemma {:induction false} VisitedPastIsVisited(r: Rules, d: Disk, s: Path, known: set<Path>, q: Path)
    requires VisitedPast(r, d, s, known, q)
    ensures Visited(r, d, s, q)
  {
    if q != s { VisitedPastIsVisited(r, d, s, known, q.parent); }
  }

  /** Every proper ancestor of an entry is a directory. */
  lemma {:induction false} AncestorsAreDirs(d: Disk, a: Path, p: Path)
    requires ValidDisk(d) && p in d && Under(a, p) && a != p
    ensures IsDir(d, a)
  {
    if p.parent != a { AncestorsAreDirs(d, a, p.parent); }
  }
}
