/**
 * Searching the literals, page by page. The substring index narrows what is tested,
 * and a cursor is good only for the generation it was issued in.
 */
module LiteralSearch {
  import opened Common
  import opened Text
  import opened SyntaxWalk
  import opened CodeStore
  import opened StoreLaws
  import PathRange
  import Machine

  datatype Query = Query(text: string, insensitive: bool, rel: string)

  // ---- which rows ----

  /** The files a query asks about: `rel` is a file, or a directory, or everything. */
  datatype Scope = Whole | OneFile(id: int) | Below(rel: string)

  function ScopeOf(files: map<int, FileRow>, rel: string): Scope
    requires OnePerPath(files)
  {
    if rel == "" then Whole
    else
      var id := IdOf(files, rel);
      if id.Some? then OneFile(id.value) else Below(rel)
  }

  predicate InScope(files: map<int, FileRow>, scope: Scope, file: int) {
    match scope
    case Whole => true
    case OneFile(id) => file == id
    case Below(rel) => file in files && PathRange.InRange(files[file].path, rel)
  }

  /** The range that is asked for holds the file named, or else exactly the files below it. */
  lemma ScopeIsSubtree(files: map<int, FileRow>, rel: string, file: int)
    requires OnePerPath(files) && file in files
    ensures InScope(files, ScopeOf(files, rel), file) <==>
            || rel == ""
            || files[file].path == rel
            || (PathRange.Below(files[file].path, rel) && forall other :: other in files ==> files[other].path != rel)
  {
    PathRange.RangeIsBelow(files[file].path, rel);
  }

  /** The exact test on a literal. */
  predicate Test(q: Query, value: string) {
    if q.insensitive then Contains(Lower(value), Lower(q.text)) else Contains(value, q.text)
  }

  predicate Hit(db: Tables, q: Query, scope: Scope, s: int)
    requires s in db.strings
  {
    Test(q, db.strings[s].row.value) && InScope(db.files, scope, db.strings[s].file)
  }

  /** The rows up to an id that pass, in the order of their ids; `only` narrows them when it is there. */
  function Listed(db: Tables, q: Query, scope: Scope, only: Option<set<int>>, upTo: int): (ids: seq<int>)
    decreases if upTo < 0 then 0 else upTo
  {
    if upTo <= 0 then []
    else
      Listed(db, q, scope, only, upTo - 1) +
      (if upTo in db.strings && Hit(db, q, scope, upTo) && (only.Some? ==> upTo in only.value) then [upTo] else [])
  }

  /** Every row that passes: the whole table scanned. */
  function Scan(db: Tables, q: Query): seq<int>
    requires OnePerPath(db.files)
  {
    Listed(db, q, ScopeOf(db.files, q.rel), None, NewId(db.strings.Keys))
  }

  lemma {:induction false} ListedAre(db: Tables, q: Query, scope: Scope, upTo: int)
    ensures var ids := Listed(db, q, scope, None, upTo);
            && (forall s :: s in ids <==> 0 < s <= upTo && s in db.strings && Hit(db, q, scope, s))
            && (forall i, j :: 0 <= i < j < |ids| ==> ids[i] < ids[j])
    decreases if upTo < 0 then 0 else upTo
  {
    if upTo > 0 {
      ListedAre(db, q, scope, upTo - 1);
      var before := Listed(db, q, scope, None, upTo - 1);
      assert forall i :: 0 <= i < |before| ==> before[i] in before;
    }
  }

  /** A scan gives each matching row once, in the order of the ids. */
  lemma ScanIsExact(db: Tables, fts: bool, q: Query)
    requires Sound(db, fts)
    ensures forall s :: s in Scan(db, q) <==> s in db.strings && Hit(db, q, ScopeOf(db.files, q.rel), s)
    ensures forall i, j :: 0 <= i < j < |Scan(db, q)| ==> Scan(db, q)[i] < Scan(db, q)[j]
  {
    ListedAre(db, q, ScopeOf(db.files, q.rel), NewId(db.strings.Keys));
    forall s | s in db.strings ensures 0 < s < NewId(db.strings.Keys) {
      assert StringFits(db, s);
    }
  }

  // ---- the substring index ----

  /** MATCH: the row ids it gives for a needle, from the pairs it was told of. */
  type Matcher = (set<(int, string)>, string) -> set<int>

  /** The substring index can be asked: three code points, and no NUL, which ends a query. */
  predicate Askable(text: string) { |text| >= 3 && (0 as char) !in text }

  /** MATCH folds case and may give too much, but misses no text that holds the needle. */
  ghost predicate MissesNothing(matcher: Matcher) {
    forall lit: set<(int, string)>, text: string, id: int, value: string ::
      Askable(text) && (id, value) in lit && Contains(Lower(value), Lower(text)) ==> id in matcher(lit, text)
  }

  lemma {:induction false} LowerContains(value: string, text: string)
    requires Contains(value, text)
    ensures Contains(Lower(value), Lower(text))
  {
    if text <= value {
      assert Lower(text) <= Lower(value);
    } else {
      LowerContains(value[1..], text);
      assert Lower(value)[1..] == Lower(value[1..]);
    }
  }

  /** What a query is narrowed to. */
  function Narrowed(db: Tables, fts: bool, matcher: Matcher, text: string): Option<set<int>> {
    if fts && Askable(text) then Some(matcher(db.lit, text)) else None
  }

  /** A literal that passes the exact test is one that MATCH gives. */
  lemma HitIsMatched(db: Tables, matcher: Matcher, q: Query, s: int)
    requires Mirrored(db) && MissesNothing(matcher) && Askable(q.text)
    requires s in db.strings && Test(q, db.strings[s].row.value)
    ensures s in matcher(db.lit, q.text)
  {
    var value := db.strings[s].row.value;
    if !q.insensitive { LowerContains(value, q.text); }
    ContainsIsNoLonger(Lower(value), Lower(q.text));
    UnitsAtLeast(value);
    assert (s, value) in db.lit;
  }

  /** With the substring index or without it, the same rows come out in the same order. */
  lemma {:induction false} NarrowingChangesNothing(
    db: Tables, fts: bool, matcher: Matcher, q: Query, scope: Scope, upTo: int)
    requires Sound(db, fts) && MissesNothing(matcher)
    ensures Listed(db, q, scope, Narrowed(db, fts, matcher, q.text), upTo) == Listed(db, q, scope, None, upTo)
    decreases if upTo < 0 then 0 else upTo
  {
    if upTo > 0 {
      NarrowingChangesNothing(db, fts, matcher, q, scope, upTo - 1);
      if fts && Askable(q.text) && upTo in db.strings && Hit(db, q, scope, upTo) {
        HitIsMatched(db, matcher, q, upTo);
      }
    }
  }

  // ---- cursors ----

  const DEFAULT_LIMIT := 50
  const MAX_LIMIT := 200

  /** Items on a page; `None` is no limit, or one that is no number. */
  function ClampLimit(limit: Option<int>): (n: nat)
    ensures 1 <= n <= MAX_LIMIT
  {
    match limit
    case None => DEFAULT_LIMIT
    case Some(l) => if l < 1 then 1 else if l > MAX_LIMIT then MAX_LIMIT else l
  }

  /** A cursor as it arrives: none, one of some shape, or one that cannot be read. */
  datatype Cursor = NoCursor | Cursor(generation: int, offset: int, query: Query) | Garbled

  datatype Refusal = NotOurs | OtherQuery | IndexChanged | Stale

  function DecodeCursor(cursor: Cursor, generation: int, q: Query): Result<nat, Refusal> {
    match cursor
    case NoCursor => Success(0)
    case Garbled => Failure(NotOurs)
    case Cursor(g, o, asked) =>
      if o < 0 then Failure(NotOurs)
      else if asked != q then Failure(OtherQuery)
      else if g != generation then Failure(IndexChanged)
      else Success(o)
  }

  datatype Page = Page(items: seq<int>, total: nat, next: Cursor)

  function Slice(rows: seq<int>, offset: nat, limit: nat): seq<int> {
    if offset >= |rows| then [] else if |rows| - offset <= limit then rows[offset..] else rows[offset..offset + limit]
  }

  function PageOf(rows: seq<int>, q: Query, generation: int, limit: nat, offset: nat): Page {
    var items := Slice(rows, offset, limit);
    Page(items, |rows|, if offset + |items| < |rows| then Cursor(generation, offset + |items|, q) else NoCursor)
  }

  /**
   * One page by scanning. The generation is read before the rows are: `read` and
   * `snap` are the tables at the two moments.
   */
  function SplitAnswer(read: Tables, snap: Tables, q: Query, limit: nat, cursor: Cursor): Result<Page, Refusal>
    requires OnePerPath(snap.files)
  {
    match DecodeCursor(cursor, read.generation, q)
    case Failure(why) => Failure(why)
    case Success(offset) => Success(PageOf(Scan(snap, q), q, read.generation, limit, offset))
  }

  function Answer(db: Tables, q: Query, limit: nat, cursor: Cursor): Result<Page, Refusal>
    requires OnePerPath(db.files)
  {
    SplitAnswer(db, db, q, limit, cursor)
  }

  // ---- the operation ----

  /** Some files of `links` are gone with all their rows, and nothing else is. */
  ghost predicate Dropped(before: Tables, after: Tables, links: set<int>) {
    && RowsDropped(before, after, links)
    && before.generation <= after.generation
    && (before != after ==> before.generation < after.generation)
  }

  ghost predicate RowsDropped(before: Tables, after: Tables, links: set<int>) {
    && (forall f :: f in after.files ==> f in before.files && after.files[f] == before.files[f])
    && (forall f :: f in before.files && f !in links ==> f in after.files)
    && (forall s :: s in after.strings ==> s in before.strings && after.strings[s] == before.strings[s])
    && (forall s :: s in before.strings && before.strings[s].file !in links ==> s in after.strings)
    && (forall f :: f in after.functions ==> f in before.functions && after.functions[f] == before.functions[f])
    && (forall f :: f in before.functions && before.functions[f].file !in links ==> f in after.functions)
    && (forall c :: c in after.calls ==> c in before.calls)
    && (forall c :: c in before.calls && c.file !in links ==> c in after.calls)
    && OthersKept(before.outline.classes, after.outline.classes, links)
    && OthersKept(before.outline.imports, after.outline.imports, links)
    && OthersKept(before.outline.exports, after.outline.exports, links)
  }

  ghost predicate OthersKept<T(!new)>(before: seq<Of<T>>, after: seq<Of<T>>, links: set<int>) {
    (forall x :: x in after ==> x in before) && (forall x :: x in before && x.file !in links ==> x in after)
  }

  /** Nothing is left of a file. */
  ghost predicate Gone(db: Tables, file: int) {
    && file !in db.files
    && (forall s :: s in db.strings ==> db.strings[s].file != file)
    && (forall f :: f in db.functions ==> db.functions[f].file != file)
    && (forall c :: c in db.calls ==> c.file != file)
    && (forall x :: x in db.outline.classes ==> x.file != file)
    && (forall x :: x in db.outline.imports ==> x.file != file)
    && (forall x :: x in db.outline.exports ==> x.file != file)
  }

  ghost predicate AllGone(db: Tables, files: seq<int>) { forall f :: f in files ==> Gone(db, f) }

  lemma OneMoreGone(db: Tables, fts: bool, files: seq<int>, k: nat)
    requires k < |files| && AllGone(db, files[..k])
    ensures AllGone(WithoutFile(db, fts, files[k]), files[..k + 1])
  {
    var after := WithoutFile(db, fts, files[k]);
    assert files[..k + 1] == files[..k] + [files[k]];
    forall f | f in files[..k + 1] ensures Gone(after, f) {
      assert f == files[k] || Gone(db, f);
    }
  }

  lemma OneMoreDropped(before: Tables, db: Tables, fts: bool, links: set<int>, file: int)
    requires RowsDropped(before, db, links) && file in links
    ensures RowsDropped(before, WithoutFile(db, fts, file), links)
  {
  }

  lemma BumpDropsNothing(before: Tables, db: Tables, links: set<int>, files: seq<int>)
    requires RowsDropped(before, db, links) && AllGone(db, files)
    ensures var after := db.(generation := db.generation + 1);
            RowsDropped(before, after, links) && AllGone(after, files)
  {
    forall f | f in files ensures Gone(db.(generation := db.generation + 1), f) { assert Gone(db, f); }
  }

  /** The first `k` of the files are dropped, and nothing but files in the list. */
  ghost predicate DroppedTo(before: Tables, db: Tables, fts: bool, files: seq<int>, k: nat)
    requires k <= |files|
  {
    && Sound(db, fts) && db.generation == before.generation
    && RowsDropped(before, db, Members(files)) && AllGone(db, files[..k])
  }

  function Members(files: seq<int>): set<int> { set f | f in files }

  lemma DropNext(before: Tables, db: Tables, fts: bool, files: seq<int>, k: nat)
    requires k < |files| && DroppedTo(before, db, fts, files, k)
    ensures DroppedTo(before, WithoutFile(db, fts, files[k]), fts, files, k + 1)
  {
    RemovalIsSound(db, fts, files[k]);
    OneMoreGone(db, fts, files, k);
    OneMoreDropped(before, db, fts, Members(files), files[k]);
  }

  lemma AllDropped(before: Tables, db: Tables, fts: bool, files: seq<int>)
    requires DroppedTo(before, db, fts, files, |files|)
    ensures var after := db.(generation := db.generation + 1);
            Sound(after, fts) && RowsDropped(before, after, Members(files)) && AllGone(after, files)
  {
    assert files[..|files|] == files;
    BumpIsSound(db, fts);
    BumpDropsNothing(before, db, Members(files), files);
  }

  /** Remove files that became links, and make every cursor issued so far void. */
  method DropFiles(store: Store, files: seq<int>)
    requires Sound(store.View(), store.fts)
    modifies store
    ensures Sound(store.View(), store.fts) && RowsDropped(old(store.View()), store.View(), Members(files))
    ensures AllGone(store.View(), files)
    ensures store.generation == old(store.generation) + 1
  {
    var k := 0;
    while k < |files|
      invariant k <= |files| && DroppedTo(old(store.View()), store.View(), store.fts, files, k)
    {
      DropNext(old(store.View()), store.View(), store.fts, files, k);
      store.RemoveFile(files[k]);
      k := k + 1;
    }
    AllDropped(old(store.View()), store.View(), store.fts, files);
    var _ := store.BumpGeneration();
  }

  /** No row is of a file in `links`. */
  ghost predicate Unlinked(strings: map<int, StoredString>, ids: seq<int>, links: set<int>) {
    forall s :: s in ids ==> s in strings && strings[s].file !in links
  }

  /** The files of a page that are links now. */
  method LinksAmong(store: Store, ids: seq<int>, links: set<int>) returns (found: seq<int>)
    requires forall i :: 0 <= i < |ids| ==> ids[i] in store.strings
    ensures forall f :: f in found ==> f in links
    ensures found == [] <==> Unlinked(store.strings, ids, links)
  {
    found := [];
    for k := 0 to |ids|
      invariant forall f :: f in found ==> f in links
      invariant found == [] ==> forall i :: 0 <= i < k ==> store.strings[ids[i]].file !in links
      invariant found != [] ==> exists i :: 0 <= i < k && store.strings[ids[i]].file in links
    {
      var file := store.strings[ids[k]].file;
      if file in links && file !in found {
        found := found + [file];
      }
    }
    if found != [] {
      var i :| 0 <= i < |ids| && store.strings[ids[i]].file in links;
      var s := ids[i];
      assert s in ids && store.strings[s].file in links;
    } else {
      forall s | s in ids ensures s in store.strings && store.strings[s].file !in links {
        var i :| 0 <= i < |ids| && ids[i] == s;
      }
    }
  }

  /** A matching row of a file that is a link by now. */
  predicate LinkedHit(db: Tables, q: Query, links: set<int>, s: int)
    requires OnePerPath(db.files)
  {
    s in db.strings && db.strings[s].file in links && Hit(db, q, ScopeOf(db.files, q.rel), s)
  }

  ghost predicate AnyLinked(db: Tables, q: Query, links: set<int>) {
    OnePerPath(db.files) && exists s :: LinkedHit(db, q, links, s)
  }

  /** The page that the tables answer with has such a row. */
  ghost predicate HoldsLink(db: Tables, q: Query, limit: nat, cursor: Cursor, links: set<int>) {
    && OnePerPath(db.files)
    && Answer(db, q, limit, cursor).Success?
    && exists s :: s in Answer(db, q, limit, cursor).value.items && LinkedHit(db, q, links, s)
  }

  /** A page with such a row was met, and files were dropped. */
  ghost predicate DroppedForPage(db: Tables, after: Tables, q: Query, limit: nat, cursor: Cursor, links: set<int>) {
    HoldsLink(db, q, limit, cursor, links) && RowsDropped(db, after, links) && db.generation < after.generation
  }

  ghost function Retry(q: Query, limit: nat, cursor: Cursor, links: set<int>): (Tables, Tables) -> bool {
    (db: Tables, after: Tables) => DroppedForPage(db, after, q, limit, cursor, links)
  }

  lemma LinkIsOnPage(db: Tables, fts: bool, q: Query, limit: nat, cursor: Cursor, links: set<int>, items: seq<int>)
    requires Sound(db, fts) && Answer(db, q, limit, cursor).Success? && items == Answer(db, q, limit, cursor).value.items
    requires !Unlinked(db.strings, items, links) && forall i :: 0 <= i < |items| ==> items[i] in db.strings
    ensures HoldsLink(db, q, limit, cursor, links)
  {
    var s :| s in items && db.strings[s].file in links;
    ScanIsExact(db, fts, q);
    assert s in Scan(db, q);
    assert LinkedHit(db, q, links, s);
  }

  lemma FewerDropped(before: Tables, after: Tables, found: seq<int>, links: set<int>)
    requires RowsDropped(before, after, Members(found)) && forall f :: f in found ==> f in links
    ensures RowsDropped(before, after, links)
  {
  }

  lemma OnceMore(path: seq<Tables>, db: Tables, after: Tables, fts: bool, q: Query, limit: nat, cursor: Cursor,
                 items: seq<int>, found: seq<int>, links: set<int>)
    requires path != [] && path[|path| - 1] == db && Machine.Chain(Retry(q, limit, cursor, links), path) && Sound(db, fts)
    requires Answer(db, q, limit, cursor).Success? && items == Answer(db, q, limit, cursor).value.items
    requires !Unlinked(db.strings, items, links) && forall i :: 0 <= i < |items| ==> items[i] in db.strings
    requires RowsDropped(db, after, Members(found)) && db.generation < after.generation
    requires forall f :: f in found ==> f in links
    ensures Machine.Chain(Retry(q, limit, cursor, links), path + [after])
  {
    LinkIsOnPage(db, fts, q, limit, cursor, links, items);
    FewerDropped(db, after, found, links);
    assert DroppedForPage(db, after, q, limit, cursor, links);
    Machine.Lengthened(Retry(q, limit, cursor, links), path, after);
  }

  lemma MetLink(db: Tables, after: Tables, q: Query, limit: nat, cursor: Cursor, links: set<int>)
    requires DroppedForPage(db, after, q, limit, cursor, links)
    ensures AnyLinked(db, q, links)
    ensures cursor == NoCursor || (cursor.Cursor? && cursor.generation == db.generation < after.generation)
  {
  }

  ghost function Drops(links: set<int>): (Tables, Tables) -> bool {
    (a: Tables, b: Tables) => RowsDropped(a, b, links) && a.generation < b.generation
  }

  lemma TriesOnlyDrop(path: seq<Tables>, q: Query, limit: nat, cursor: Cursor, links: set<int>)
    requires path != [] && Machine.Chain(Retry(q, limit, cursor, links), path)
    ensures Dropped(path[0], path[|path| - 1], links)
  {
    if |path| > 1 {
      var step, far := Retry(q, limit, cursor, links), Drops(links);
      forall a, b | step(a, b) ensures far(a, b) {
        assert DroppedForPage(a, b, q, limit, cursor, links);
      }
      forall a, b, c | far(a, b) && far(b, c) ensures far(a, c) { DroppedTwice(a, b, c, links); }
      Machine.ChainComposes(step, far, path);
      assert far(path[0], path[|path| - 1]);
    }
  }

  /** The first page met a link, and there is a second try only without a cursor, because dropping voids one. */
  lemma TriesMetLinks(path: seq<Tables>, q: Query, limit: nat, cursor: Cursor, links: set<int>)
    requires Machine.Chain(Retry(q, limit, cursor, links), path) && |path| > 1
    ensures AnyLinked(path[0], q, links) && (|path| > 2 ==> cursor.NoCursor?)
  {
    MetLinkAt(path, 0, q, limit, cursor, links);
    if |path| > 2 { MetLinkAt(path, 1, q, limit, cursor, links); }
  }

  lemma MetLinkAt(path: seq<Tables>, i: nat, q: Query, limit: nat, cursor: Cursor, links: set<int>)
    requires Machine.Chain(Retry(q, limit, cursor, links), path) && i + 1 < |path|
    ensures AnyLinked(path[i], q, links)
    ensures cursor == NoCursor || (cursor.Cursor? && cursor.generation == path[i].generation < path[i + 1].generation)
  {
    Machine.ChainLink(Retry(q, limit, cursor, links), path, i);
    MetLink(path[i], path[i + 1], q, limit, cursor, links);
  }

  lemma DroppedTwice(a: Tables, b: Tables, c: Tables, links: set<int>)
    requires RowsDropped(a, b, links) && RowsDropped(b, c, links)
    ensures RowsDropped(a, c, links)
  {
  }

  const TRIES := 3

  /** What a search from the tables `first` gives, and leaves in `db`. */
  ghost predicate Searched(
    first: Tables, db: Tables, fts: bool, q: Query, limit: nat, cursor: Cursor, links: set<int>, r: Result<Page, Refusal>)
  {
    && Sound(db, fts) && Dropped(first, db, links)
    && (r != Failure(Stale) ==> r == Answer(db, q, limit, cursor))
    && (r.Success? ==> Unlinked(db.strings, r.value.items, links))
    && (r == Failure(Stale) ==> cursor.NoCursor? && exists path ::
          && |path| == TRIES + 1 && path[0] == first && path[TRIES] == db
          && Machine.Chain(Retry(q, limit, cursor, links), path))
    && (!AnyLinked(first, q, links) ==> r != Failure(Stale) && db == first)
  }

  lemma Answers(path: seq<Tables>, db: Tables, fts: bool, q: Query, limit: nat, cursor: Cursor, links: set<int>,
                r: Result<Page, Refusal>)
    requires path != [] && path[|path| - 1] == db && Machine.Chain(Retry(q, limit, cursor, links), path)
    requires Sound(db, fts) && r == Answer(db, q, limit, cursor) && r != Failure(Stale)
    requires r.Success? ==> Unlinked(db.strings, r.value.items, links)
    ensures Searched(path[0], db, fts, q, limit, cursor, links, r)
  {
    TriesOnlyDrop(path, q, limit, cursor, links);
    if |path| > 1 { TriesMetLinks(path, q, limit, cursor, links); }
  }

  lemma GivesUp(path: seq<Tables>, db: Tables, fts: bool, q: Query, limit: nat, cursor: Cursor, links: set<int>)
    requires |path| == TRIES + 1 && path[TRIES] == db && Machine.Chain(Retry(q, limit, cursor, links), path)
    requires Sound(db, fts)
    ensures Searched(path[0], db, fts, q, limit, cursor, links, Failure(Stale))
  {
    TriesOnlyDrop(path, q, limit, cursor, links);
    TriesMetLinks(path, q, limit, cursor, links);
  }

  /**
   * One page of the literals that hold a text. `links` are the files that the disk
   * shows as links by now; a page with rows of one is not given out, their files are
   * dropped, and after three such pages the search gives up.
   */
  method FindLiteral(store: Store, matcher: Matcher, q: Query, limit: Option<int>, cursor: Cursor, links: set<int>)
    returns (r: Result<Page, Refusal>)
    requires Sound(store.View(), store.fts) && MissesNothing(matcher)
    modifies store
    ensures Searched(old(store.View()), store.View(), store.fts, q, ClampLimit(limit), cursor, links, r)
  {
    ghost var path := [store.View()];
    var attempt, n := 0, ClampLimit(limit);
    while attempt < TRIES
      invariant attempt <= TRIES && Sound(store.View(), store.fts)
      invariant |path| == attempt + 1 && path[0] == old(store.View()) && path[attempt] == store.View()
      invariant Machine.Chain(Retry(q, n, cursor, links), path)
    {
      r := OnePage(store, matcher, q, n, cursor);
      if r.Failure? {
        Answers(path, store.View(), store.fts, q, n, cursor, links, r);
        return;
      }
      var found := LinksAmong(store, r.value.items, links);
      if found == [] {
        Answers(path, store.View(), store.fts, q, n, cursor, links, r);
        return;
      }
      ghost var db := store.View();
      DropFiles(store, found);
      OnceMore(path, db, store.View(), store.fts, q, n, cursor, r.value.items, found, links);
      path := path + [store.View()];
      attempt := attempt + 1;
    }
    GivesUp(path, store.View(), store.fts, q, n, cursor, links);
    r := Failure(Stale);
  }

  /** A page of the tables as they are. */
  method OnePage(store: Store, matcher: Matcher, q: Query, limit: nat, cursor: Cursor)
    returns (r: Result<Page, Refusal>)
    requires Sound(store.View(), store.fts) && MissesNothing(matcher)
    ensures r == Answer(store.View(), q, limit, cursor) && r != Failure(Stale)
    ensures r.Success? ==> forall i :: 0 <= i < |r.value.items| ==> r.value.items[i] in store.strings
  {
    var generation := store.generation;
    var decoded := DecodeCursor(cursor, generation, q);
    if decoded.Failure? {
      return Failure(decoded.error);
    }
    var rows := MatchingRows(store, matcher, q);
    return Success(PageOf(rows, q, generation, limit, decoded.value));
  }

  /** The rows of the query as they are asked for, through the substring index when it can be. */
  method MatchingRows(store: Store, matcher: Matcher, q: Query) returns (rows: seq<int>)
    requires Sound(store.View(), store.fts) && MissesNothing(matcher)
    ensures rows == Scan(store.View(), q)
    ensures forall i :: 0 <= i < |rows| ==> rows[i] in store.strings
  {
    var db, scope := store.View(), ScopeOf(store.files, q.rel);
    var last := NewId(store.strings.Keys);
    rows := Listed(db, q, scope, Narrowed(db, store.fts, matcher, q.text), last);
    NarrowingChangesNothing(db, store.fts, matcher, q, scope, last);
    ListedAre(db, q, scope, last);
    assert forall i :: 0 <= i < |rows| ==> rows[i] in rows;
  }
}
