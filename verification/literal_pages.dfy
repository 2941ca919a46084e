/** Pages that are followed by their cursors are one listing, of one generation. */
module LiteralPages {
  import opened Common
  import opened CodeStore
  import opened StoreLaws
  import opened LiteralSearch
  import SyntaxWalk

  // ---- what a generation tells ----

  /** The indexer ends every batch that writes or removes with a new generation. */
  ghost predicate Stamped(tx: Transaction) {
    tx.ops != [] ==> Bump in tx.ops
  }

  ghost predicate AllStamped(txs: seq<Transaction>) { forall i :: 0 <= i < |txs| ==> Stamped(txs[i]) }

  /** `b` is not before `a`, and the same generation means the same tables. */
  predicate Later(a: Tables, b: Tables) {
    a.generation <= b.generation && (a.generation == b.generation ==> a == b)
  }

  lemma {:induction false} RunCountsBumps(db: Tables, fts: bool, ops: seq<Op>)
    requires Sound(db, fts) && AllProper(ops)
    ensures db.generation <= Run(db, fts, ops).generation
    ensures Bump in ops ==> db.generation < Run(db, fts, ops).generation
    decreases |ops|
  {
    if ops != [] {
      var next := Do(db, fts, ops[0]);
      assert next.generation == db.generation + if ops[0].Bump? then 1 else 0;
      RunCountsBumps(next, fts, ops[1..]);
    }
  }

  /** Whatever is committed, the generation tells that something was. */
  lemma {:induction false} GenerationTells(db: Tables, fts: bool, txs: seq<Transaction>)
    requires Sound(db, fts) && ProperHistory(txs) && AllStamped(txs)
    ensures Later(db, After(db, fts, txs))
    decreases |txs|
  {
    if txs != [] {
      var tx := txs[0];
      assert Stamped(tx);
      if tx.commits { RunCountsBumps(db, fts, tx.ops); }
      GenerationTells(Commit(db, fts, tx), fts, txs[1..]);
    }
  }

  /** A cursor from before a commit is refused after it. */
  lemma CommitVoidsCursors(db: Tables, fts: bool, txs: seq<Transaction>, q: Query, limit: nat, cursor: Cursor, later: nat)
    requires Sound(db, fts) && ProperHistory(txs) && AllStamped(txs)
    requires After(db, fts, txs) != db
    requires Answer(db, q, limit, cursor).Success? && Answer(db, q, limit, cursor).value.next.Cursor?
    ensures Answer(After(db, fts, txs), q, later, Answer(db, q, limit, cursor).value.next) == Failure(IndexChanged)
  {
    GenerationTells(db, fts, txs);
  }

  // ---- following cursors ----

  /** One page that was asked for: the tables when its generation was read, and when its rows were. */
  datatype Turn = Turn(read: Tables, snap: Tables, limit: nat, page: Page)

  /** Each page was given for the cursor of the one before. */
  ghost predicate Followed(q: Query, cursor: Cursor, turns: seq<Turn>)
    decreases |turns|
  {
    turns == [] ||
    (var turn := turns[0];
     && OnePerPath(turn.snap.files)
     && turn.limit > 0
     && SplitAnswer(turn.read, turn.snap, q, turn.limit, cursor) == Success(turn.page)
     && (|turns| > 1 ==> turn.page.next.Cursor?)
     && Followed(q, turn.page.next, turns[1..]))
  }

  /** Time passes from one page to the next. */
  ghost predicate InOrder(turns: seq<Turn>)
    decreases |turns|
  {
    turns == [] ||
    (&& Later(turns[0].read, turns[0].snap)
     && (|turns| > 1 ==> Later(turns[0].snap, turns[1].read))
     && InOrder(turns[1..]))
  }

  function Items(turns: seq<Turn>): seq<int>
    decreases |turns|
  {
    if turns == [] then [] else turns[0].page.items + Items(turns[1..])
  }

  function OffsetIn(cursor: Cursor): nat {
    if cursor.Cursor? && cursor.offset >= 0 then cursor.offset else 0
  }

  lemma SliceMovesOn(rows: seq<int>, offset: nat, limit: nat)
    requires limit > 0
    ensures var items := Slice(rows, offset, limit);
            && offset <= |rows| ==> offset + |items| <= |rows| && rows[offset..] == items + rows[offset + |items|..]
    ensures offset < |rows| ==> |Slice(rows, offset, limit)| > 0
  {
  }

  /**
   * A page whose cursor is accepted by the next was read in one generation, and so
   * was the next: nothing was committed from the first of its reads to the next page's.
   */
  lemma AcceptanceMeansSame(q: Query, turn: Turn, next: Turn, cursor: Cursor)
    requires OnePerPath(turn.snap.files) && OnePerPath(next.snap.files)
    requires SplitAnswer(turn.read, turn.snap, q, turn.limit, cursor) == Success(turn.page)
    requires turn.page.next.Cursor?
    requires SplitAnswer(next.read, next.snap, q, next.limit, turn.page.next) == Success(next.page)
    requires Later(turn.read, turn.snap) && Later(turn.snap, next.read)
    ensures turn.read == turn.snap == next.read
    ensures turn.page.next == Cursor(turn.read.generation, OffsetIn(cursor) + |turn.page.items|, q)
    ensures OffsetIn(cursor) + |turn.page.items| < |Scan(turn.snap, q)|
  {
  }

  /** What a page holds, and whether it is the last. */
  lemma PageHolds(rows: seq<int>, q: Query, generation: int, limit: nat, offset: nat)
    requires limit > 0
    ensures var page := PageOf(rows, q, generation, limit, offset);
            && page.items == Slice(rows, offset, limit)
            && (page.next.NoCursor? <==> offset + |page.items| >= |rows|)
            && (offset < |rows| ==> |page.items| > 0)
    ensures var items := Slice(rows, offset, limit);
            offset <= |rows| ==> offset + |items| <= |rows| && rows[offset..] == items + rows[offset + |items|..]
  {
    SliceMovesOn(rows, offset, limit);
  }

  /** The last page was read in one generation, and there is none after it. */
  predicate Ended(turns: seq<Turn>) {
    turns != [] && turns[|turns| - 1].snap.generation == turns[|turns| - 1].read.generation &&
    turns[|turns| - 1].page.next.NoCursor?
  }

  /** The first of several pages, and the others. */
  lemma NextTurn(q: Query, cursor: Cursor, turns: seq<Turn>)
    requires |turns| > 1 && Followed(q, cursor, turns) && InOrder(turns) && Ended(turns)
    ensures var rest, turn := turns[1..], turns[0];
            && Followed(q, turn.page.next, rest) && InOrder(rest) && Ended(rest)
            && turn.read == turn.snap == rest[0].read
            && turn.page.next == Cursor(turn.read.generation, OffsetIn(cursor) + |turn.page.items|, q)
            && OffsetIn(cursor) + |turn.page.items| < |Scan(turn.snap, q)|
  {
    var rest := turns[1..];
    assert rest[0] == turns[1] && rest[|rest| - 1] == turns[|turns| - 1];
    assert Followed(q, turns[0].page.next, rest);
    AcceptanceMeansSame(q, turns[0], rest[0], cursor);
  }

  /**
   * Pages that were followed to the end, the last one read in one generation, come
   * from one state of the tables. For the earlier pages the next page's acceptance
   * shows that nothing was committed in between.
   */
  lemma {:induction false} PagesAreOneState(q: Query, cursor: Cursor, turns: seq<Turn>)
    requires Followed(q, cursor, turns) && InOrder(turns) && Ended(turns)
    ensures forall i :: 0 <= i < |turns| ==> turns[i].read == turns[i].snap == turns[0].read
    decreases |turns|
  {
    if |turns| > 1 {
      NextTurn(q, cursor, turns);
      PagesAreOneState(q, turns[0].page.next, turns[1..]);
      forall i | 0 <= i < |turns| ensures turns[i].read == turns[i].snap == turns[0].read {
        if i > 0 { assert turns[i] == turns[1..][i - 1]; }
      }
    }
  }

  lemma FirstPage(q: Query, cursor: Cursor, turns: seq<Turn>)
    requires turns != [] && Followed(q, cursor, turns)
    ensures var turn := turns[0];
            && OnePerPath(turn.snap.files)
            && turn.page == PageOf(Scan(turn.snap, q), q, turn.read.generation, turn.limit, OffsetIn(cursor))
    ensures turns[0].limit > 0 && Items(turns) == turns[0].page.items + Items(turns[1..])
  {
  }

  /** Together they are that state's matching rows from the first cursor on, each once and in order. */
  lemma {:induction false} PagesAreOneListing(q: Query, cursor: Cursor, turns: seq<Turn>, rows: seq<int>)
    requires Followed(q, cursor, turns) && InOrder(turns) && Ended(turns)
    requires OnePerPath(turns[0].snap.files) && rows == Scan(turns[0].snap, q) && OffsetIn(cursor) <= |rows|
    ensures Items(turns) == rows[OffsetIn(cursor)..]
    ensures |turns| <= 1 + |Items(turns)|
    decreases |turns|
  {
    var offset, turn := OffsetIn(cursor), turns[0];
    FirstPage(q, cursor, turns);
    PageHolds(rows, q, turn.read.generation, turn.limit, offset);
    if |turns| > 1 {
      NextTurn(q, cursor, turns);
      PagesAreOneState(q, cursor, turns);
      assert turns[1..][0] == turns[1];
      PagesAreOneListing(q, turn.page.next, turns[1..], rows);
    } else {
      assert Items(turns[1..]) == [];
    }
  }

  /** From the first page to the last: every matching row of one generation exactly once. */
  lemma FollowingListsEverything(fts: bool, q: Query, turns: seq<Turn>)
    requires Followed(q, NoCursor, turns) && InOrder(turns) && Ended(turns) && Sound(turns[0].snap, fts)
    ensures Items(turns) == Scan(turns[0].snap, q)
    ensures forall s :: s in Items(turns) <==>
              s in turns[0].snap.strings && Hit(turns[0].snap, q, ScopeOf(turns[0].snap.files, q.rel), s)
    ensures forall i, j :: 0 <= i < j < |Items(turns)| ==> Items(turns)[i] < Items(turns)[j]
  {
    var rows := Scan(turns[0].snap, q);
    PagesAreOneListing(q, NoCursor, turns, rows);
    ScanIsExact(turns[0].snap, fts, q);
    assert rows[0..] == rows;
  }

  /**
   * Without that condition on the last page it fails: another process that commits
   * between the two reads moves the rows under an accepted cursor. Here the file of
   * the first row is removed and the second row is on no page.
   */
  lemma CommitBetweenReadsLosesARow(row: SyntaxWalk.StringRow, file: FileRow, other: FileRow)
    requires row.value == "abc" && file.path != other.path
    ensures var q := Query("abc", false, "");
            var files := map[1 := file, 2 := other];
            var strings := map[1 := StoredString(1, row), 2 := StoredString(2, row)];
            var db := Tables(files, map[], strings, [], Outline([], [], []), {}, 1, 7);
            var after := WithoutFile(db, false, 1).(generation := 8);
            && OnePerPath(db.files) && OnePerPath(after.files) && 2 in after.strings
            && Answer(db, q, 1, NoCursor) == Success(Page([1], 2, Cursor(7, 1, q)))
            && SplitAnswer(db, after, q, 1, Cursor(7, 1, q)) == Success(Page([], 1, NoCursor))
  {
    var q := Query("abc", false, "");
    var files := map[1 := file, 2 := other];
    var strings := map[1 := StoredString(1, row), 2 := StoredString(2, row)];
    var db := Tables(files, map[], strings, [], Outline([], [], []), {}, 1, 7);
    var after := WithoutFile(db, false, 1).(generation := 8);
    assert OnePerPath(db.files) && OnePerPath(after.files);
    assert Hit(db, q, Whole, 1) && Hit(db, q, Whole, 2) && Hit(after, q, Whole, 2);
    ScanOfTwo(db, q);
    ScanOfTwo(after, q);
    assert Slice([1, 2], 0, 1) == [1] && Slice([2], 1, 1) == [];
    assert PageOf([1, 2], q, 7, 1, 0) == Page([1], 2, Cursor(7, 1, q));
    assert PageOf([2], q, 7, 1, 1) == Page([], 1, NoCursor);
  }

  /** When there are no rows but 1 and 2. */
  lemma ScanOfTwo(db: Tables, q: Query)
    requires OnePerPath(db.files) && q.rel == "" && 2 in db.strings
    requires forall s :: s in db.strings ==> (s == 1 || s == 2) && Hit(db, q, Whole, s)
    ensures Scan(db, q) == if 1 in db.strings then [1, 2] else [2]
  {
    assert 2 in db.strings.Keys;
    ListedStops(db, q, NewId(db.strings.Keys));
    assert Listed(db, q, Whole, None, 0) == [];
    assert Listed(db, q, Whole, None, 1) == if 1 in db.strings then [1] else [];
  }

  lemma {:induction false} ListedStops(db: Tables, q: Query, upTo: int)
    requires forall s :: s in db.strings ==> s <= 2
    requires upTo >= 2
    ensures Listed(db, q, Whole, None, upTo) == Listed(db, q, Whole, None, 2)
    decreases upTo
  {
    if upTo > 2 { ListedStops(db, q, upTo - 1); }
  }
}
