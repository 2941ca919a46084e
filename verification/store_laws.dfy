/**
 * What every history of the tables keeps: ids are never handed out twice, every
 * reference stays inside its file, and the substring index misses nothing.
 */
module StoreLaws {
  import opened Common
  import opened Text
  import opened SyntaxWalk
  import opened LexicalScope
  import opened CodeStore
  import Lines

  // ---- what is kept ----

  /** No function, or one of this file. */
  predicate Refers(functions: map<int, StoredFunction>, file: int, id: Option<int>) {
    id.Some? ==> id.value in functions && functions[id.value].file == file
  }

  ghost predicate FunctionFits(db: Tables, f: int)
    requires f in db.functions
  {
    var row := db.functions[f].row;
    && f < db.nextFn && row.id == f && db.functions[f].file in db.files
    && (row.parentId.Some? ==> row.parentId.value < f)
    && Refers(db.functions, db.functions[f].file, row.parentId)
  }

  ghost predicate StringFits(db: Tables, s: int)
    requires s in db.strings
  {
    s > 0 && db.strings[s].file in db.files && Refers(db.functions, db.strings[s].file, db.strings[s].row.fnId)
  }

  ghost predicate CallFits(db: Tables, c: StoredCall) {
    c.file in db.files && Refers(db.functions, c.file, c.row.fnId)
  }

  ghost predicate FunctionsFit(db: Tables) { forall f :: f in db.functions ==> FunctionFits(db, f) }

  ghost predicate StringsFit(db: Tables) { forall s :: s in db.strings ==> StringFits(db, s) }

  ghost predicate CallsFit(db: Tables) { forall c :: c in db.calls ==> CallFits(db, c) }

  ghost predicate RowsOfFiles<T(!new)>(rows: seq<Of<T>>, files: map<int, FileRow>) {
    forall x :: x in rows ==> x.file in files
  }

  ghost predicate OutlineFits(db: Tables) {
    && RowsOfFiles(db.outline.classes, db.files)
    && RowsOfFiles(db.outline.imports, db.files)
    && RowsOfFiles(db.outline.exports, db.files)
  }

  /** Every literal of three or more units has its pair in the substring index. */
  ghost predicate Mirrored(db: Tables) {
    forall s :: s in db.strings && Units(db.strings[s].row.value) >= 3 ==> (s, db.strings[s].row.value) in db.lit
  }

  ghost predicate Sound(db: Tables, fts: bool) {
    OnePerPath(db.files) && FunctionsFit(db) && StringsFit(db) && CallsFit(db) && OutlineFits(db) && (fts ==> Mirrored(db))
  }

  // ---- removing ----

  lemma RemovalKeepsFunctions(db: Tables, fts: bool, file: int)
    requires FunctionsFit(db)
    ensures FunctionsFit(WithoutFile(db, fts, file))
  {
    var after := WithoutFile(db, fts, file);
    forall f | f in after.functions ensures FunctionFits(after, f) {
      assert FunctionFits(db, f);
    }
  }

  lemma RemovalKeepsSites(db: Tables, fts: bool, file: int)
    requires StringsFit(db) && CallsFit(db)
    ensures StringsFit(WithoutFile(db, fts, file)) && CallsFit(WithoutFile(db, fts, file))
  {
    var after := WithoutFile(db, fts, file);
    forall s | s in after.strings ensures StringFits(after, s) {
      assert StringFits(db, s);
    }
    forall c | c in after.calls ensures CallFits(after, c) {
      assert CallFits(db, c);
    }
  }

  /**
   * The pairs that are forgotten are pairs of rows that go. A pair whose row goes and
   * that is not forgotten, because SQL counts its text shorter, only stays too long.
   */
  lemma RemovalKeepsMirror(db: Tables, fts: bool, file: int)
    requires Mirrored(db)
    ensures Mirrored(WithoutFile(db, fts, file))
  {
  }

  /**
   * The pair of a removed row stays behind exactly when SQL counts fewer than three
   * in its text.
   */
  lemma PairStays(db: Tables, file: int, s: int)
    requires s in db.strings && db.strings[s].file == file && (s, db.strings[s].row.value) in db.lit
    ensures (s, db.strings[s].row.value) in WithoutFile(db, true, file).lit <==> SqlLength(db.strings[s].row.value) < 3
    ensures s !in WithoutFile(db, true, file).strings
  {
  }

  /**
   * Two astral characters are four units but two code points: the pair is put in with
   * the row and is not taken out with it, so the substring index can hold more than
   * the literals.
   */
  lemma PairOutlivesItsRow(db: Tables, file: int, row: StringRow)
    requires row.value == "\U{1F600}\U{1F600}"
    requires db.strings == map[1 := StoredString(file, row)] && db.lit == {(1, row.value)}
    ensures Mirrored(db) && Units(row.value) >= 3
    ensures var after := WithoutFile(db, true, file); after.strings == map[] && after.lit == {(1, row.value)}
  {
    var value := row.value;
    assert value[1..] == "\U{1F600}" && value[1..][1..] == "";
    assert SqlLength(value) == 2;
    PairStays(db, file, 1);
    assert db.lit == WithoutFile(db, true, file).lit;
  }

  lemma RemovalKeepsOutline(db: Tables, fts: bool, file: int)
    requires OutlineFits(db)
    ensures OutlineFits(WithoutFile(db, fts, file))
  {
  }

  lemma RemovalIsSound(db: Tables, fts: bool, file: int)
    requires Sound(db, fts)
    ensures Sound(WithoutFile(db, fts, file), fts)
  {
    RemovalKeepsFunctions(db, fts, file);
    RemovalKeepsSites(db, fts, file);
    RemovalKeepsOutline(db, fts, file);
    if fts { RemovalKeepsMirror(db, fts, file); }
  }

  // ---- writing ----

  /** The functions stored for the first `n` rows of a file. */
  ghost predicate AddedFunctions(before: map<int, StoredFunction>, after: map<int, StoredFunction>, file: int, base: int,
                                 rows: seq<FunctionRow>)
  {
    && (forall f :: f in before && f < base ==> f in after && after[f] == before[f])
    && (forall f :: f in after && f < base ==> f in before)
    && (forall f :: f in after && f >= base ==> f < base + |rows| && NewFunction(after[f], file, base, f, rows[f - base]))
    && (forall f :: base <= f < base + |rows| ==> f in after)
  }

  predicate NewFunction(stored: StoredFunction, file: int, base: int, f: int, row: FunctionRow) {
    stored.file == file && stored.row.id == f && stored.row.parentId == Remap(base, row.parentId)
  }

  lemma {:induction false} FunctionsAreAdded(
    before: map<int, StoredFunction>, file: int, base: int, starts: seq<nat>, rows: seq<FunctionRow>)
    requires Lines.Table(starts) && FunctionsNumbered(0, rows)
    requires forall f :: f in before ==> f < base
    ensures AddedFunctions(before, WithFunctions(before, file, base, starts, rows), file, base, rows)
  {
    if rows != [] {
      var n := |rows| - 1;
      var earlier := rows[..n];
      forall k: nat | k < |earlier| ensures Numbered(0, k, earlier[k]) {
        assert Numbered(0, k, rows[k]);
      }
      FunctionsAreAdded(before, file, base, starts, earlier);
      assert Numbered(0, n, rows[n]);
    }
  }

  lemma StringIsAdded(held: Literals, fts: bool, file: int, base: int, s: StringRow, db: Tables)
    requires StringsFit(db.(strings := held.strings)) && file in db.files
    requires fts ==> Mirrored(db.(strings := held.strings, lit := held.lit))
    requires Refers(db.functions, file, Remap(base, s.fnId))
    ensures var r := WithString(held, fts, file, base, s);
            && StringsFit(db.(strings := r.strings))
            && (fts ==> Mirrored(db.(strings := r.strings, lit := r.lit)))
  {
    var before, r := db.(strings := held.strings), WithString(held, fts, file, base, s);
    var after := db.(strings := r.strings);
    forall k | k in held.strings ensures k > 0 {
      assert StringFits(before, k);
    }
    forall k | k in r.strings ensures StringFits(after, k) {
      if k in held.strings { assert StringFits(before, k); }
    }
  }

  lemma {:induction false} StringsAreAdded(
    held: Literals, fts: bool, file: int, base: int, rows: seq<StringRow>, db: Tables)
    requires StringsFit(db.(strings := held.strings)) && file in db.files
    requires fts ==> Mirrored(db.(strings := held.strings, lit := held.lit))
    requires forall s :: s in rows ==> Refers(db.functions, file, Remap(base, s.fnId))
    ensures var r := WithStrings(held, fts, file, base, rows);
            && StringsFit(db.(strings := r.strings))
            && (fts ==> Mirrored(db.(strings := r.strings, lit := r.lit)))
  {
    if rows != [] {
      var n := |rows| - 1;
      StringsAreAdded(held, fts, file, base, rows[..n], db);
      assert rows[n] in rows;
      StringIsAdded(WithStrings(held, fts, file, base, rows[..n]), fts, file, base, rows[n], db);
    }
  }

  /** A reference to one of a file's own functions, before and after the ids are moved. */
  lemma RemapRefers(after: map<int, StoredFunction>, before: map<int, StoredFunction>, file: int, base: int,
                    rows: seq<FunctionRow>, local: Option<int>)
    requires AddedFunctions(before, after, file, base, rows) && IdWithin(0, |rows|, local)
    ensures Refers(after, file, Remap(base, local))
  {
  }

  lemma RowsKeepFunctions(db: Tables, fts: bool, record: FileRecord)
    requires record.Valid() && FunctionsFit(db) && FunctionsNumbered(0, record.rows.functions)
    ensures FunctionsFit(WithRows(db, fts, record))
    ensures AddedFunctions(db.functions, WithRows(db, fts, record).functions, NewId(db.files.Keys), db.nextFn,
                           record.rows.functions)
  {
    var after, file, base := WithRows(db, fts, record), NewId(db.files.Keys), db.nextFn;
    var rows := record.rows.functions;
    forall f | f in db.functions ensures f < base {
      assert FunctionFits(db, f);
    }
    FunctionsAreAdded(db.functions, file, base, record.starts, rows);
    forall f | f in after.functions ensures FunctionFits(after, f) {
      if f < base {
        assert FunctionFits(db, f);
      } else {
        assert Numbered(0, f - base, rows[f - base]);
        RemapRefers(after.functions, db.functions, file, base, rows, rows[f - base].parentId);
      }
    }
  }

  /** Rows of other files still fit when a file is added. */
  lemma OldSitesFit(db: Tables, after: Tables, file: int, base: int, rows: seq<FunctionRow>)
    requires FunctionsFit(db) && StringsFit(db) && CallsFit(db) && base == db.nextFn
    requires AddedFunctions(db.functions, after.functions, file, base, rows)
    requires forall k :: k in db.files ==> k in after.files
    ensures StringsFit(after.(strings := db.strings)) && CallsFit(after.(calls := db.calls))
  {
    var strings, calls := after.(strings := db.strings), after.(calls := db.calls);
    forall s | s in db.strings ensures StringFits(strings, s) {
      assert StringFits(db, s);
      var fn := db.strings[s].row.fnId;
      if fn.Some? { assert FunctionFits(db, fn.value); }
    }
    forall c | c in db.calls ensures CallFits(calls, c) {
      assert CallFits(db, c);
      if c.row.fnId.Some? { assert FunctionFits(db, c.row.fnId.value); }
    }
  }

  lemma RowsKeepSites(db: Tables, fts: bool, record: FileRecord)
    requires record.Valid() && Sound(db, fts) && WellNumbered(0, record.rows)
    ensures var after := WithRows(db, fts, record);
            StringsFit(after) && CallsFit(after) && (fts ==> Mirrored(after))
  {
    var after, file, base := WithRows(db, fts, record), NewId(db.files.Keys), db.nextFn;
    var rows := record.rows;
    RowsKeepFunctions(db, fts, record);
    OldSitesFit(db, after, file, base, rows.functions);
    forall s | s in rows.strings ensures Refers(after.functions, file, Remap(base, s.fnId)) {
      RemapRefers(after.functions, db.functions, file, base, rows.functions, s.fnId);
    }
    StringsAreAdded(Literals(db.strings, db.lit), fts, file, base, rows.strings, after);
    NewCallsFit(db, after, file, base, rows);
  }

  lemma NewCallsFit(db: Tables, after: Tables, file: int, base: int, rows: Rows)
    requires AddedFunctions(db.functions, after.functions, file, base, rows.functions)
    requires WellNumbered(0, rows) && CallsFit(after.(calls := db.calls)) && file in after.files
    requires after.calls == db.calls + CallsStored(file, base, rows.calls)
    ensures CallsFit(after)
  {
    var stored := CallsStored(file, base, rows.calls);
    forall c | c in after.calls ensures CallFits(after, c) {
      if c in db.calls {
        assert CallFits(after.(calls := db.calls), c);
      } else {
        var i :| 0 <= i < |stored| && stored[i] == c;
        assert rows.calls[i] in rows.calls;
        RemapRefers(after.functions, db.functions, file, base, rows.functions, rows.calls[i].fnId);
      }
    }
  }

  lemma FileRowsAdded<T(!new)>(rows: seq<Of<T>>, files: map<int, FileRow>, file: int, more: seq<T>, after: map<int, FileRow>)
    requires RowsOfFiles(rows, files) && file in after && forall k :: k in files ==> k in after
    ensures RowsOfFiles(rows + OfFile(file, more), after)
  {
  }

  lemma RowsKeepOutline(db: Tables, fts: bool, record: FileRecord)
    requires record.Valid() && OutlineFits(db)
    ensures OutlineFits(WithRows(db, fts, record))
  {
    var file, files := NewId(db.files.Keys), WithRows(db, fts, record).files;
    FileRowsAdded(db.outline.classes, db.files, file, record.rows.classes, files);
    FileRowsAdded(db.outline.imports, db.files, file, record.imports, files);
    FileRowsAdded(db.outline.exports, db.files, file, record.exports, files);
  }

  /** The parsed rows number their functions from 0, as the walker's and the scanner's do. */
  ghost predicate Parsed(record: FileRecord) { record.Valid() && WellNumbered(0, record.rows) }

  lemma WriteIsSound(db: Tables, fts: bool, record: FileRecord)
    requires Sound(db, fts) && Parsed(record)
    ensures Sound(Written(db, fts, record), fts)
  {
    if !Held(db, record) {
      var id := IdOf(db.files, record.path);
      if id.Some? { RemovalIsSound(db, fts, id.value); }
      var bare := WithoutPath(db, fts, record.path);
      RowsKeepFunctions(bare, fts, record);
      RowsKeepSites(bare, fts, record);
      RowsKeepOutline(bare, fts, record);
    }
  }

  // ---- histories ----

  datatype Op = Write(record: FileRecord) | Remove(file: int) | Touch(file: int, size: nat, mtime: int) | Bump

  /** One process's write transaction. The write lock makes it a single step of the history. */
  datatype Transaction = Transaction(ops: seq<Op>, commits: bool)

  ghost predicate Proper(op: Op) { op.Write? ==> Parsed(op.record) }

  ghost predicate AllProper(ops: seq<Op>) { forall i :: 0 <= i < |ops| ==> Proper(ops[i]) }

  ghost function Do(db: Tables, fts: bool, op: Op): (r: Tables)
    requires Sound(db, fts) && Proper(op)
    ensures Sound(r, fts)
  {
    match op
    case Write(record) => WriteIsSound(db, fts, record); Written(db, fts, record)
    case Remove(file) => RemovalIsSound(db, fts, file); WithoutFile(db, fts, file)
    case Touch(file, size, mtime) => TouchIsSound(db, fts, file, size, mtime); Touched(db, file, size, mtime)
    case Bump =>
      var r := db.(generation := db.generation + 1);
      BumpIsSound(db, fts);
      r
  }

  /** A touch moves no path and no row that refers to the file. */
  lemma TouchIsSound(db: Tables, fts: bool, file: int, size: nat, mtime: int)
    requires Sound(db, fts)
    ensures Sound(Touched(db, file, size, mtime), fts)
  {
    var r := Touched(db, file, size, mtime);
    assert forall f :: f in r.functions ==> FunctionFits(db, f) && FunctionFits(r, f);
    assert forall s :: s in r.strings ==> StringFits(db, s) && StringFits(r, s);
    assert forall c :: c in r.calls ==> CallFits(db, c) && CallFits(r, c);
  }

  lemma BumpIsSound(db: Tables, fts: bool)
    requires Sound(db, fts)
    ensures Sound(db.(generation := db.generation + 1), fts)
  {
    var r := db.(generation := db.generation + 1);
    assert forall f :: f in r.functions ==> FunctionFits(db, f) && FunctionFits(r, f);
    assert forall s :: s in r.strings ==> StringFits(db, s) && StringFits(r, s);
    assert forall c :: c in r.calls ==> CallFits(db, c) && CallFits(r, c);
  }

  ghost function Run(db: Tables, fts: bool, ops: seq<Op>): (r: Tables)
    requires Sound(db, fts) && AllProper(ops)
    ensures Sound(r, fts)
    decreases |ops|
  {
    if ops == [] then db else Run(Do(db, fts, ops[0]), fts, ops[1..])
  }

  /** The function ids that a write inserts, in the order they are inserted. */
  ghost function IssuedBy(db: Tables, op: Op): seq<int>
    requires OnePerPath(db.files)
  {
    if op.Write? && !Held(db, op.record) then
      var fs := op.record.rows.functions;
      seq(|fs|, k requires 0 <= k < |fs| => db.nextFn + fs[k].id)
    else []
  }

  ghost function Issued(db: Tables, fts: bool, ops: seq<Op>): seq<int>
    requires Sound(db, fts) && AllProper(ops)
    decreases |ops|
  {
    if ops == [] then [] else IssuedBy(db, ops[0]) + Issued(Do(db, fts, ops[0]), fts, ops[1..])
  }

  ghost predicate Ascending(ids: seq<int>, low: int, high: int) {
    (forall i :: 0 <= i < |ids| ==> low <= ids[i] < high) &&
    (forall i, j :: 0 <= i < j < |ids| ==> ids[i] < ids[j])
  }

  lemma AscendingAppend(a: seq<int>, b: seq<int>, low: int, mid: int, high: int)
    requires low <= mid <= high && Ascending(a, low, mid) && Ascending(b, mid, high)
    ensures Ascending(a + b, low, high)
  {
  }

  lemma OpIssues(db: Tables, fts: bool, op: Op)
    requires Sound(db, fts) && Proper(op)
    ensures db.nextFn <= Do(db, fts, op).nextFn
    ensures Ascending(IssuedBy(db, op), db.nextFn, Do(db, fts, op).nextFn)
    ensures forall f :: f in Do(db, fts, op).functions ==> f in db.functions || f in IssuedBy(db, op)
  {
    if op.Write? && !Held(db, op.record) {
      var rows, issued := op.record.rows.functions, IssuedBy(db, op);
      forall k | 0 <= k < |rows| ensures issued[k] == db.nextFn + k {
        assert Numbered(0, k, rows[k]);
      }
      var id := IdOf(db.files, op.record.path);
      if id.Some? { RemovalIsSound(db, fts, id.value); }
      var bare := WithoutPath(db, fts, op.record.path);
      RowsKeepFunctions(bare, fts, op.record);
      forall f | f in Do(db, fts, op).functions && f !in db.functions ensures f in issued {
        assert issued[f - db.nextFn] == f;
      }
    }
  }

  lemma {:induction false} RunIssues(db: Tables, fts: bool, ops: seq<Op>)
    requires Sound(db, fts) && AllProper(ops)
    ensures db.nextFn <= Run(db, fts, ops).nextFn
    ensures Ascending(Issued(db, fts, ops), db.nextFn, Run(db, fts, ops).nextFn)
    ensures forall f :: f in Run(db, fts, ops).functions ==> f in db.functions || f in Issued(db, fts, ops)
    decreases |ops|
  {
    if ops != [] {
      var next := Do(db, fts, ops[0]);
      OpIssues(db, fts, ops[0]);
      RunIssues(next, fts, ops[1..]);
      AscendingAppend(IssuedBy(db, ops[0]), Issued(next, fts, ops[1..]), db.nextFn, next.nextFn,
                      Run(db, fts, ops).nextFn);
    }
  }

  ghost predicate ProperHistory(txs: seq<Transaction>) { forall i :: 0 <= i < |txs| ==> AllProper(txs[i].ops) }

  /** A transaction that does not commit leaves nothing. */
  ghost function Commit(db: Tables, fts: bool, tx: Transaction): (r: Tables)
    requires Sound(db, fts) && AllProper(tx.ops)
    ensures Sound(r, fts)
  {
    if tx.commits then Run(db, fts, tx.ops) else db
  }

  ghost function After(db: Tables, fts: bool, txs: seq<Transaction>): (r: Tables)
    requires Sound(db, fts) && ProperHistory(txs)
    ensures Sound(r, fts)
    decreases |txs|
  {
    if txs == [] then db else After(Commit(db, fts, txs[0]), fts, txs[1..])
  }

  /** All function ids that a history's committed transactions hand out, in order. */
  ghost function AllIssued(db: Tables, fts: bool, txs: seq<Transaction>): seq<int>
    requires Sound(db, fts) && ProperHistory(txs)
    decreases |txs|
  {
    if txs == [] then []
    else
      (if txs[0].commits then Issued(db, fts, txs[0].ops) else []) +
      AllIssued(Commit(db, fts, txs[0]), fts, txs[1..])
  }

  /**
   * Whatever transactions several processes commit, in whatever order: the ids go up,
   * so none is handed out twice, not even one whose file is gone; and every function
   * that is stored was there before or has one of these ids.
   */
  lemma {:induction false} NoIdTwice(db: Tables, fts: bool, txs: seq<Transaction>)
    requires Sound(db, fts) && ProperHistory(txs)
    ensures db.nextFn <= After(db, fts, txs).nextFn
    ensures Ascending(AllIssued(db, fts, txs), db.nextFn, After(db, fts, txs).nextFn)
    ensures forall f :: f in After(db, fts, txs).functions ==> f in db.functions || f in AllIssued(db, fts, txs)
    decreases |txs|
  {
    if txs != [] {
      var next := Commit(db, fts, txs[0]);
      RunIssues(db, fts, txs[0].ops);
      NoIdTwice(next, fts, txs[1..]);
      AscendingAppend(if txs[0].commits then Issued(db, fts, txs[0].ops) else [], AllIssued(next, fts, txs[1..]),
                      db.nextFn, next.nextFn, After(db, fts, txs).nextFn);
    }
  }

  const EMPTY := Tables(map[], map[], map[], [], Outline([], [], []), {}, 1, 0)

  /** From the empty store, every history leaves references inside their files and the substring index complete. */
  lemma HistoryIsSound(fts: bool, txs: seq<Transaction>)
    requires ProperHistory(txs)
    ensures Sound(EMPTY, fts) && Sound(After(EMPTY, fts, txs), fts)
  {
  }
}
