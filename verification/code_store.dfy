/**
 * The code index as tables: a row for each file, and rows for what was found in it.
 * Writers exclude one another, so that a write or a removal is one step.
 */
module CodeStore {
  import opened Common
  import opened Text
  import opened SyntaxWalk
  import Lines

  /** What a file was like when it was read. */
  datatype Stamp = Stamp(
    chars: nat, lang: string, parseErrors: int, size: nat, mtime: int, hash: string, degraded: nat)

  datatype ImportKind = StaticImport | TypeImport | RequireImport | DynamicImport

  datatype ImportRow = ImportRow(kind: ImportKind, source: string, names: string, start: nat)

  datatype ExportKind = Named | Default | Reexport | Star | TypeExport | CommonJs | Assign

  datatype ExportRow = ExportRow(kind: ExportKind, name: string, source: Option<string>, start: nat)

  datatype FileRecord = FileRecord(
    path: string, stamp: Stamp, starts: seq<nat>, rows: Rows, imports: seq<ImportRow>, exports: seq<ExportRow>) {
    predicate Valid() { Lines.Table(starts) }
  }

  datatype FileRow = FileRow(path: string, stamp: Stamp, starts: seq<nat>)

  /** Rows as stored: ids in them are ids of this store. */
  datatype StoredFunction = StoredFunction(file: int, row: FunctionRow, firstLine: int, lastLine: int)
  datatype StoredString = StoredString(file: int, row: StringRow)
  datatype StoredCall = StoredCall(file: int, row: CallRow, unresolved: bool)

  /** A row of a file, for the tables whose rows have no id and refer to nothing. */
  datatype Of<T> = Of(file: int, row: T)

  datatype Outline = Outline(classes: seq<Of<ClassRow>>, imports: seq<Of<ImportRow>>, exports: seq<Of<ExportRow>>)

  /** `lit` is the substring index: the (row id, value) pairs it was told of. */
  datatype Tables = Tables(
    files: map<int, FileRow>,
    functions: map<int, StoredFunction>,
    strings: map<int, StoredString>,
    calls: seq<StoredCall>,
    outline: Outline,
    lit: set<(int, string)>,
    nextFn: int,
    generation: int)

  // ---- row ids ----

  lemma {:induction false} HasTop(keys: set<int>, x: int)
    requires x in keys
    ensures exists m :: m in keys && forall k :: k in keys ==> k <= m
  {
    var rest := keys - {x};
    if y :| y in rest {
      HasTop(rest, y);
      var m :| m in rest && forall k :: k in rest ==> k <= m;
      var top := if m < x then x else m;
      assert top in keys;
      assert forall k :: k in keys ==> k == x || k in rest;
    } else {
      assert forall k :: k in keys ==> k == x || k in rest;
    }
  }

  /** The row id that SQLite gives a new row: one more than the largest. */
  function NewId(keys: set<int>): (id: int)
    ensures id !in keys && forall k :: k in keys ==> k < id
    ensures (forall k :: k in keys ==> k > 0) ==> id > 0
  {
    if exists x :: x in keys then
      var x :| x in keys;
      HasTop(keys, x);
      var m :| m in keys && forall k :: k in keys ==> k <= m;
      m + 1
    else 1
  }

  // ---- removing ----

  /** The pairs that the substring index is told to forget with a file. */
  predicate Forgotten(strings: map<int, StoredString>, file: int, p: (int, string)) {
    p.0 in strings && strings[p.0].file == file && strings[p.0].row.value == p.1 && SqlLength(p.1) >= 3
  }

  function CallsWithout(calls: seq<StoredCall>, file: int): (r: seq<StoredCall>)
    ensures forall c :: c in r <==> c in calls && c.file != file
  {
    if calls == [] then []
    else
      var last := calls[|calls| - 1];
      CallsWithout(calls[..|calls| - 1], file) + if last.file == file then [] else [last]
  }

  function RowsWithout<T(!new)>(rows: seq<Of<T>>, file: int): (r: seq<Of<T>>)
    ensures forall x :: x in r <==> x in rows && x.file != file
  {
    if rows == [] then []
    else
      var last := rows[|rows| - 1];
      RowsWithout(rows[..|rows| - 1], file) + if last.file == file then [] else [last]
  }

  function OutlineWithout(o: Outline, file: int): Outline {
    Outline(RowsWithout(o.classes, file), RowsWithout(o.imports, file), RowsWithout(o.exports, file))
  }

  function WithoutFile(db: Tables, fts: bool, file: int): Tables {
    Tables(db.files - {file},
           map f | f in db.functions && db.functions[f].file != file :: db.functions[f],
           map s | s in db.strings && db.strings[s].file != file :: db.strings[s],
           CallsWithout(db.calls, file),
           OutlineWithout(db.outline, file),
           if fts then set p | p in db.lit && !Forgotten(db.strings, file, p) else db.lit,
           db.nextFn, db.generation)
  }

  /** At most one file has a path. */
  predicate OnePerPath(files: map<int, FileRow>) {
    forall a, b :: a in files && b in files && files[a].path == files[b].path ==> a == b
  }

  function IdOf(files: map<int, FileRow>, path: string): (r: Option<int>)
    requires OnePerPath(files)
    ensures r.Some? ==> r.value in files && files[r.value].path == path
    ensures r.None? ==> forall a :: a in files ==> files[a].path != path
  {
    if a :| a in files && files[a].path == path then
      var a :| a in files && files[a].path == path;
      Some(a)
    else None
  }

  function WithoutPath(db: Tables, fts: bool, path: string): Tables
    requires OnePerPath(db.files)
  {
    var id := IdOf(db.files, path);
    if id.Some? then WithoutFile(db, fts, id.value) else db
  }

  // ---- writing ----

  function Remap(base: int, local: Option<int>): Option<int> {
    if local.Some? then Some(base + local.value) else None
  }

  /** A function as it is stored; a qualified name that says nothing more is dropped. */
  function FunctionStored(file: int, base: int, starts: seq<nat>, f: FunctionRow): StoredFunction
    requires Lines.Table(starts)
  {
    StoredFunction(file,
                   f.(id := base + f.id, parentId := Remap(base, f.parentId),
                   qname := if f.qname != f.name then f.qname else None),
                   Lines.LineAt(starts, f.start), Lines.LineAt(starts, f.end))
  }

  function WithFunctions(functions: map<int, StoredFunction>, file: int, base: int, starts: seq<nat>, rows: seq<FunctionRow>)
    : map<int, StoredFunction>
    requires Lines.Table(starts)
  {
    if rows == [] then functions
    else
      var last := rows[|rows| - 1];
      WithFunctions(functions, file, base, starts, rows[..|rows| - 1])
        [base + last.id := FunctionStored(file, base, starts, last)]
  }

  /** The literals and the substring index. */
  datatype Literals = Literals(strings: map<int, StoredString>, lit: set<(int, string)>)

  function WithString(held: Literals, fts: bool, file: int, base: int, s: StringRow): Literals {
    var id := NewId(held.strings.Keys);
    Literals(held.strings[id := StoredString(file, s.(fnId := Remap(base, s.fnId)))],
             if fts && Units(s.value) >= 3 then held.lit + {(id, s.value)} else held.lit)
  }

  function WithStrings(held: Literals, fts: bool, file: int, base: int, rows: seq<StringRow>): Literals {
    if rows == [] then held
    else WithString(WithStrings(held, fts, file, base, rows[..|rows| - 1]), fts, file, base, rows[|rows| - 1])
  }

  function CallStored(file: int, base: int, c: CallRow): StoredCall {
    StoredCall(file, c.(fnId := Remap(base, c.fnId)),
               c.callee == "?" || (|c.callee| >= 2 && c.callee[|c.callee| - 2..] == "[]"))
  }

  function CallsStored(file: int, base: int, rows: seq<CallRow>): (r: seq<StoredCall>)
    ensures |r| == |rows|
    ensures forall i :: 0 <= i < |rows| ==> r[i] == CallStored(file, base, rows[i])
  {
    if rows == [] then []
    else CallsStored(file, base, rows[..|rows| - 1]) + [CallStored(file, base, rows[|rows| - 1])]
  }

  function OfFile<T>(file: int, rows: seq<T>): seq<Of<T>> { seq(|rows|, i requires 0 <= i < |rows| => Of(file, rows[i])) }

  function OutlineWith(o: Outline, file: int, record: FileRecord): Outline {
    Outline(o.classes + OfFile(file, record.rows.classes),
            o.imports + OfFile(file, record.imports),
            o.exports + OfFile(file, record.exports))
  }

  /** The same bytes, read the same way, are stored already. */
  predicate Held(db: Tables, record: FileRecord)
    requires OnePerPath(db.files)
  {
    var id := IdOf(db.files, record.path);
    id.Some? && db.files[id.value].stamp == record.stamp
  }

  /** A file and its rows, under ids that follow those handed out so far. */
  function WithRows(db: Tables, fts: bool, record: FileRecord): Tables
    requires record.Valid()
  {
    var id, base, rows := NewId(db.files.Keys), db.nextFn, record.rows;
    var literals := WithStrings(Literals(db.strings, db.lit), fts, id, base, rows.strings);
    Tables(db.files[id := FileRow(record.path, record.stamp, record.starts)],
           WithFunctions(db.functions, id, base, record.starts, rows.functions),
           literals.strings,
           db.calls + CallsStored(id, base, rows.calls),
           OutlineWith(db.outline, id, record),
           literals.lit,
           base + |rows.functions|,
           db.generation)
  }

  function Written(db: Tables, fts: bool, record: FileRecord): Tables
    requires OnePerPath(db.files) && record.Valid()
  {
    if Held(db, record) then db else WithRows(WithoutPath(db, fts, record.path), fts, record)
  }

  /** A kept file gets the size and the time it has now; nobody else's row changes. */
  function Touched(db: Tables, file: int, size: nat, mtime: int): Tables {
    if file !in db.files then db
    else db.(files := db.files[file := db.files[file].(stamp := db.files[file].stamp.(size := size, mtime := mtime))])
  }

  // ---- the store ----

  class Store {
    var files: map<int, FileRow>
    var functions: map<int, StoredFunction>
    var strings: map<int, StoredString>
    var calls: seq<StoredCall>
    var outline: Outline
    var lit: set<(int, string)>
    var nextFn: int
    var generation: int
    const fts: bool

    constructor (fts: bool)
      ensures this.fts == fts && View() == Tables(map[], map[], map[], [], Outline([], [], []), {}, 1, 0)
    {
      files, functions, strings, calls, lit, nextFn, generation := map[], map[], map[], [], {}, 1, 0;
      outline := Outline([], [], []);
      this.fts := fts;
    }

    function View(): Tables
      reads this
    {
      Tables(files, functions, strings, calls, outline, lit, nextFn, generation)
    }

    /** The substring index finds a pair by its row, so it is asked to forget while the rows are there. */
    method RemoveFile(file: int)
      modifies this
      ensures View() == WithoutFile(old(View()), fts, file)
    {
      if fts {
        lit := set p | p in lit && !Forgotten(strings, file, p);
      }
      strings := map s | s in strings && strings[s].file != file :: strings[s];
      calls := CallsWithout(calls, file);
      functions := map f | f in functions && functions[f].file != file :: functions[f];
      outline := OutlineWithout(outline, file);
      files := files - {file};
    }

    method RemoveByPath(path: string) returns (found: bool)
      requires OnePerPath(files)
      modifies this
      ensures found <==> IdOf(old(files), path).Some?
      ensures View() == WithoutPath(old(View()), fts, path)
    {
      var row := IdOf(files, path);
      found := row.Some?;
      if found {
        RemoveFile(row.value);
      }
    }

    method TouchFile(file: int, size: nat, mtime: int)
      modifies `files
      ensures View() == Touched(old(View()), file, size, mtime)
    {
      if file in files {
        var row := files[file];
        files := files[file := row.(stamp := row.stamp.(size := size, mtime := mtime))];
      }
    }

    method BumpGeneration() returns (next: int)
      modifies `generation
      ensures next == generation == old(generation) + 1
    {
      next := generation + 1;
      generation := next;
    }

    /** Replace what is stored under a path, unless its stamp is that of the new record. */
    method WriteFile(record: FileRecord)
      requires OnePerPath(files) && record.Valid()
      modifies this
      ensures View() == Written(old(View()), fts, record)
    {
      var held := IdOf(files, record.path);
      if held.Some? && files[held.value].stamp == record.stamp {
        return;
      }
      var _ := RemoveByPath(record.path);
      InsertRows(record);
    }

    method InsertRows(record: FileRecord)
      requires record.Valid()
      modifies this
      ensures View() == WithRows(old(View()), fts, record)
    {
      var id, base := NewId(files.Keys), nextFn;
      files := files[id := FileRow(record.path, record.stamp, record.starts)];
      InsertFunctions(id, base, record.starts, record.rows.functions);
      InsertStrings(id, base, record.rows.strings);
      InsertCalls(id, base, record.rows.calls);
      outline := OutlineWith(outline, id, record);
      nextFn := base + |record.rows.functions|;
    }

    method InsertFunctions(file: int, base: int, starts: seq<nat>, rows: seq<FunctionRow>)
      requires Lines.Table(starts)
      modifies `functions
      ensures functions == WithFunctions(old(functions), file, base, starts, rows)
    {
      var k := 0;
      while k < |rows|
        invariant k <= |rows| && functions == WithFunctions(old(functions), file, base, starts, rows[..k])
      {
        var f := rows[k];
        var first := Lines.LineOf(starts, f.start);
        var last := Lines.LineOf(starts, f.end);
        assert rows[..k + 1][..k] == rows[..k];
        functions := functions[base + f.id :=
          StoredFunction(file, f.(id := base + f.id, parentId := Remap(base, f.parentId),
                         qname := if f.qname != f.name then f.qname else None), first, last)];
        k := k + 1;
      }
      assert rows[..k] == rows;
    }

    method InsertStrings(file: int, base: int, rows: seq<StringRow>)
      modifies `strings, `lit
      ensures Literals(strings, lit) == WithStrings(Literals(old(strings), old(lit)), fts, file, base, rows)
    {
      var k := 0;
      while k < |rows|
        invariant k <= |rows|
        invariant Literals(strings, lit) == WithStrings(Literals(old(strings), old(lit)), fts, file, base, rows[..k])
      {
        var s := rows[k];
        var id := NewId(strings.Keys);
        assert rows[..k + 1][..k] == rows[..k];
        strings := strings[id := StoredString(file, s.(fnId := Remap(base, s.fnId)))];
        if fts && Units(s.value) >= 3 {
          lit := lit + {(id, s.value)};
        }
        k := k + 1;
      }
      assert rows[..k] == rows;
    }

    method InsertCalls(file: int, base: int, rows: seq<CallRow>)
      modifies `calls
      ensures calls == old(calls) + CallsStored(file, base, rows)
    {
      var k := 0;
      while k < |rows|
        invariant k <= |rows| && calls == old(calls) + CallsStored(file, base, rows[..k])
      {
        assert rows[..k + 1][..k] == rows[..k];
        calls := calls + [CallStored(file, base, rows[k])];
        k := k + 1;
      }
      assert rows[..k] == rows;
    }
  }
}
