/** Cutting a byte stream, which arrives in chunks, into lines. */
module LineSplitters {
  import opened Common

  type Byte = b: int | 0 <= b < 256

  type Bytes = seq<Byte>

  const NEWLINE: Byte := 0x0a
  const CARRIAGE_RETURN: Byte := 0x0d

  // ---- the lines of a stream ----

  /** Where the first newline at or after `start` is. */
  function IndexOf(s: Bytes, start: nat): (r: Option<nat>)
    requires start <= |s|
    ensures r.Some? ==> start <= r.value < |s| && s[r.value] == NEWLINE && NEWLINE !in s[start..r.value]
    ensures r.None? ==> NEWLINE !in s[start..]
    decreases |s| - start
  {
    if start == |s| then None
    else if s[start] == NEWLINE then Some(start)
    else
      var r := IndexOf(s, start + 1);
      assert s[start..] == [s[start]] + s[start + 1..];
      assert r.Some? ==> s[start..r.value] == [s[start]] + s[start + 1..r.value];
      r
  }

  /** The line endings of a stream: what was before each newline, and what is after the last. */
  function Pieces(s: Bytes): (r: (seq<Bytes>, Bytes))
    decreases |s|
  {
    var at := IndexOf(s, 0);
    if at.None? then ([], s)
    else
      var rest := Pieces(s[at.value + 1..]);
      ([s[..at.value]] + rest.0, rest.1)
  }

  function Joined(pieces: seq<Bytes>): Bytes {
    if pieces == [] then [] else pieces[0] + [NEWLINE] + Joined(pieces[1..])
  }

  /** A line without the carriage return before its newline. */
  function Trimmed(line: Bytes): Bytes {
    if line != [] && line[|line| - 1] == CARRIAGE_RETURN then line[..|line| - 1] else line
  }

  function LinesOf(s: Bytes): seq<Bytes> {
    var pieces := Pieces(s).0;
    seq(|pieces|, i requires 0 <= i < |pieces| => Trimmed(pieces[i]))
  }

  function TailOf(s: Bytes): Bytes { Pieces(s).1 }

  lemma JoinedOfMore(line: Bytes, pieces: seq<Bytes>)
    ensures Joined([line] + pieces) == line + [NEWLINE] + Joined(pieces)
  {
    assert ([line] + pieces)[1..] == pieces;
  }

  lemma {:induction false} PiecesHaveNoBreak(s: Bytes)
    ensures NEWLINE !in Pieces(s).1 && forall p :: p in Pieces(s).0 ==> NEWLINE !in p
    decreases |s|
  {
    var at := IndexOf(s, 0);
    if at.Some? {
      PiecesHaveNoBreak(s[at.value + 1..]);
      assert s[0..at.value] == s[..at.value];
    } else {
      assert s[0..] == s;
    }
  }

  lemma FirstPiece(s: Bytes, at: nat)
    requires IndexOf(s, 0) == Some(at)
    ensures Pieces(s).0 == [s[..at]] + Pieces(s[at + 1..]).0 && Pieces(s).1 == Pieces(s[at + 1..]).1
    ensures s == s[..at] + [NEWLINE] + s[at + 1..]
  {
  }

  lemma JoinOneMore(line: Bytes, lines: seq<Bytes>, tail: Bytes)
    ensures Joined([line] + lines) + tail == line + [NEWLINE] + (Joined(lines) + tail)
  {
    JoinedOfMore(line, lines);
  }

  lemma {:induction false} PiecesRejoin(s: Bytes)
    ensures Joined(Pieces(s).0) + Pieces(s).1 == s
    decreases |s|
  {
    var at := IndexOf(s, 0);
    if at.Some? {
      FirstPiece(s, at.value);
      var rest := s[at.value + 1..];
      PiecesRejoin(rest);
      JoinOneMore(s[..at.value], Pieces(rest).0, Pieces(rest).1);
    }
  }

  /** The pieces and the tail are the stream, and none of them has a newline in it: they are its lines. */
  lemma PiecesAreTheStream(s: Bytes)
    ensures Joined(Pieces(s).0) + Pieces(s).1 == s
    ensures NEWLINE !in Pieces(s).1 && forall p :: p in Pieces(s).0 ==> NEWLINE !in p
  {
    PiecesRejoin(s);
    PiecesHaveNoBreak(s);
  }

  lemma {:induction false} BreakAt(s: Bytes, start: nat, at: nat)
    requires start <= at < |s| && s[at] == NEWLINE && forall k :: start <= k < at ==> s[k] != NEWLINE
    ensures IndexOf(s, start) == Some(at)
    decreases at - start
  {
    if start < at { BreakAt(s, start + 1, at); }
  }

  lemma FirstBreak(part: Bytes, rest: Bytes)
    requires NEWLINE !in part
    ensures IndexOf(part + [NEWLINE] + rest, 0) == Some(|part|)
  {
    BreakAt(part + [NEWLINE] + rest, 0, |part|);
  }

  lemma NoBreak(part: Bytes)
    requires NEWLINE !in part
    ensures Pieces(part) == ([], part)
  {
  }

  /** A newline after what is left ends one more line. */
  lemma {:induction false} PieceEnds(s: Bytes, part: Bytes)
    requires NEWLINE !in part
    ensures Pieces(s + part + [NEWLINE]) == (Pieces(s).0 + [Pieces(s).1 + part], [])
    decreases |s|
  {
    var at := IndexOf(s, 0);
    var whole := s + part + [NEWLINE];
    if at.None? {
      OnlyPieceEnds(s, part);
    } else {
      assert whole == s + (part + [NEWLINE]);
      BreakStays(s, part + [NEWLINE], at.value);
      var line, rest := s[..at.value], s[at.value + 1..];
      PieceEnds(rest, part);
      assert whole[at.value + 1..] == rest + part + [NEWLINE];
      assert whole[..at.value] == line;
      var pieces, last := Pieces(rest).0, [Pieces(rest).1 + part];
      assert [line] + (pieces + last) == ([line] + pieces) + last;
    }
  }

  lemma OnlyPieceEnds(s: Bytes, part: Bytes)
    requires IndexOf(s, 0).None? && NEWLINE !in part
    ensures Pieces(s + part + [NEWLINE]) == (Pieces(s).0 + [Pieces(s).1 + part], [])
  {
    assert s[0..] == s;
    var whole := s + part + [NEWLINE];
    FirstBreak(s + part, []);
    assert whole == s + part + [NEWLINE] + [];
    assert whole[|s + part| + 1..] == [] && whole[..|s + part|] == s + part;
    NoBreak([]);
    assert Pieces(whole).0 == [s + part] + [] == [] + [s + part];
  }

  /** Bytes without a newline are only added to what is left. */
  lemma {:induction false} TailGrows(s: Bytes, part: Bytes)
    requires NEWLINE !in part
    ensures Pieces(s + part) == (Pieces(s).0, Pieces(s).1 + part)
    decreases |s|
  {
    var at := IndexOf(s, 0);
    if at.None? {
      assert s[0..] == s;
      NoBreak(s + part);
    } else {
      BreakStays(s, part, at.value);
      TailGrows(s[at.value + 1..], part);
      assert (s + part)[at.value + 1..] == s[at.value + 1..] + part;
    }
  }

  lemma BreakStays(s: Bytes, more: Bytes, at: nat)
    requires IndexOf(s, 0) == Some(at)
    ensures IndexOf(s + more, 0) == Some(at) && (s + more)[..at] == s[..at]
  {
    assert s[0..at] == s[..at];
    FirstBreak(s[..at], s[at + 1..] + more);
    assert s[..at] + [NEWLINE] + (s[at + 1..] + more) == s + more;
  }

  lemma LineEnds(s: Bytes, part: Bytes)
    requires NEWLINE !in part
    ensures LinesOf(s + part + [NEWLINE]) == LinesOf(s) + [Trimmed(TailOf(s) + part)]
    ensures TailOf(s + part + [NEWLINE]) == []
  {
    PieceEnds(s, part);
  }

  lemma CutAt(before: Bytes, chunk: Bytes, start: nat, at: nat)
    requires start <= at < |chunk| && chunk[at] == NEWLINE
    ensures before + chunk[..start] + chunk[start..at] + [NEWLINE] == before + chunk[..at + 1]
  {
  }

  // ---- the splitter ----

  function Concat(parts: seq<Bytes>): Bytes {
    if parts == [] then [] else Concat(parts[..|parts| - 1]) + parts[|parts| - 1]
  }

  /** `lines` are those handed to the listener so far. */
  class LineSplitter {
    var pending: seq<Bytes>
    var pendingBytes: nat
    var lines: seq<Bytes>
    ghost var stream: Bytes

    ghost predicate Valid()
      reads this
    {
      lines == LinesOf(stream) && Concat(pending) == TailOf(stream) && pendingBytes == |Concat(pending)|
    }

    constructor ()
      ensures Valid() && stream == [] && lines == []
    {
      pending, pendingBytes, lines, stream := [], 0, [], [];
      new;
      NoBreak([]);
    }

    /** However the stream is cut, the lines are those of all that has come. */
    method Push(chunk: Bytes)
      requires Valid()
      modifies this
      ensures Valid() && stream == old(stream) + chunk
    {
      var start := 0;
      var at := IndexOf(chunk, 0);
      assert stream == old(stream) + chunk[..0];
      while at.Some?
        invariant start <= |chunk| && at == IndexOf(chunk, start)
        invariant Valid() && stream == old(stream) + chunk[..start]
        decreases |chunk| - start
      {
        EndLine(chunk[start..at.value]);
        CutAt(old(stream), chunk, start, at.value);
        start := at.value + 1;
        at := IndexOf(chunk, start);
      }
      if start < |chunk| {
        Keep(chunk[start..]);
      }
      assert old(stream) + chunk[..start] + chunk[start..] == old(stream) + chunk;
    }

    /** What is left of a chunk waits for its newline. */
    method Keep(rest: Bytes)
      requires Valid() && NEWLINE !in rest
      modifies this
      ensures Valid() && stream == old(stream) + rest
    {
      TailGrows(stream, rest);
      assert (pending + [rest])[..|pending|] == pending;
      pending := pending + [rest];
      pendingBytes := pendingBytes + |rest|;
      stream := stream + rest;
    }

    /** The newline after a part of a chunk was found. */
    method EndLine(part: Bytes)
      requires Valid() && NEWLINE !in part
      modifies this
      ensures Valid() && stream == old(stream) + part + [NEWLINE]
    {
      var line := TakePending(part);
      LineEnds(stream, part);
      if |line| > 0 && line[|line| - 1] == CARRIAGE_RETURN {
        line := line[..|line| - 1];
      }
      lines := lines + [line];
      stream := stream + part + [NEWLINE];
    }

    /** What was kept and the part are one line; nothing is kept any more. */
    method TakePending(part: Bytes) returns (line: Bytes)
      requires Valid()
      modifies `pending, `pendingBytes
      ensures line == TailOf(stream) + part && Concat(pending) == [] && pendingBytes == 0
    {
      line := part;
      if pendingBytes > 0 {
        assert (pending + [part])[..|pending|] == pending;
        line := Concat(pending + [part]);
        pending, pendingBytes := [], 0;
      } else {
        assert Concat(pending) == [];
      }
    }

    function Buffered(): (n: nat)
      requires Valid()
      reads this
      ensures n == |TailOf(stream)|
    {
      pendingBytes
    }
  }

  /** However a stream is cut into chunks: its lines come out, and what is left of it is kept. */
  method PushAll(chunks: seq<Bytes>) returns (x: LineSplitter)
    ensures fresh(x) && x.Valid() && x.stream == Concat(chunks)
    ensures x.lines == LinesOf(Concat(chunks)) && x.Buffered() == |TailOf(Concat(chunks))|
  {
    x := new LineSplitter();
    for k := 0 to |chunks|
      invariant x.Valid() && x.stream == Concat(chunks[..k])
    {
      assert chunks[..k + 1][..k] == chunks[..k];
      x.Push(chunks[k]);
    }
    assert chunks[..|chunks|] == chunks;
  }
}
