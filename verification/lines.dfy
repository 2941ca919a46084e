/**
 * Line arithmetic. A text is a `string` with one character for each UTF-16 unit;
 * `NEWLINE` alone separates lines.
 */
module Lines {
  import opened Common

  const NEWLINE: char := '\n'

  /** The first newline at or after `from`. */
  function NextBreak(text: string, from: nat): (r: Option<nat>)
    ensures r.Some? ==> from <= r.value < |text| && text[r.value] == NEWLINE
    ensures forall k :: from <= k < (if r.Some? then r.value else |text|) ==> text[k] != NEWLINE
    decreases |text| - from
  {
    if from >= |text| then None
    else if text[from] == NEWLINE then Some(from)
    else NextBreak(text, from + 1)
  }

  /** Where the lines begin that begin after position `i`. */
  function StartsAfter(text: string, i: nat): (s: seq<nat>)
    decreases |text| - i
  {
    if i >= |text| then []
    else if text[i] == NEWLINE then [i + 1] + StartsAfter(text, i + 1)
    else StartsAfter(text, i + 1)
  }

  function StartsOf(text: string): (s: seq<nat>)
    ensures |s| > 0
  {
    [0] + StartsAfter(text, 0)
  }

  lemma {:induction false} SkipToBreak(text: string, i: nat, b: nat)
    requires i <= b <= |text| && forall k :: i <= k < b ==> text[k] != NEWLINE
    ensures StartsAfter(text, i) == StartsAfter(text, b)
    decreases b - i
  {
    if i < b { SkipToBreak(text, i + 1, b); }
  }

  /** What is left of the table from a position on begins with the next newline's. */
  lemma NextStart(text: string, from: nat)
    requires from <= |text|
    ensures var at := NextBreak(text, from);
            StartsAfter(text, from) ==
            if at.Some? then [at.value + 1] + StartsAfter(text, at.value + 1) else []
  {
    var at := NextBreak(text, from);
    SkipToBreak(text, from, if at.Some? then at.value else |text|);
  }

  /** The line table: the newlines are counted, then the table is filled. */
  method LineStarts(text: string) returns (starts: array<nat>)
    ensures starts[..] == StartsOf(text)
  {
    var count := CountLines(text);
    starts := new nat[count](_ => 0);
    var n, from := 1, 0;
    var at := NextBreak(text, 0);
    NextStart(text, 0);
    while at.Some?
      invariant from <= |text| && at == NextBreak(text, from)
      invariant 1 <= n && n + |StartsAfter(text, from)| == starts.Length
      invariant starts[..n] + StartsAfter(text, from) == StartsOf(text)
      decreases |text| - from
    {
      NextStart(text, from);
      starts[n] := at.value + 1;
      n, from := n + 1, at.value + 1;
      at := NextBreak(text, from);
    }
    NextStart(text, from);
    assert starts[..n] == starts[..];
  }

  method CountLines(text: string) returns (count: nat)
    ensures count == |StartsOf(text)|
  {
    count := 1;
    var from := 0;
    var at := NextBreak(text, 0);
    while at.Some?
      invariant from <= |text| && at == NextBreak(text, from)
      invariant count + |StartsAfter(text, from)| == |StartsOf(text)|
      decreases |text| - from
    {
      NextStart(text, from);
      count, from := count + 1, at.value + 1;
      at := NextBreak(text, from);
    }
    NextStart(text, from);
  }

  // ---- positions ----

  /** A place as an editor shows it: a text begins at line 1, column 1. */
  datatype Position = Position(line: int, column: int)

  /** Where an offset is, counted from the start of the text. */
  function At(text: string, offset: nat): Position
    requires offset <= |text|
  {
    if offset == 0 then Position(1, 1)
    else
      var before := At(text, offset - 1);
      if text[offset - 1] == NEWLINE then Position(before.line + 1, 1)
      else Position(before.line, before.column + 1)
  }

  predicate Increasing(starts: seq<nat>) {
    forall i, j :: 0 <= i < j < |starts| ==> starts[i] < starts[j]
  }

  /** A line table: it begins with 0 and goes up. */
  predicate Table(starts: seq<nat>) { |starts| > 0 && starts[0] == 0 && Increasing(starts) }

  /** The last line that begins at or before the offset. */
  predicate LineHolds(starts: seq<nat>, offset: nat, line: int) {
    1 <= line <= |starts| && starts[line - 1] <= offset && (line < |starts| ==> offset < starts[line])
  }

  /** The line that holds an offset, found from the end. */
  function LineAt(starts: seq<nat>, offset: nat): (line: int)
    requires Table(starts)
    ensures LineHolds(starts, offset, line)
    decreases |starts|
  {
    var last := |starts| - 1;
    if starts[last] <= offset then last + 1 else LineAt(starts[..last], offset)
  }

  /** The last entry of a line table at or below the offset, by halving. */
  method LineOf(starts: seq<nat>, offset: nat) returns (line: int)
    requires Table(starts)
    ensures line == LineAt(starts, offset)
  {
    var lo, hi := 0, |starts| - 1;
    while lo < hi
      invariant 0 <= lo <= hi < |starts| && starts[lo] <= offset
      invariant hi + 1 < |starts| ==> offset < starts[hi + 1]
    {
      var mid := (lo + hi + 1) / 2;
      if starts[mid] <= offset { lo := mid; } else { hi := mid - 1; }
    }
    line := lo + 1;
    LineIsUnique(starts, offset, line, LineAt(starts, offset));
  }

  method PositionOf(starts: seq<nat>, offset: nat) returns (p: Position)
    requires Table(starts)
    ensures LineHolds(starts, offset, p.line) && p.column == offset - starts[p.line - 1] + 1
  {
    var line := LineOf(starts, offset);
    p := Position(line, offset - starts[line - 1] + 1);
  }

  datatype Refusal = NoSuchLine | NoSuchColumn(width: int)

  /** From a place back to its offset; places outside every line are refused. */
  function OffsetOf(starts: seq<nat>, chars: nat, line: int, column: int): Result<nat, Refusal> {
    if line < 1 || line > |starts| then Failure(NoSuchLine)
    else
      var width := (if line < |starts| then starts[line] - 1 else chars) - starts[line - 1];
      if column < 1 || column - 1 > width then Failure(NoSuchColumn(width))
      else Success(starts[line - 1] + column - 1)
  }

  // ---- the table of a text ----

  lemma {:induction false} StartsAreBreaks(text: string, i: nat)
    requires i <= |text|
    ensures forall k :: k in StartsAfter(text, i) <==> i < k <= |text| && text[k - 1] == NEWLINE
    ensures Increasing(StartsAfter(text, i))
    decreases |text| - i
  {
    if i < |text| {
      StartsAreBreaks(text, i + 1);
      if text[i] == NEWLINE {
        var rest := StartsAfter(text, i + 1);
        assert StartsAfter(text, i) == [i + 1] + rest;
        forall k | 0 <= k < |rest| ensures i + 1 < rest[k] {
          assert rest[k] in rest;
        }
      }
    }
  }

  /** A line begins at 0 and after every newline, and nowhere else; the table lists these in order. */
  lemma TableOfText(text: string)
    ensures Table(StartsOf(text))
    ensures forall k :: k in StartsOf(text) <==> k == 0 || (0 < k <= |text| && text[k - 1] == NEWLINE)
  {
    StartsAreBreaks(text, 0);
    var rest := StartsAfter(text, 0);
    forall k | 0 <= k < |rest| ensures 0 < rest[k] {
      assert rest[k] in rest;
    }
  }

  lemma LineIsUnique(starts: seq<nat>, offset: nat, a: int, b: int)
    requires Table(starts) && LineHolds(starts, offset, a) && LineHolds(starts, offset, b)
    ensures a == b
  {
  }

  /** The position found in the table is the one counted in the text. */
  lemma {:induction false} PositionIsCounted(text: string, offset: nat)
    requires offset <= |text|
    ensures var p := At(text, offset);
            LineHolds(StartsOf(text), offset, p.line) &&
            p.column == offset - StartsOf(text)[p.line - 1] + 1
  {
    TableOfText(text);
    var starts := StartsOf(text);
    if offset == 0 {
      if |starts| > 1 { assert starts[1] in starts; }
    } else {
      PositionIsCounted(text, offset - 1);
      var line := At(text, offset - 1).line;
      if text[offset - 1] == NEWLINE {
        assert offset in starts;
        var k :| 0 <= k < |starts| && starts[k] == offset;
        assert k == line;
      } else if line < |starts| {
        assert starts[line] in starts;
      }
    }
  }

  /** Looking a text's offset up in its line table gives its line and column. */
  lemma PositionIsUnique(text: string, offset: nat, p: Position)
    requires offset <= |text|
    ensures (LineHolds(StartsOf(text), offset, p.line) && p.column == offset - StartsOf(text)[p.line - 1] + 1)
            <==> p == At(text, offset)
  {
    PositionIsCounted(text, offset);
    TableOfText(text);
    if LineHolds(StartsOf(text), offset, p.line) {
      LineIsUnique(StartsOf(text), offset, p.line, At(text, offset).line);
    }
  }

  /** The position of an offset leads back to it, for every offset up to the end of the text. */
  lemma OffsetReturns(text: string, offset: nat)
    requires offset <= |text|
    ensures var p := At(text, offset);
            OffsetOf(StartsOf(text), |text|, p.line, p.column) == Success(offset)
  {
    PositionIsCounted(text, offset);
  }

  /** The offset of an accepted position lies on its line, inside the text. */
  lemma AcceptedIsOnLine(text: string, line: int, column: int, offset: nat)
    requires OffsetOf(StartsOf(text), |text|, line, column) == Success(offset)
    ensures offset <= |text| && LineHolds(StartsOf(text), offset, line) &&
            column == offset - StartsOf(text)[line - 1] + 1
  {
    TableOfText(text);
    assert StartsOf(text)[line - 1] in StartsOf(text);
    if line < |StartsOf(text)| { assert StartsOf(text)[line] in StartsOf(text); }
  }

  /** An accepted line and column come back unchanged. */
  lemma PositionReturns(text: string, line: int, column: int, offset: nat)
    requires OffsetOf(StartsOf(text), |text|, line, column) == Success(offset)
    ensures offset <= |text| && At(text, offset) == Position(line, column)
  {
    AcceptedIsOnLine(text, line, column, offset);
    PositionIsUnique(text, offset, Position(line, column));
  }

  // ---- what is refused ----

  /** The lines of a text, without the newlines that end them. */
  function Split(text: string): (lines: seq<string>)
    ensures |lines| > 0
  {
    var b := NextBreak(text, 0);
    if b.None? then [text] else [text[..b.value]] + Split(text[b.value + 1..])
  }

  lemma {:induction false} StartsOfRest(text: string, cut: nat, i: nat)
    requires cut <= i <= |text|
    ensures |StartsAfter(text, i)| == |StartsAfter(text[cut..], i - cut)|
    ensures forall k :: 0 <= k < |StartsAfter(text, i)| ==>
              StartsAfter(text, i)[k] == StartsAfter(text[cut..], i - cut)[k] + cut
    decreases |text| - i
  {
    if i < |text| { StartsOfRest(text, cut, i + 1); }
  }

  /** How wide the table says a line is. */
  function Width(starts: seq<nat>, chars: nat, line: int): int
    requires 1 <= line <= |starts|
  {
    (if line < |starts| then starts[line] - 1 else chars) - starts[line - 1]
  }

  /** The table of a text with a newline, from the table of what follows it. */
  lemma TableOfRest(text: string, b: nat)
    requires NextBreak(text, 0) == Some(b)
    ensures var rest := StartsOf(text[b + 1..]);
            && |StartsOf(text)| == 1 + |rest|
            && (forall k :: 0 <= k < |rest| ==> StartsOf(text)[k + 1] == rest[k] + b + 1)
  {
    NextStart(text, 0);
    StartsOfRest(text, b + 1, b + 1);
  }

  lemma {:induction false} WidthIsLength(text: string, line: int)
    ensures |StartsOf(text)| == |Split(text)|
    ensures 1 <= line <= |Split(text)| ==> Width(StartsOf(text), |text|, line) == |Split(text)[line - 1]|
    decreases |text|
  {
    var b := NextBreak(text, 0);
    if b.None? {
      NextStart(text, 0);
    } else {
      var starts, rest := StartsOf(text), StartsOf(text[b.value + 1..]);
      TableOfRest(text, b.value);
      WidthIsLength(text[b.value + 1..], line - 1);
      if 2 <= line <= |starts| {
        assert starts[(line - 2) + 1] == rest[line - 2] + b.value + 1;
        assert line < |starts| ==> starts[(line - 1) + 1] == rest[line - 1] + b.value + 1;
      } else if line == 1 {
        assert starts[0 + 1] == rest[0] + b.value + 1;
      }
    }
  }

  /** A position is accepted exactly when it is in the text, or just behind one of its lines. */
  lemma AcceptedExactlyInside(text: string, line: int, column: int)
    ensures OffsetOf(StartsOf(text), |text|, line, column).Success? <==>
            1 <= line <= |Split(text)| && 1 <= column <= |Split(text)[line - 1]| + 1
  {
    WidthIsLength(text, line);
  }
}
