/**
 * The scanner for when parsing fails: it goes through a text once, token by token,
 * and gives its named functions and its literals. A text has one character for each
 * UTF-16 unit.
 */
module TolerantScan {
  import opened Common
  import opened SyntaxTree
  import opened SyntaxWalk
  import opened LexicalScope

  // ---- characters ----

  predicate IdentStart(c: char) {
    'A' <= c <= 'Z' || 'a' <= c <= 'z' || c == '_' || c == '$' || c as int >= 0x80
  }

  predicate IdentPart(c: char) { IdentStart(c) || '0' <= c <= '9' }

  predicate Space(c: char) {
    var u := c as int;
    9 <= u <= 13 || u == 0x20 || u == 0xA0 || u == 0x1680 || 0x2000 <= u <= 0x200A || u == 0x2028 || u == 0x2029 ||
    u == 0x202F || u == 0x205F || u == 0x3000 || u == 0xFEFF
  }

  /** The character there, if the text goes that far. */
  predicate Is(text: string, i: nat, c: char) { i < |text| && text[i] == c }

  // ---- what is found ----

  /** A function that was seen; `parent` is the function open around it, or -1. */
  datatype Spec = Spec(name: string, start: nat, end: nat, parent: int)

  datatype Pending = Pending(start: nat, end: nat, kind: LiteralKind, raw: string, spec: int)

  /**
   * Two stacks: `braces` has for each open brace the index of the function whose body
   * it is, -1 for any other, and `open` has the functions among them. The next brace
   * that fits belongs to `waiting`, or to no function when that is -1.
   */
  datatype Scan = Scan(
    specs: seq<Spec>, pending: seq<Pending>, braces: seq<int>, open: seq<int>, waiting: int, parens: nat, waitingParens: nat)

  const START := Scan([], [], [], [], -1, 0, 0)

  function Current(open: seq<int>): int { if open == [] then -1 else open[|open| - 1] }

  // ---- what every step keeps ----

  function Functions(braces: seq<int>): (r: seq<int>)
    ensures forall k :: k in r <==> k in braces && k >= 0
  {
    if braces == [] then []
    else
      var last := braces[|braces| - 1];
      Functions(braces[..|braces| - 1]) + if last >= 0 then [last] else []
  }

  const ANCHOR := "function"

  predicate At(text: string, start: nat, word: string) {
    start + |word| <= |text| && text[start..start + |word|] == word
  }

  /** A function begins before the cursor, reaches further, and lies in the one around it. */
  predicate SpecFits(text: string, i: nat, specs: seq<Spec>, k: nat)
    requires k < |specs|
  {
    var f := specs[k];
    && f.name != "" && At(text, f.start, ANCHOR)
    && f.start < i && f.start < f.end <= |text|
    && -1 <= f.parent < k
    && (f.parent >= 0 ==> Inside(specs, f.parent, f.start))
  }

  predicate Inside(specs: seq<Spec>, k: int, at: nat) {
    0 <= k < |specs| && specs[k].start < at < specs[k].end
  }

  /** The backslashes that the text from `from` to `to` ends with. */
  function Backslashes(text: string, from: nat, to: nat): nat
    requires to <= |text|
  {
    if to <= from || text[to - 1] != '\\' then 0 else 1 + Backslashes(text, from, to - 1)
  }

  /**
   * A literal in quotes ends in the text. A template that the text breaks off ends one
   * behind it exactly when the last backslash there escapes what would come next.
   */
  predicate EndsAsRead(text: string, start: nat, end: nat, kind: LiteralKind) {
    && (kind.StringLiteral? ==> end <= |text|)
    && (kind.TemplateLiteral? && end >= |text| ==>
          (end == |text| + 1 <==> Backslashes(text, start, |text|) % 2 == 1))
  }

  predicate PendingFits(text: string, i: nat, specs: seq<Spec>, p: Pending) {
    && p.start < |text| && p.start < i && p.start < p.end <= |text| + 1
    && EndsAsRead(text, p.start, p.end, p.kind)
    && -1 <= p.spec < |specs|
    && (p.spec >= 0 ==> Inside(specs, p.spec, p.start))
  }

  ghost predicate SpecsFit(text: string, i: nat, specs: seq<Spec>) {
    && (forall k: nat :: k < |specs| ==> SpecFits(text, i, specs, k))
    && (forall k: nat, l: nat :: k < l < |specs| ==> specs[k].start < specs[l].start)
  }

  ghost predicate AllPendingFit(text: string, i: nat, specs: seq<Spec>, pending: seq<Pending>) {
    forall k :: 0 <= k < |pending| ==> PendingFits(text, i, specs, pending[k])
  }

  /** Open functions are nested as they were seen, and reach to the end of the text so far. */
  ghost predicate OpenFit(text: string, s: Scan) {
    && s.open == Functions(s.braces)
    && (forall a, b :: 0 <= a < b < |s.open| ==> s.open[a] < s.open[b])
    && (forall a :: 0 <= a < |s.open| ==>
          0 <= s.open[a] < |s.specs| && s.specs[s.open[a]].end == |text| && (s.waiting >= 0 ==> s.open[a] < s.waiting))
    && -1 <= s.waiting < |s.specs|
    && (s.waiting >= 0 ==> s.specs[s.waiting].end == |text|)
  }

  ghost predicate Inv(text: string, i: nat, s: Scan) {
    SpecsFit(text, i, s.specs) && AllPendingFit(text, i, s.specs, s.pending) && OpenFit(text, s)
  }

  lemma CursorMoves(text: string, i: nat, j: nat, s: Scan)
    requires Inv(text, i, s) && i <= j
    ensures Inv(text, j, s)
  {
    forall k: nat | k < |s.specs| ensures SpecFits(text, j, s.specs, k) {
      assert SpecFits(text, i, s.specs, k);
    }
    forall k | 0 <= k < |s.pending| ensures PendingFits(text, j, s.specs, s.pending[k]) {
      assert PendingFits(text, i, s.specs, s.pending[k]);
    }
  }

  // ---- steps on the stacks ----

  function OpenBrace(s: Scan): Scan {
    if s.waiting >= 0 && s.parens == s.waitingParens then
      s.(braces := s.braces + [s.waiting], open := s.open + [s.waiting], waiting := -1)
    else s.(braces := s.braces + [-1])
  }

  lemma OpenBraceKeeps(text: string, i: nat, s: Scan)
    requires Inv(text, i, s)
    ensures Inv(text, i, OpenBrace(s))
  {
    var t := OpenBrace(s);
    assert t.braces[..|t.braces| - 1] == s.braces;
  }

  function CloseBrace(s: Scan, i: nat): Scan {
    if s.braces == [] then s
    else
      var top := s.braces[|s.braces| - 1];
      var popped := s.(braces := s.braces[..|s.braces| - 1]);
      if 0 <= top < |s.specs| then
        popped.(specs := s.specs[top := s.specs[top].(end := i + 1)],
                open := if s.open == [] then [] else s.open[..|s.open| - 1])
      else popped
  }

  /** An open function that ends now still holds what lies in it: that lies before the cursor. */
  lemma EndingHolds(text: string, i: nat, specs: seq<Spec>, top: nat, k: nat)
    requires SpecsFit(text, i, specs) && top < |specs| && k < |specs| && i < |text|
    ensures SpecFits(text, i + 1, specs[top := specs[top].(end := i + 1)], k)
  {
    assert SpecFits(text, i, specs, k);
    assert SpecFits(text, i, specs, top);
  }

  lemma EndingHoldsLiteral(text: string, i: nat, specs: seq<Spec>, top: nat, p: Pending)
    requires top < |specs| && i < |text| && PendingFits(text, i, specs, p)
    ensures PendingFits(text, i + 1, specs[top := specs[top].(end := i + 1)], p)
  {
  }

  lemma FunctionEnds(text: string, i: nat, s: Scan, top: nat)
    requires SpecsFit(text, i, s.specs) && AllPendingFit(text, i, s.specs, s.pending) && top < |s.specs| && i < |text|
    ensures var specs := s.specs[top := s.specs[top].(end := i + 1)];
            SpecsFit(text, i + 1, specs) && AllPendingFit(text, i + 1, specs, s.pending)
  {
    var j, specs := i + 1, s.specs[top := s.specs[top].(end := i + 1)];
    forall k: nat | k < |specs| ensures SpecFits(text, j, specs, k) {
      EndingHolds(text, i, s.specs, top, k);
    }
    forall k | 0 <= k < |s.pending| ensures PendingFits(text, j, specs, s.pending[k]) {
      EndingHoldsLiteral(text, i, s.specs, top, s.pending[k]);
    }
  }

  /** The function that ends is the last one open. */
  lemma CloseBraceKeeps(text: string, i: nat, s: Scan)
    requires Inv(text, i, s) && i < |text|
    ensures Inv(text, i + 1, CloseBrace(s, i))
  {
    CursorMoves(text, i, i + 1, s);
    if s.braces != [] {
      var top := s.braces[|s.braces| - 1];
      if top >= 0 {
        assert s.open[|s.open| - 1] == top;
        FunctionEnds(text, i, s, top);
        assert s.waiting >= 0 ==> s.open[|s.open| - 1] < s.waiting;
      }
    }
  }

  /** A function enters the table; the brace of its body is yet to come. */
  function SeeFunction(s: Scan, name: string, start: nat, n: nat): Scan {
    s.(specs := s.specs + [Spec(name, start, n, Current(s.open))], waiting := |s.specs|, waitingParens := s.parens)
  }

  lemma SeeFunctionKeeps(text: string, i: nat, j: nat, s: Scan, name: string)
    requires Inv(text, i, s) && i < j && At(text, i, ANCHOR) && name != ""
    ensures Inv(text, j, SeeFunction(s, name, i, |text|))
  {
    var t := SeeFunction(s, name, i, |text|);
    if s.open != [] { assert SpecFits(text, i, s.specs, s.open[|s.open| - 1]); }
    forall k: nat | k < |t.specs| ensures SpecFits(text, j, t.specs, k) {
      if k < |s.specs| { assert SpecFits(text, i, s.specs, k); }
    }
    forall k: nat, l: nat | k < l < |t.specs| ensures t.specs[k].start < t.specs[l].start {
      assert SpecFits(text, i, s.specs, k);
    }
    forall k | 0 <= k < |t.pending| ensures PendingFits(text, j, t.specs, t.pending[k]) {
      assert PendingFits(text, i, s.specs, s.pending[k]);
    }
  }

  function FindLiteral(s: Scan, start: nat, end: nat, kind: LiteralKind, raw: string): Scan {
    s.(pending := s.pending + [Pending(start, end, kind, raw, Current(s.open))])
  }

  /** A literal lies in the function that is open where it is found. */
  lemma FindLiteralKeeps(text: string, i: nat, j: nat, s: Scan, start: nat, end: nat, kind: LiteralKind, raw: string)
    requires Inv(text, i, s) && i <= start < j && start < |text| && start < end <= |text| + 1
    requires EndsAsRead(text, start, end, kind)
    ensures Inv(text, j, FindLiteral(s, start, end, kind, raw))
  {
    var t := FindLiteral(s, start, end, kind, raw);
    CursorMoves(text, i, j, s);
    if s.open != [] { assert SpecFits(text, i, s.specs, s.open[|s.open| - 1]); }
    forall k | 0 <= k < |t.pending| ensures PendingFits(text, j, t.specs, t.pending[k]) {
      if k < |s.pending| { assert PendingFits(text, j, s.specs, s.pending[k]); }
    }
  }

  // ---- reading one token ----

  function LineEnd(text: string, j: nat): (r: nat)
    ensures j <= |text| ==> j <= r <= |text|
    decreases |text| - j
  {
    if j >= |text| || text[j] == '\n' then j else LineEnd(text, j + 1)
  }

  method SkipLine(text: string, i: nat) returns (j: nat)
    requires i < |text|
    ensures j == LineEnd(text, i)
  {
    j := i;
    while j < |text| && text[j] != '\n'
      invariant i <= j <= |text| && LineEnd(text, i) == LineEnd(text, j)
    {
      j := j + 1;
    }
  }

  /** The first place at or after `from` where the comment is closed. */
  function CloseOf(text: string, from: nat): (r: Option<nat>)
    ensures r.Some? ==> from <= r.value && r.value + 2 <= |text| && text[r.value] == '*' && text[r.value + 1] == '/'
    ensures forall k :: from <= k < (if r.Some? then r.value else |text| - 1) ==> text[k] != '*' || text[k + 1] != '/'
    decreases |text| - from
  {
    if from + 2 > |text| then None
    else if text[from] == '*' && text[from + 1] == '/' then Some(from)
    else CloseOf(text, from + 1)
  }

  function CommentEnd(text: string, i: nat): nat {
    var close := CloseOf(text, i + 2);
    if close.None? then |text| else close.value + 2
  }

  /** The quote that ends a string, or where its line or the text ends without one. */
  function QuoteEnd(text: string, j: nat, quote: char): (r: nat)
    ensures j <= |text| + 1 ==> j <= r <= |text| + 1
    decreases |text| + 1 - j
  {
    if j >= |text| || text[j] == quote || text[j] == '\n' then j
    else QuoteEnd(text, j + if text[j] == '\\' then 2 else 1, quote)
  }

  method ReadQuoted(text: string, i: nat) returns (j: nat)
    requires i < |text|
    ensures j == QuoteEnd(text, i + 1, text[i])
  {
    j := i + 1;
    while j < |text| && text[j] != text[i] && text[j] != '\n'
      invariant i < j <= |text| + 1 && QuoteEnd(text, i + 1, text[i]) == QuoteEnd(text, j, text[i])
      decreases |text| + 1 - j
    {
      j := if text[j] == '\\' then j + 2 else j + 1;
    }
  }

  function Quoted(text: string, i: nat, s: Scan): (nat, Scan)
    requires i < |text|
  {
    var j := QuoteEnd(text, i + 1, text[i]);
    if Is(text, j, text[i]) then (j + 1, FindLiteral(s, i, j + 1, StringLiteral, text[i + 1..j])) else (j, s)
  }

  /** Past the `}` of an interpolation, counting braces. */
  function InterpolationEnd(text: string, j: nat, depth: nat): (r: nat)
    ensures j <= |text| ==> j <= r <= |text|
    decreases |text| - j
  {
    if j >= |text| || depth == 0 then j
    else
      InterpolationEnd(text, j + 1,
                       if text[j] == '{' then depth + 1 else if text[j] == '}' then depth - 1 else depth)
  }

  method SkipInterpolation(text: string, i: nat) returns (j: nat)
    requires i <= |text|
    ensures j == InterpolationEnd(text, i, 1)
  {
    j := i;
    var depth := 1;
    while j < |text| && depth > 0
      invariant i <= j <= |text| && depth >= 0
      invariant InterpolationEnd(text, i, 1) == InterpolationEnd(text, j, depth)
    {
      if text[j] == '{' { depth := depth + 1; }
      else if text[j] == '}' { depth := depth - 1; }
      j := j + 1;
    }
  }

  /** The part of a text between two places, the second of which may be just behind its end. */
  function Cut(text: string, from: nat, to: nat): string {
    if from >= |text| || from >= to then "" else if to <= |text| then text[from..to] else text[from..]
  }

  /** What is between two interpolations, unless there is nothing. */
  function Chunk(text: string, chunk: nat, j: nat, s: Scan): Scan {
    if j > chunk then FindLiteral(s, chunk, j, TemplateLiteral, Cut(text, chunk, j)) else s
  }

  /** A template from `j` on; `chunk` is where the piece began that `j` is in. */
  function Templated(text: string, j: nat, chunk: nat, s: Scan): (nat, Scan)
    decreases |text| + 1 - j
  {
    if j >= |text| || text[j] == '`' then (j + 1, Chunk(text, chunk, j, s))
    else if text[j] == '\\' then Templated(text, j + 2, chunk, s)
    else if text[j] == '$' && Is(text, j + 1, '{') then
      var after := InterpolationEnd(text, j + 2, 1);
      Templated(text, after, after, Chunk(text, chunk, j, s))
    else Templated(text, j + 1, chunk, s)
  }

  /** A template: each piece of text between its interpolations is a literal. */
  method ReadTemplate(text: string, i: nat, s: Scan) returns (next: nat, t: Scan)
    requires i < |text|
    ensures (next, t) == Templated(text, i + 1, i + 1, s)
  {
    t := s;
    var j: nat := i + 1;
    var chunk: nat := j;
    while j < |text| && text[j] != '`'
      invariant j <= |text| + 1
      invariant Templated(text, i + 1, i + 1, s) == Templated(text, j, chunk, t)
      decreases |text| + 1 - j
    {
      if text[j] == '\\' {
        j := j + 2;
      } else if text[j] == '$' && Is(text, j + 1, '{') {
        if j > chunk {
          t := FindLiteral(t, chunk, j, TemplateLiteral, Cut(text, chunk, j));
        }
        j := SkipInterpolation(text, j + 2);
        chunk := j;
      } else {
        j := j + 1;
      }
    }
    if j > chunk {
      t := FindLiteral(t, chunk, j, TemplateLiteral, Cut(text, chunk, j));
    }
    next := j + 1;
  }

  function WhileEnd(text: string, i: nat, part: char -> bool): (j: nat)
    requires i <= |text|
    ensures i <= j <= |text| && (forall k :: i <= k < j ==> part(text[k])) && (j < |text| ==> !part(text[j]))
    decreases |text| - i
  {
    if i < |text| && part(text[i]) then WhileEnd(text, i + 1, part) else i
  }

  method ReadWhile(text: string, i: nat, part: char -> bool) returns (j: nat)
    requires i <= |text|
    ensures j == WhileEnd(text, i, part)
  {
    j := i;
    while j < |text| && part(text[j])
      invariant i <= j <= |text| && WhileEnd(text, i, part) == WhileEnd(text, j, part)
    {
      j := j + 1;
    }
  }

  /** Past the spaces after the keyword, and past the star of a generator. */
  function NameStart(text: string, j: nat): (k: nat)
    requires j <= |text|
    ensures j <= k <= |text|
  {
    var k := WhileEnd(text, j, Space);
    if Is(text, k, '*') then WhileEnd(text, k + 1, Space) else k
  }

  method ReadNameStart(text: string, j: nat) returns (k: nat)
    requires j <= |text|
    ensures k == NameStart(text, j)
  {
    k := ReadWhile(text, j, Space);
    if k < |text| && text[k] == '*' {
      k := ReadWhile(text, k + 1, Space);
    }
  }

  /** The name of the function whose keyword ends at `j`, when a name and a parenthesis follow. */
  function NameAfter(text: string, j: nat): (name: Option<string>)
    requires j <= |text|
    ensures name.Some? ==> name.value != "" && forall c :: c in name.value ==> IdentPart(c)
  {
    var from := NameStart(text, j);
    var to := WhileEnd(text, from, IdentPart);
    if from < to && Is(text, WhileEnd(text, to, Space), '(') then Some(text[from..to]) else None
  }

  method ReadName(text: string, j: nat) returns (name: Option<string>)
    requires j <= |text|
    ensures name == NameAfter(text, j)
  {
    var nameStart := ReadNameStart(text, j);
    var nameEnd := ReadWhile(text, nameStart, IdentPart);
    var k := ReadWhile(text, nameEnd, Space);
    if nameStart < nameEnd && k < |text| && text[k] == '(' {
      return Some(text[nameStart..nameEnd]);
    }
    return None;
  }

  /** The keyword stands there by itself: it is no part of a longer word and no property. */
  predicate KeywordAt(text: string, i: nat, j: nat)
    requires i <= j <= |text|
  {
    text[i..j] == ANCHOR && (i == 0 || (!IdentPart(text[i - 1]) && text[i - 1] != '.'))
  }

  /** A word; the keyword of a named function is where a function begins. */
  function Word(text: string, i: nat, s: Scan): (nat, Scan)
    requires i < |text|
  {
    var j := WhileEnd(text, i + 1, IdentPart);
    var name := NameAfter(text, j);
    (j, if KeywordAt(text, i, j) && name.Some? then SeeFunction(s, name.value, i, |text|) else s)
  }

  method ReadWord(text: string, i: nat, s: Scan) returns (j: nat, t: Scan)
    requires i < |text|
    ensures (j, t) == Word(text, i, s)
  {
    j := ReadWhile(text, i + 1, IdentPart);
    t := s;
    if KeywordAt(text, i, j) {
      var name := ReadName(text, j);
      if name.Some? {
        t := SeeFunction(s, name.value, i, |text|);
      }
    }
  }

  function CountParen(s: Scan, c: char): Scan {
    if c == '(' then s.(parens := s.parens + 1)
    else if c == ')' then s.(parens := if s.parens > 0 then s.parens - 1 else 0)
    else s
  }

  // ---- the whole text ----

  /** The token at the cursor: where the next one is, and what this one does. */
  function Token(text: string, i: nat, s: Scan): (r: (nat, Scan))
    requires i < |text|
  {
    var c := text[i];
    if c == '/' && Is(text, i + 1, '/') then (LineEnd(text, i), s)
    else if c == '/' && Is(text, i + 1, '*') then (CommentEnd(text, i), s)
    else if c == '"' || c == '\'' then Quoted(text, i, s)
    else if c == '`' then Templated(text, i + 1, i + 1, s)
    else if c == '{' then (i + 1, OpenBrace(s))
    else if c == '}' then (i + 1, CloseBrace(s, i))
    else if IdentStart(c) then Word(text, i, CountParen(s, c))
    else (i + 1, CountParen(s, c))
  }

  /** The cursor goes on, whatever is there. */
  lemma {:induction false} TemplateGoesOn(text: string, j: nat, chunk: nat, s: Scan)
    ensures Templated(text, j, chunk, s).0 > j
    decreases |text| + 1 - j
  {
    if j < |text| && text[j] != '`' {
      if text[j] == '\\' {
        TemplateGoesOn(text, j + 2, chunk, s);
      } else if text[j] == '$' && Is(text, j + 1, '{') {
        var after := InterpolationEnd(text, j + 2, 1);
        TemplateGoesOn(text, after, after, Chunk(text, chunk, j, s));
      } else {
        TemplateGoesOn(text, j + 1, chunk, s);
      }
    }
  }

  lemma TokenGoesOn(text: string, i: nat, s: Scan)
    requires i < |text|
    ensures Token(text, i, s).0 > i
  {
    if text[i] == '`' { TemplateGoesOn(text, i + 1, i + 1, s); }
    if text[i] == '/' { assert LineEnd(text, i) == LineEnd(text, i + 1); }
  }

  function Scanned(text: string, i: nat, s: Scan): Scan
    decreases |text| - i
  {
    if i >= |text| then s
    else
      TokenGoesOn(text, i, s);
      var next := Token(text, i, s);
      Scanned(text, next.0, next.1)
  }

  method ScanText(text: string) returns (s: Scan)
    ensures s == Scanned(text, 0, START)
  {
    s := START;
    var i := 0;
    while i < |text|
      invariant Scanned(text, 0, START) == Scanned(text, i, s)
      decreases |text| - i
    {
      TokenGoesOn(text, i, s);
      i, s := ScanToken(text, i, s);
    }
  }

  method ScanToken(text: string, i: nat, s: Scan) returns (j: nat, t: Scan)
    requires i < |text|
    ensures (j, t) == Token(text, i, s)
  {
    var c := text[i];
    j, t := i + 1, s;
    if c == '/' && Is(text, i + 1, '/') {
      j := SkipLine(text, i);
    } else if c == '/' && Is(text, i + 1, '*') {
      var close := CloseOf(text, i + 2);
      j := if close.None? then |text| else close.value + 2;
    } else if c == '"' || c == '\'' {
      j := ReadQuoted(text, i);
      if j < |text| && text[j] == c {
        t := FindLiteral(s, i, j + 1, StringLiteral, text[i + 1..j]);
        j := j + 1;
      }
    } else if c == '`' {
      j, t := ReadTemplate(text, i, s);
    } else if c == '{' {
      t := OpenBrace(s);
    } else if c == '}' {
      t := CloseBrace(s, i);
    } else {
      t := CountParen(s, c);
      if IdentStart(c) {
        j, t := ReadWord(text, i, t);
      }
    }
  }

  // ---- every token keeps the stacks in step ----

  /** Reading a template from `chunk` stops at `j`: no backslash before it is left unread, unless it is read past the end. */
  predicate StopsAt(text: string, chunk: nat, j: nat) {
    if j <= |text| then Backslashes(text, chunk, j) % 2 == 0
    else Backslashes(text, chunk, |text|) % 2 == 1
  }

  lemma ChunkKeeps(text: string, chunk: nat, j: nat, s: Scan)
    requires StopsAt(text, chunk, j)
    requires Inv(text, chunk, s) && chunk <= j <= |text| + 1 && (j > chunk ==> chunk < |text|)
    ensures Inv(text, j, Chunk(text, chunk, j, s))
  {
    if j > chunk { FindLiteralKeeps(text, chunk, j, s, chunk, j, TemplateLiteral, Cut(text, chunk, j)); }
  }

  lemma {:induction false} TemplateKeeps(text: string, j: nat, chunk: nat, s: Scan)
    requires StopsAt(text, chunk, j)
    requires Inv(text, chunk, s) && chunk <= j <= |text| + 1 && chunk <= |text| && (j > chunk ==> chunk < |text|)
    ensures Inv(text, Templated(text, j, chunk, s).0, Templated(text, j, chunk, s).1)
    decreases |text| + 1 - j
  {
    if j >= |text| || text[j] == '`' {
      ChunkKeeps(text, chunk, j, s);
      CursorMoves(text, j, j + 1, Chunk(text, chunk, j, s));
    } else if text[j] == '\\' {
      TemplateKeeps(text, j + 2, chunk, s);
    } else if text[j] == '$' && Is(text, j + 1, '{') {
      var after, t := InterpolationEnd(text, j + 2, 1), Chunk(text, chunk, j, s);
      ChunkKeeps(text, chunk, j, s);
      CursorMoves(text, j, after, t);
      TemplateKeeps(text, after, after, t);
    } else {
      TemplateKeeps(text, j + 1, chunk, s);
    }
  }

  lemma QuotedKeeps(text: string, i: nat, s: Scan)
    requires Inv(text, i, s) && i < |text|
    ensures Inv(text, Quoted(text, i, s).0, Quoted(text, i, s).1)
  {
    var j := QuoteEnd(text, i + 1, text[i]);
    if Is(text, j, text[i]) {
      FindLiteralKeeps(text, i, j + 1, s, i, j + 1, StringLiteral, text[i + 1..j]);
    } else {
      CursorMoves(text, i, j, s);
    }
  }

  lemma WordKeeps(text: string, i: nat, s: Scan)
    requires Inv(text, i, s) && i < |text|
    ensures Inv(text, Word(text, i, s).0, Word(text, i, s).1)
  {
    var j := WhileEnd(text, i + 1, IdentPart);
    CursorMoves(text, i, j, s);
    if KeywordAt(text, i, j) && NameAfter(text, j).Some? {
      SeeFunctionKeeps(text, i, j, s, NameAfter(text, j).value);
    }
  }

  lemma TokenKeeps(text: string, i: nat, s: Scan)
    requires Inv(text, i, s) && i < |text|
    ensures Inv(text, Token(text, i, s).0, Token(text, i, s).1)
  {
    var c, r := text[i], Token(text, i, s);
    TokenGoesOn(text, i, s);
    if c == '/' && (Is(text, i + 1, '/') || Is(text, i + 1, '*')) {
      CursorMoves(text, i, r.0, s);
    } else if c == '"' || c == '\'' {
      QuotedKeeps(text, i, s);
    } else if c == '`' {
      CursorMoves(text, i, i + 1, s);
      TemplateKeeps(text, i + 1, i + 1, s);
    } else if c == '{' {
      OpenBraceKeeps(text, i, s);
      CursorMoves(text, i, i + 1, OpenBrace(s));
    } else if c == '}' {
      CloseBraceKeeps(text, i, s);
    } else {
      var t := CountParen(s, c);
      assert Inv(text, i, t);
      if IdentStart(c) { WordKeeps(text, i, t); } else { CursorMoves(text, i, i + 1, t); }
    }
  }

  /** After any text: the open functions are those of the open braces, and everything found lies where it should. */
  lemma {:induction false} ScanKeeps(text: string, i: nat, s: Scan)
    requires Inv(text, i, s)
    ensures exists end: nat :: end >= |text| && Inv(text, end, Scanned(text, i, s))
    decreases |text| - i
  {
    if i < |text| {
      TokenKeeps(text, i, s);
      TokenGoesOn(text, i, s);
      var next := Token(text, i, s);
      ScanKeeps(text, next.0, next.1);
      assert Scanned(text, i, s) == Scanned(text, next.0, next.1);
    } else {
      assert Inv(text, i, Scanned(text, i, s));
    }
  }

  // ---- the rows ----

  /** How a raw literal is stored: its escapes decoded and, when it is long, cut. */
  type Reading = string -> (string, nat)

  function IdOf(base: int, spec: int): Option<int> { if spec < 0 then None else Some(base + spec) }

  function FunctionOf(base: int, k: nat, f: Spec): FunctionRow {
    FunctionRow(base + k, IdOf(base, f.parent), Declaration, Some(f.name), None, f.start, f.end)
  }

  function StringOf(base: int, p: Pending, reading: Reading): StringRow {
    StringRow(IdOf(base, p.spec), p.start, p.end, p.kind, reading(p.raw).0, reading(p.raw).1)
  }

  /** A row of a function or a literal, and where in the text it may lie. */
  predicate FunctionLies(text: string, base: int, fs: seq<FunctionRow>, k: nat)
    requires k < |fs|
  {
    && At(text, fs[k].start, ANCHOR) && fs[k].start < fs[k].end <= |text|
    && (k > 0 ==> fs[k - 1].start < fs[k].start)
    && (fs[k].parentId.Some? ==> LiesIn(base, fs, fs[k].parentId.value, fs[k].start))
  }

  predicate LiesIn(base: int, fs: seq<FunctionRow>, id: int, at: nat) {
    0 <= id - base < |fs| && fs[id - base].start < at < fs[id - base].end
  }

  predicate StringLies(text: string, base: int, fs: seq<FunctionRow>, s: StringRow) {
    && s.start < |text| && s.start < s.end <= |text| + 1
    && EndsAsRead(text, s.start, s.end, s.kind)
    && (s.fnId.Some? ==> LiesIn(base, fs, s.fnId.value, s.start))
  }

  /** The rows of a text. */
  function ScanRows(text: string, base: int, reading: Reading): (r: Rows) {
    var s := Scanned(text, 0, START);
    Rows(seq(|s.specs|, k requires 0 <= k < |s.specs| => FunctionOf(base, k, s.specs[k])), [],
         seq(|s.pending|, k requires 0 <= k < |s.pending| => StringOf(base, s.pending[k], reading)), [])
  }

  method ScanTolerantly(text: string, reading: Reading, sink: RowSink)
    requires sink.Valid() && sink.View() == NO_ROWS
    modifies sink
    ensures sink.Valid() && sink.View() == ScanRows(text, sink.base, reading)
  {
    var s := ScanText(text);
    // Functions were seen in the order they begin, so sorting them by that leaves them as they are.
    for k := 0 to |s.specs|
      invariant sink.Valid() && |sink.functions| == k && sink.classes == [] && sink.strings == [] && sink.calls == []
      invariant forall l: nat :: l < k ==> sink.functions[l] == FunctionOf(sink.base, l, s.specs[l])
    {
      sink.functions := sink.functions + [FunctionOf(sink.base, k, s.specs[k])];
      sink.nextId := sink.nextId + 1;
    }
    for k := 0 to |s.pending|
      invariant sink.Valid() && |sink.strings| == k && sink.classes == [] && sink.calls == []
      invariant |sink.functions| == |s.specs|
      invariant forall l: nat :: l < |s.specs| ==> sink.functions[l] == FunctionOf(sink.base, l, s.specs[l])
      invariant forall l: nat :: l < k ==> sink.strings[l] == StringOf(sink.base, s.pending[l], reading)
    {
      sink.strings := sink.strings + [StringOf(sink.base, s.pending[k], reading)];
    }
  }

  /**
   * Whatever the text: functions are numbered as they begin, each after its parent; a
   * function's range begins at its keyword, is not empty and lies in the text; a literal
   * begins inside the function it is given to. It ends inside the text, or one behind
   * it exactly when it is a template that breaks off at an escape.
   */
  lemma ScannedRowsLie(text: string, base: int, reading: Reading)
    ensures var r := ScanRows(text, base, reading);
            && WellNumbered(base, r)
            && (forall k: nat :: k < |r.functions| ==> FunctionLies(text, base, r.functions, k))
            && (forall k: nat :: k < |r.strings| ==> StringLies(text, base, r.functions, r.strings[k]))
  {
    ScanKeeps(text, 0, START);
    var s, r := Scanned(text, 0, START), ScanRows(text, base, reading);
    var end: nat :| end >= |text| && Inv(text, end, s);
    RowsLie(text, end, s, base, r.functions, r.strings, reading);
  }

  /** So it happens: a backquote and a backslash are a literal of one character that ends at 3. */
  lemma LiteralEndsBehindTheText(base: int, reading: Reading)
    ensures ScanRows("`\\", base, reading).strings == [StringRow(None, 1, 3, TemplateLiteral, reading("\\").0, reading("\\").1)]
  {
    var text := "`\\";
    assert Templated(text, 1, 1, START) == Templated(text, 3, 1, START);
    assert Cut(text, 1, 3) == "\\";
    assert Token(text, 0, START) == (4, FindLiteral(START, 1, 3, TemplateLiteral, "\\"));
  }

  lemma FunctionRowLies(text: string, i: nat, specs: seq<Spec>, base: int, fs: seq<FunctionRow>, k: nat)
    requires SpecsFit(text, i, specs) && |fs| == |specs| && k < |fs|
    requires forall k: nat :: k < |fs| ==> fs[k] == FunctionOf(base, k, specs[k])
    ensures Numbered(base, k, fs[k]) && FunctionLies(text, base, fs, k)
  {
    assert SpecFits(text, i, specs, k);
  }

  lemma StringRowLies(text: string, i: nat, specs: seq<Spec>, base: int, fs: seq<FunctionRow>, p: Pending, reading: Reading)
    requires PendingFits(text, i, specs, p) && |fs| == |specs|
    requires forall k: nat :: k < |fs| ==> fs[k] == FunctionOf(base, k, specs[k])
    ensures StringLies(text, base, fs, StringOf(base, p, reading))
    ensures IdWithin(base, |fs|, StringOf(base, p, reading).fnId)
  {
  }

  lemma RowsLie(text: string, i: nat, s: Scan, base: int, fs: seq<FunctionRow>, ss: seq<StringRow>, reading: Reading)
    requires Inv(text, i, s) && |fs| == |s.specs| && |ss| == |s.pending|
    requires forall k: nat :: k < |fs| ==> fs[k] == FunctionOf(base, k, s.specs[k])
    requires forall k: nat :: k < |ss| ==> ss[k] == StringOf(base, s.pending[k], reading)
    ensures WellNumbered(base, Rows(fs, [], ss, []))
    ensures forall k: nat :: k < |fs| ==> FunctionLies(text, base, fs, k)
    ensures forall k: nat :: k < |ss| ==> StringLies(text, base, fs, ss[k])
  {
    forall k: nat | k < |fs| ensures Numbered(base, k, fs[k]) && FunctionLies(text, base, fs, k) {
      FunctionRowLies(text, i, s.specs, base, fs, k);
    }
    forall k: nat | k < |ss| ensures StringLies(text, base, fs, ss[k]) && IdWithin(base, |fs|, ss[k].fnId) {
      StringRowLies(text, i, s.specs, base, fs, s.pending[k], reading);
    }
  }
}
