/**
 * Stored texts: a `string` is a sequence of code points, of which JavaScript
 * counts those beyond the Basic Multilingual Plane as two units.
 */
module Text {
  function UnitsOf(c: char): nat { if c as int >= 0x10000 then 2 else 1 }

  /** `length` in JavaScript. */
  function Units(s: string): nat {
    if s == "" then 0 else Units(s[..|s| - 1]) + UnitsOf(s[|s| - 1])
  }

  /** `length(...)` in SQL: the code points before the first NUL. */
  function SqlLength(s: string): (n: nat)
    ensures n <= |s|
  {
    if s == "" || s[0] as int == 0 then 0 else 1 + SqlLength(s[1..])
  }

  lemma {:induction false} UnitsAtLeast(s: string)
    ensures |s| <= Units(s)
  {
    if s != "" { UnitsAtLeast(s[..|s| - 1]); }
  }

  predicate Contains(text: string, part: string) {
    part <= text || (text != "" && Contains(text[1..], part))
  }

  lemma {:induction false} ContainsIsNoLonger(text: string, part: string)
    requires Contains(text, part)
    ensures |part| <= |text|
  {
    if !(part <= text) { ContainsIsNoLonger(text[1..], part); }
  }

  function LowerChar(c: char): char { if 'A' <= c <= 'Z' then ((c as int) + 32) as char else c }

  /** ASCII lower case. */
  function Lower(s: string): (r: string)
    ensures |r| == |s|
  {
    seq(|s|, i requires 0 <= i < |s| => LowerChar(s[i]))
  }

  /** How many code points from the front fit in a number of units. */
  function Fitting(s: string, limit: nat, n: nat := |s|): (r: nat)
    requires n <= |s|
    ensures r <= n && Units(s[..r]) <= limit
    ensures r < n ==> Units(s[..r + 1]) > limit
    decreases n
  {
    if Units(s[..n]) <= limit then n
    else
      assert s[..0] == "";
      Fitting(s, limit, n - 1)
  }

  /** Where the part from the back begins that fits in a number of units. */
  function FittingFrom(s: string, limit: nat, n: nat := 0): (r: nat)
    requires n <= |s|
    ensures n <= r <= |s| && Units(s[r..]) <= limit
    ensures r > n ==> Units(s[r - 1..]) > limit
    decreases |s| - n
  {
    if Units(s[n..]) <= limit then n
    else
      assert s[|s|..] == "";
      FittingFrom(s, limit, n + 1)
  }
}
