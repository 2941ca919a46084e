/** Scopes as ranges: paths are compared character by character, as their UTF-8 bytes are. */
module PathRange {
  /** Whether `a` comes before `b`. */
  predicate Before(a: string, b: string) {
    b != "" && (a == "" || a[0] < b[0] || (a[0] == b[0] && Before(a[1..], b[1..])))
  }

  predicate Within(path: string, from: string, to: string) { !Before(path, from) && Before(path, to) }

  /** Paths below a directory, by its name and a slash. */
  predicate Below(path: string, scope: string) { scope + "/" <= path }

  /** As SQL asks for them: from `scope/` up to but excluding `scope0`. */
  predicate InRange(path: string, scope: string) { Within(path, scope + "/", scope + "0") }

  /** The digit follows the slash, so the range holds the paths below the scope and no others. */
  lemma {:induction false} RangeIsBelow(path: string, scope: string)
    ensures InRange(path, scope) <==> Below(path, scope)
  {
    var from, to := scope + "/", scope + "0";
    if scope == "" {
      assert from[1..] == "" && to[1..] == "";
      if path != "" {
        assert !Before(path[1..], from[1..]) && !Before(path[1..], to[1..]);
        assert path[0] == '/' <==> path[0] as int == 47;
      }
    } else {
      assert from[1..] == scope[1..] + "/" && to[1..] == scope[1..] + "0";
      if path != "" && path[0] == scope[0] {
        RangeIsBelow(path[1..], scope[1..]);
        assert path == [path[0]] + path[1..] && from == [scope[0]] + from[1..];
      }
    }
  }

  const LAST := "\U{FFFF}"

  /** At the root the range is open below and ends at U+FFFF: it misses the names that begin at or above it. */
  lemma RootRangeIs(path: string)
    ensures Within(path, "", LAST) <==> path == "" || path[0] < '\U{FFFF}'
  {
    assert !Before(path, "");
    if path != "" { assert !Before(path[1..], LAST[1..]); }
  }
}
