/** Which scopes are indexed: a bounded list, in which the narrowest entry answers for a path. */
module Coverage {
  import opened Common
  import PathRange

  const MAX_COVERED_ENTRIES := 200

  /** A scope that was indexed; `finished` when the call got through all of it. */
  datatype Covered = Covered(scope: string, finished: bool)

  predicate Covers(e: Covered, rel: string) {
    e.scope == "" || e.scope == rel || PathRange.Below(rel, e.scope)
  }

  predicate OnePerScope(covered: seq<Covered>) {
    forall i, j :: 0 <= i < j < |covered| ==> covered[i].scope != covered[j].scope
  }

  /** No entry covers the path, or `best` is the narrowest that does. */
  predicate Narrowest(covered: seq<Covered>, rel: string, best: Option<Covered>) {
    match best
    case None => forall e :: e in covered ==> !Covers(e, rel)
    case Some(b) => b in covered && Covers(b, rel) && forall e :: e in covered && Covers(e, rel) ==> |e.scope| <= |b.scope|
  }

  method CoveringEntry(covered: seq<Covered>, rel: string) returns (best: Option<Covered>)
    ensures Narrowest(covered, rel, best)
  {
    best := None;
    for k := 0 to |covered|
      invariant Narrowest(covered[..k], rel, best)
    {
      var e := covered[k];
      assert covered[..k + 1] == covered[..k] + [e];
      if Covers(e, rel) && (best.None? || |e.scope| > |best.value.scope|) {
        best := Some(e);
      }
    }
    assert covered[..|covered|] == covered;
  }

  function Without(covered: seq<Covered>, scope: string): (r: seq<Covered>)
    ensures |r| <= |covered| && forall e :: e in r <==> e in covered && e.scope != scope
    ensures OnePerScope(covered) ==> OnePerScope(r)
  {
    if covered == [] then []
    else
      var n := |covered| - 1;
      var before := Without(covered[..n], scope);
      assert covered == covered[..n] + [covered[n]];
      if covered[n].scope == scope then before
      else
        assert OnePerScope(covered) ==> forall e :: e in before ==> e.scope != covered[n].scope by {
          if OnePerScope(covered) {
            forall e | e in before ensures e.scope != covered[n].scope {
              var i :| 0 <= i < n && covered[..n][i] == e;
              assert covered[i].scope != covered[n].scope;
            }
          }
        }
        before + [covered[n]]
  }

  function Recorded(covered: seq<Covered>, mine: Covered): seq<Covered> {
    if mine.scope == "" then [mine]
    else
      var without := Without(covered, mine.scope);
      if |without| < MAX_COVERED_ENTRIES then without + [mine] else without
  }

  /** The list has one entry a scope and stays within its bound. */
  lemma RecordingKeepsTheList(covered: seq<Covered>, mine: Covered)
    requires OnePerScope(covered) && |covered| <= MAX_COVERED_ENTRIES
    ensures OnePerScope(Recorded(covered, mine)) && |Recorded(covered, mine)| <= MAX_COVERED_ENTRIES
  {
    var without := Without(covered, mine.scope);
    assert forall i :: 0 <= i < |without| ==> without[i] in without;
  }

  /** Two entries that cover a path and are as narrow are of the same scope. */
  lemma NarrowestIsOne(a: Covered, b: Covered, rel: string)
    requires Covers(a, rel) && Covers(b, rel) && |a.scope| == |b.scope|
    ensures a.scope == b.scope
  {
    if a.scope != "" {
      assert a.scope == rel[..|a.scope|] by { if a.scope != rel { assert (a.scope + "/")[..|a.scope|] == a.scope; } }
      assert b.scope == rel[..|b.scope|] by { if b.scope != rel { assert (b.scope + "/")[..|b.scope|] == b.scope; } }
    }
  }

  lemma CoveringIsShorter(e: Covered, rel: string)
    requires Covers(e, rel)
    ensures |e.scope| <= |rel|
  {
  }

  /**
   * What was recorded last answers for its own scope, unless the list is full of other
   * scopes: then the call leaves no trace, and a wider entry answers or none.
   */
  lemma RecordedAnswersUnlessFull(covered: seq<Covered>, mine: Covered)
    ensures Narrowest(Recorded(covered, mine), mine.scope, Some(mine)) <==>
            mine.scope == "" || |Without(covered, mine.scope)| < MAX_COVERED_ENTRIES
  {
    var recorded := Recorded(covered, mine);
    if mine.scope == "" || |Without(covered, mine.scope)| < MAX_COVERED_ENTRIES {
      assert mine in recorded by { assert recorded[|recorded| - 1] == mine; }
      forall e | e in recorded && Covers(e, mine.scope) ensures |e.scope| <= |mine.scope| {
        CoveringIsShorter(e, mine.scope);
      }
    }
  }

  /** A path outside the recorded scope is answered for as before. */
  lemma OthersAnswerAsBefore(covered: seq<Covered>, mine: Covered, rel: string, best: Option<Covered>)
    requires mine.scope != "" && !Covers(mine, rel)
    ensures Narrowest(Recorded(covered, mine), rel, best) <==> Narrowest(covered, rel, best)
  {
    assert forall e :: e in Recorded(covered, mine) && Covers(e, rel) <==> e in covered && Covers(e, rel);
  }
}
