/**
 * When a conversation is complete: every tool call is answered once, before anybody
 * says anything else. The tracker reads a conversation message by message.
 */
module Conversation {
  import opened Common

  /** What a message is to the tool rounds: nothing, a turn of speech with its calls, or a result. */
  datatype Shape = Quiet | Says(calls: seq<string>) | Answers(call: string)

  // ---- complete, by position ----

  /** Who spoke last before position `n`. */
  function Asker(s: seq<Shape>, n: nat): (r: Option<nat>)
    requires n <= |s|
    ensures r.Some? ==> r.value < n && s[r.value].Says?
    ensures forall k :: (if r.Some? then r.value + 1 else 0) <= k < n ==> !s[k].Says?
  {
    if n == 0 then None else if s[n - 1].Says? then Some(n - 1) else Asker(s, n - 1)
  }

  predicate Distinct(ids: seq<string>) { forall i, j :: 0 <= i < j < |ids| ==> ids[i] != ids[j] }

  predicate Asks(s: seq<Shape>, i: int, c: string) { 0 <= i < |s| && s[i].Says? && c in s[i].calls }

  /** The result at `j` answers the call `c` of the message at `i`, which spoke last. */
  predicate Answered(s: seq<Shape>, i: nat, c: string, j: int) {
    i < j < |s| && s[j] == Answers(c) && Asker(s, j) == Some(i)
  }

  ghost predicate HasAnswer(s: seq<Shape>, n: nat, i: nat, c: string) { exists j :: j < n && Answered(s, i, c, j) }

  /** A result at `j` is one that the last to speak asked for. */
  predicate Asked(s: seq<Shape>, j: nat)
    requires j < |s|
  {
    s[j].Answers? ==> Asker(s, j).Some? && Asks(s, Asker(s, j).value, s[j].call)
  }

  predicate SpeaksOnce(s: seq<Shape>, i: nat, j: nat) {
    i < j < |s| && s[i].Says? && s[j].Says? ==> forall c :: c in s[i].calls ==> c !in s[j].calls
  }

  predicate AnswersOnce(s: seq<Shape>, i: nat, j: nat) {
    i < j < |s| && s[i].Answers? && s[j].Answers? ==> s[i].call != s[j].call
  }

  /** In the first `n` messages call ids are distinct, and results answer, once, who spoke last. */
  ghost predicate InOrder(s: seq<Shape>, n: nat)
    requires n <= |s|
  {
    && (forall i: nat :: i < n && s[i].Says? ==> Distinct(s[i].calls))
    && (forall i: nat, j: nat :: j < n ==> SpeaksOnce(s, i, j))
    && (forall j: nat :: j < n ==> Asked(s, j))
    && (forall i: nat, j: nat :: j < n ==> AnswersOnce(s, i, j))
  }

  ghost predicate Complete(s: seq<Shape>) {
    InOrder(s, |s|) && forall i: nat, c :: Asks(s, i, c) ==> HasAnswer(s, |s|, i, c)
  }

  // ---- the tracker ----

  datatype Track = Track(calls: set<string>, pending: set<string>, answered: set<string>)

  const NOTHING_ASKED := Track({}, {}, {})

  datatype Misfit = Unresolved | RepeatedCall | RepeatedResult | UnmatchedResult

  function SetOf(ids: seq<string>): set<string> { set c | c in ids }

  function Next(t: Track, shape: Shape): Result<Track, Misfit> {
    match shape
    case Quiet => Success(t)
    case Says(calls) =>
      if t.pending != {} then Failure(Unresolved)
      else if !Distinct(calls) || exists c :: c in calls && c in t.calls then Failure(RepeatedCall)
      else Success(t.(calls := t.calls + SetOf(calls), pending := SetOf(calls)))
    case Answers(c) =>
      if c in t.answered then Failure(RepeatedResult)
      else if c !in t.pending then Failure(UnmatchedResult)
      else Success(t.(pending := t.pending - {c}, answered := t.answered + {c}))
  }

  function Tracked(s: seq<Shape>): Result<Track, Misfit> {
    if s == [] then Success(NOTHING_ASKED)
    else
      var before := Tracked(s[..|s| - 1]);
      if before.Failure? then before else Next(before.value, s[|s| - 1])
  }

  /** A conversation is accepted when the tracker gets through and nothing is pending. */
  predicate Accepted(s: seq<Shape>) { Tracked(s).Success? && Tracked(s).value.pending == {} }

  // ---- the tracker accepts exactly the complete conversations ----

  /** What the tracker knows after `n` messages. */
  ghost predicate Knows(s: seq<Shape>, n: nat, t: Track)
    requires n <= |s|
  {
    && (forall c :: c in t.calls <==> exists i :: i < n && Asks(s, i, c))
    && (forall c :: c in t.answered <==> exists j :: 0 <= j < n && s[j] == Answers(c))
    && (forall c :: c in t.pending <==> Pends(s, n, c))
  }

  /** The last to speak asked for it, and there is no answer yet. */
  ghost predicate Pends(s: seq<Shape>, n: nat, c: string)
    requires n <= |s|
  {
    var a := Asker(s, n);
    a.Some? && Asks(s, a.value, c) && !HasAnswer(s, n, a.value, c)
  }

  /** All that was asked before the last spoke is answered. */
  ghost predicate Settled(s: seq<Shape>, n: nat)
    requires n <= |s|
  {
    forall i: nat, c :: i < n && Asker(s, n) != Some(i) && Asks(s, i, c) ==> HasAnswer(s, n, i, c)
  }

  ghost predicate Through(s: seq<Shape>, n: nat, t: Track)
    requires n <= |s|
  {
    InOrder(s, n) && Settled(s, n) && Knows(s, n, t)
  }

  /** A message that is no result answers nothing. */
  lemma NoNewAnswer(s: seq<Shape>, n: nat, i: nat, c: string)
    requires n < |s| && !s[n].Answers?
    ensures HasAnswer(s, n + 1, i, c) <==> HasAnswer(s, n, i, c)
  {
    if HasAnswer(s, n + 1, i, c) {
      var j :| j < n + 1 && Answered(s, i, c, j);
      assert j < n;
    }
    if HasAnswer(s, n, i, c) {
      var j :| j < n && Answered(s, i, c, j);
      assert j < n + 1;
    }
  }

  lemma QuietStep(s: seq<Shape>, n: nat, t: Track)
    requires n < |s| && Through(s, n, t) && s[n].Quiet?
    ensures Through(s, n + 1, t)
  {
    QuietKeepsOrder(s, n);
    forall i: nat, c | i < n + 1 && Asker(s, n + 1) != Some(i) && Asks(s, i, c) ensures HasAnswer(s, n + 1, i, c) {
      NoNewAnswer(s, n, i, c);
    }
    forall c ensures c in t.answered <==> exists j :: 0 <= j < n + 1 && s[j] == Answers(c) {
    }
    forall c ensures c in t.calls <==> exists i :: i < n + 1 && Asks(s, i, c) {
    }
    forall c ensures c in t.pending <==> Pends(s, n + 1, c) {
      assert c in t.pending <==> Pends(s, n, c);
      if Asker(s, n).Some? { NoNewAnswer(s, n, Asker(s, n).value, c); }
    }
  }

  lemma QuietKeepsOrder(s: seq<Shape>, n: nat)
    requires n < |s| && InOrder(s, n) && s[n].Quiet?
    ensures InOrder(s, n + 1)
  {
    forall i: nat, j: nat | j < n + 1 ensures SpeaksOnce(s, i, j) && AnswersOnce(s, i, j) {
    }
    forall j: nat | j < n + 1 ensures Asked(s, j) {
    }
  }

  lemma SaysStep(s: seq<Shape>, n: nat, t: Track, u: Track)
    requires n < |s| && Through(s, n, t) && s[n].Says? && Next(t, s[n]) == Success(u)
    ensures Through(s, n + 1, u)
  {
    SpeakerIsNew(s, n, t);
    SpeakerSettles(s, n, t);
    forall c ensures c in u.calls <==> exists i :: i < n + 1 && Asks(s, i, c) {
      if c in SetOf(s[n].calls) { assert Asks(s, n, c); }
    }
    forall c ensures c in u.answered <==> exists j :: 0 <= j < n + 1 && s[j] == Answers(c) {
    }
    forall c ensures c in u.pending <==> Pends(s, n + 1, c) {
      assert Asker(s, n + 1) == Some(n);
      assert !HasAnswer(s, n + 1, n, c);
    }
  }

  /** Calls of a new message that the tracker takes are new. */
  lemma SpeakerIsNew(s: seq<Shape>, n: nat, t: Track)
    requires n < |s| && Through(s, n, t) && s[n].Says? && Next(t, s[n]).Success?
    ensures InOrder(s, n + 1)
  {
    forall i: nat, j: nat | j < n + 1 ensures SpeaksOnce(s, i, j) {
      if j == n && i < n && s[i].Says? {
        forall c | c in s[i].calls ensures c !in s[n].calls {
          assert Asks(s, i, c);
          assert c in t.calls;
        }
      } else if j < n {
        assert SpeaksOnce(s, i, j);
      }
    }
    forall j: nat | j < n + 1 ensures Asked(s, j) {
    }
  }

  /** Nothing pends when somebody speaks, so all that was asked is answered. */
  lemma SpeakerSettles(s: seq<Shape>, n: nat, t: Track)
    requires n < |s| && Through(s, n, t) && s[n].Says? && t.pending == {}
    ensures Settled(s, n + 1)
  {
    forall i: nat, c | i < n + 1 && Asker(s, n + 1) != Some(i) && Asks(s, i, c)
      ensures HasAnswer(s, n + 1, i, c)
    {
      assert c !in t.pending;
      assert HasAnswer(s, n, i, c);
      var j :| j < n && Answered(s, i, c, j);
    }
  }

  lemma AnswersStep(s: seq<Shape>, n: nat, t: Track, u: Track)
    requires n < |s| && Through(s, n, t) && s[n].Answers? && Next(t, s[n]) == Success(u)
    ensures Through(s, n + 1, u)
  {
    var d := s[n].call;
    assert Pends(s, n, d);
    AnswerIsFirst(s, n, t);
    forall i: nat, c ensures HasAnswer(s, n + 1, i, c) <==> HasAnswer(s, n, i, c) || (c == d && Asker(s, n) == Some(i)) {
      AnswersAdd(s, n, i, c);
    }
    forall c ensures c in u.calls <==> exists i :: i < n + 1 && Asks(s, i, c) {
    }
    forall c ensures c in u.answered <==> exists j :: 0 <= j < n + 1 && s[j] == Answers(c) {
      if c == d { assert s[n] == Answers(c); }
    }
    forall c ensures c in u.pending <==> Pends(s, n + 1, c) {
      assert c in t.pending <==> Pends(s, n, c);
    }
  }

  lemma AnswersAdd(s: seq<Shape>, n: nat, i: nat, c: string)
    requires n < |s| && s[n].Answers?
    ensures HasAnswer(s, n + 1, i, c) <==> HasAnswer(s, n, i, c) || (c == s[n].call && Asker(s, n) == Some(i))
  {
    if HasAnswer(s, n + 1, i, c) {
      var j :| j < n + 1 && Answered(s, i, c, j);
    }
    if HasAnswer(s, n, i, c) {
      var j :| j < n && Answered(s, i, c, j);
      assert j < n + 1;
    }
    if c == s[n].call && Asker(s, n) == Some(i) { assert Answered(s, i, c, n); }
  }

  lemma AnswerIsFirst(s: seq<Shape>, n: nat, t: Track)
    requires n < |s| && Through(s, n, t) && s[n].Answers? && Next(t, s[n]).Success?
    ensures InOrder(s, n + 1)
  {
    assert Pends(s, n, s[n].call);
    forall i: nat, j: nat | j < n + 1 ensures AnswersOnce(s, i, j) {
      if j == n && i < n && s[i].Answers? { assert s[i] == Answers(s[i].call); }
    }
    forall j: nat | j < n + 1 ensures Asked(s, j) {
    }
    forall i: nat, j: nat | j < n + 1 ensures SpeaksOnce(s, i, j) {
    }
  }

  lemma StepThrough(s: seq<Shape>, n: nat, t: Track, u: Track)
    requires n < |s| && Through(s, n, t) && Next(t, s[n]) == Success(u)
    ensures Through(s, n + 1, u)
  {
    match s[n]
    case Quiet => QuietStep(s, n, t);
    case Says(_) => SaysStep(s, n, t, u);
    case Answers(_) => AnswersStep(s, n, t, u);
  }

  /** What pends when somebody speaks is never answered. */
  lemma PendingIsLost(s: seq<Shape>, n: nat, c: string)
    requires n <= |s| && Pends(s, n, c) && (n == |s| || s[n].Says?)
    ensures !Complete(s)
  {
    var i := Asker(s, n).value;
    assert forall j :: Answered(s, i, c, j) ==> j < n;
    assert !HasAnswer(s, |s|, i, c);
  }

  /** Where the tracker stops, the conversation is not complete. */
  lemma StepStuck(s: seq<Shape>, n: nat, t: Track)
    requires n < |s| && Through(s, n, t) && Next(t, s[n]).Failure?
    ensures !Complete(s)
  {
    if s[n].Says? {
      if t.pending != {} {
        var c :| c in t.pending;
        PendingIsLost(s, n, c);
      } else if Distinct(s[n].calls) {
        var c :| c in s[n].calls && c in t.calls;
        var i :| i < n && Asks(s, i, c);
        assert !SpeaksOnce(s, i, n);
      }
    } else {
      var c := s[n].call;
      if c in t.answered {
        var j :| 0 <= j < n && s[j] == Answers(c);
        assert !AnswersOnce(s, j, n);
      } else {
        UnmatchedIsWrong(s, n, t);
      }
    }
  }

  lemma UnmatchedIsWrong(s: seq<Shape>, n: nat, t: Track)
    requires n < |s| && Through(s, n, t) && s[n].Answers? && s[n].call !in t.answered && s[n].call !in t.pending
    ensures !Asked(s, n)
  {
    var c := s[n].call;
    assert !Pends(s, n, c);
    var a := Asker(s, n);
    assert forall j :: 0 <= j < n && s[j] == Answers(c) ==> c in t.answered;
    assert a.Some? ==> !HasAnswer(s, n, a.value, c);
  }

  lemma {:induction false} TrackedIsThrough(s: seq<Shape>, n: nat)
    requires n <= |s|
    ensures Tracked(s[..n]).Success? ==> Through(s, n, Tracked(s[..n]).value)
    ensures Tracked(s[..n]).Failure? ==> !Complete(s)
  {
    if n > 0 {
      TrackedIsThrough(s, n - 1);
      assert s[..n][..n - 1] == s[..n - 1];
      var before := Tracked(s[..n - 1]);
      if before.Success? {
        var next := Next(before.value, s[n - 1]);
        if next.Success? { StepThrough(s, n - 1, before.value, next.value); } else { StepStuck(s, n - 1, before.value); }
      }
    }
  }

  /** The tracker accepts a conversation exactly when it is complete. */
  lemma AcceptedExactlyComplete(s: seq<Shape>)
    ensures Accepted(s) <==> Complete(s)
  {
    TrackedIsThrough(s, |s|);
    assert s[..|s|] == s;
    if Tracked(s).Success? {
      var t := Tracked(s).value;
      if c :| c in t.pending {
        PendingIsLost(s, |s|, c);
      } else {
        forall i: nat, c | Asks(s, i, c) ensures HasAnswer(s, |s|, i, c) {
          assert c !in t.pending;
        }
      }
    }
  }
}
