/** Folding a person's answers about single tool calls into the one decision a batch takes. */
module Approvals {
  import opened Common

  /** A call that a person was asked about; `escapes` when it asks to leave the sandbox. */
  datatype Ask = Ask(call: string, escapes: bool)

  datatype Answer<A> =
    | Approval(approved: bool, edited: Option<A>, confirms: bool, reason: string)
    | Other  // a cancellation, or no answer to an approval at all

  datatype Action<A> = Deny | Modify(args: A)

  datatype Modification<A> = Modification(call: string, action: Action<A>)

  datatype Decision<A> =
    | RejectTools(feedback: string)
    | ApproveTools(confirmed: seq<string>)
    | ModifyTools(modifications: seq<Modification<A>>, confirmed: seq<string>)

  const DECLINED := "The user declined these tool calls."

  // ---- what one answer says ----

  predicate Approves<A>(answer: Answer<A>) { answer.Approval? && answer.approved }

  /** The answer to the question at `i`; there may be fewer answers than questions. */
  function AnswerTo<A>(answers: seq<Answer<A>>, i: nat): Answer<A> {
    if i < |answers| then answers[i] else Other
  }

  function Changes<A>(ask: Ask, answer: Answer<A>): seq<Modification<A>> {
    if !Approves(answer) then [Modification(ask.call, Deny)]
    else if answer.edited.Some? then [Modification(ask.call, Modify(answer.edited.value))]
    else []
  }

  predicate Confirms<A>(ask: Ask, answer: Answer<A>) { Approves(answer) && ask.escapes && answer.confirms }

  // ---- all answers ----

  function AllChanges<A>(asks: seq<Ask>, answers: seq<Answer<A>>): seq<Modification<A>> {
    if asks == [] then []
    else
      var n := |asks| - 1;
      AllChanges(asks[..n], answers) + Changes(asks[n], AnswerTo(answers, n))
  }

  function AllConfirmed<A>(asks: seq<Ask>, answers: seq<Answer<A>>): seq<string> {
    if asks == [] then []
    else
      var n := |asks| - 1;
      AllConfirmed(asks[..n], answers) + if Confirms(asks[n], AnswerTo(answers, n)) then [asks[n].call] else []
  }

  /** What those who refused gave as reasons. */
  function Reasons<A>(asks: seq<Ask>, answers: seq<Answer<A>>): seq<string> {
    if asks == [] then []
    else
      var n := |asks| - 1;
      var answer := AnswerTo(answers, n);
      Reasons(asks[..n], answers) +
      if !Approves(answer) && answer.Approval? && answer.reason != "" then [answer.reason] else []
  }

  function Joined(lines: seq<string>): string {
    if lines == [] then ""
    else if |lines| == 1 then lines[0]
    else Joined(lines[..|lines| - 1]) + "\n" + lines[|lines| - 1]
  }

  function CountDenied<A>(asks: seq<Ask>, answers: seq<Answer<A>>): (k: nat)
    ensures k <= |asks|
  {
    if asks == [] then 0
    else CountDenied(asks[..|asks| - 1], answers) + if Approves(AnswerTo(answers, |asks| - 1)) then 0 else 1
  }

  function Decided<A>(asks: seq<Ask>, answers: seq<Answer<A>>, batch: seq<string>): Decision<A> {
    var denied, changes := CountDenied(asks, answers), AllChanges(asks, answers);
    if denied > 0 && denied == |batch| then
      var feedback := Joined(Reasons(asks, answers));
      RejectTools(if feedback == "" then DECLINED else feedback)
    else if changes == [] then ApproveTools(AllConfirmed(asks, answers))
    else ModifyTools(changes, AllConfirmed(asks, answers))
  }

  method ApprovalDecision<A>(asks: seq<Ask>, answers: seq<Answer<A>>, batch: seq<string>) returns (d: Decision<A>)
    ensures d == Decided(asks, answers, batch)
  {
    var modifications: seq<Modification<A>>, confirmed: seq<string>, reasons: seq<string> := [], [], [];
    var denied := 0;
    for k := 0 to |asks|
      invariant denied == CountDenied(asks[..k], answers)
      invariant modifications == AllChanges(asks[..k], answers)
      invariant confirmed == AllConfirmed(asks[..k], answers)
      invariant reasons == Reasons(asks[..k], answers)
    {
      assert asks[..k + 1][..k] == asks[..k];
      var answer := AnswerTo(answers, k);
      if !Approves(answer) {
        denied := denied + 1;
        if answer.Approval? && answer.reason != "" {
          reasons := reasons + [answer.reason];
        }
        modifications := modifications + [Modification(asks[k].call, Deny)];
      } else {
        if asks[k].escapes && answer.confirms {
          confirmed := confirmed + [asks[k].call];
        }
        if answer.edited.Some? {
          modifications := modifications + [Modification(asks[k].call, Modify(answer.edited.value))];
        }
      }
    }
    assert asks[..|asks|] == asks;
    if denied > 0 && denied == |batch| {
      var feedback := Joined(reasons);
      return RejectTools(if feedback == "" then DECLINED else feedback);
    }
    if modifications == [] {
      return ApproveTools(confirmed);
    }
    return ModifyTools(modifications, confirmed);
  }

  // ---- what becomes of each call ----

  datatype Fate<A> = Runs | RunsWith(args: A) | Refused

  function FateIn<A>(changes: seq<Modification<A>>, call: string): Fate<A> {
    if changes == [] then Runs
    else if changes[0].call == call then
      (match changes[0].action case Deny => Refused case Modify(args) => RunsWith(args))
    else FateIn(changes[1..], call)
  }

  /** What a decision does with a call: one that it does not name runs. */
  function FateOf<A>(d: Decision<A>, call: string): Fate<A> {
    match d
    case RejectTools(_) => Refused
    case ApproveTools(_) => Runs
    case ModifyTools(changes, _) => FateIn(changes, call)
  }

  function Confirmed<A>(d: Decision<A>): seq<string> {
    match d
    case RejectTools(_) => []
    case ApproveTools(confirmed) => confirmed
    case ModifyTools(_, confirmed) => confirmed
  }

  /** What one answer asks for. */
  function Wanted<A>(answer: Answer<A>): Fate<A> {
    if !Approves(answer) then Refused else if answer.edited.Some? then RunsWith(answer.edited.value) else Runs
  }

  predicate Distinct(ids: seq<string>) { forall i, j :: 0 <= i < j < |ids| ==> ids[i] != ids[j] }

  function CallsOf(asks: seq<Ask>): (r: seq<string>)
    ensures |r| == |asks|
  {
    seq(|asks|, i requires 0 <= i < |asks| => asks[i].call)
  }

  /** Distinct calls of a batch were asked about. */
  predicate AskedWithin(asks: seq<Ask>, batch: seq<string>) {
    Distinct(CallsOf(asks)) && Distinct(batch) && forall i :: 0 <= i < |asks| ==> asks[i].call in batch
  }

  lemma {:induction false} FateOfAppended<A>(a: seq<Modification<A>>, b: seq<Modification<A>>, call: string)
    ensures FateIn(a + b, call) ==
            if exists i :: 0 <= i < |a| && a[i].call == call then FateIn(a, call) else FateIn(b, call)
  {
    if a == [] {
      assert a + b == b;
    } else {
      assert (a + b)[1..] == a[1..] + b;
      FateOfAppended(a[1..], b, call);
      if i :| 0 <= i < |a| && a[i].call == call && a[0].call != call { assert a[1..][i - 1].call == call; }
    }
  }

  /** Only calls that were asked about are named. */
  lemma {:induction false} ChangesName<A>(asks: seq<Ask>, answers: seq<Answer<A>>)
    ensures forall i :: 0 <= i < |AllChanges(asks, answers)| ==> AllChanges(asks, answers)[i].call in CallsOf(asks)
  {
    if asks != [] {
      var n := |asks| - 1;
      ChangesName(asks[..n], answers);
      assert CallsOf(asks) == CallsOf(asks[..n]) + [asks[n].call];
    }
  }

  lemma {:induction false} UnnamedRuns<A>(changes: seq<Modification<A>>, call: string)
    requires forall i :: 0 <= i < |changes| ==> changes[i].call != call
    ensures FateIn(changes, call) == Runs
  {
    if changes != [] { UnnamedRuns(changes[1..], call); }
  }

  lemma {:induction false} ChangesAsWanted<A>(asks: seq<Ask>, answers: seq<Answer<A>>, i: nat)
    requires Distinct(CallsOf(asks)) && i < |asks|
    ensures FateIn(AllChanges(asks, answers), asks[i].call) == Wanted(AnswerTo(answers, i))
    decreases |asks|
  {
    var n := |asks| - 1;
    var rest, call := asks[..n], asks[i].call;
    var before, last := AllChanges(rest, answers), Changes(asks[n], AnswerTo(answers, n));
    DistinctRest(asks);
    ChangesName(rest, answers);
    FateOfAppended(before, last, call);
    if i == n {
      assert call !in CallsOf(rest);
    } else {
      ChangesAsWanted(rest, answers, i);
      assert call in CallsOf(rest) by { assert CallsOf(rest)[i] == call; }
      UnnamedRuns(last, call);
      if forall k :: 0 <= k < |before| ==> before[k].call != call { UnnamedRuns(before, call); }
    }
  }

  /** The last call is not among the others. */
  lemma DistinctRest(asks: seq<Ask>)
    requires asks != [] && Distinct(CallsOf(asks))
    ensures var n := |asks| - 1; Distinct(CallsOf(asks[..n])) && asks[n].call !in CallsOf(asks[..n])
  {
    var n := |asks| - 1;
    assert CallsOf(asks)[n] == asks[n].call;
    assert forall k :: 0 <= k < n ==> CallsOf(asks[..n])[k] == CallsOf(asks)[k];
  }

  // ---- counting the refusals ----

  function Denied<A>(asks: seq<Ask>, answers: seq<Answer<A>>): set<string> {
    set i | 0 <= i < |asks| && !Approves(AnswerTo(answers, i)) :: asks[i].call
  }

  lemma {:induction false} CountIsSize<A>(asks: seq<Ask>, answers: seq<Answer<A>>)
    requires Distinct(CallsOf(asks))
    ensures |Denied(asks, answers)| == CountDenied(asks, answers)
  {
    if asks != [] {
      var n := |asks| - 1;
      var rest, call := asks[..n], asks[n].call;
      DistinctRest(asks);
      CountIsSize(rest, answers);
      forall k | 0 <= k < n ensures rest[k].call != call {
        assert CallsOf(rest)[k] in CallsOf(rest);
      }
      assert call !in Denied(rest, answers);
      if Approves(AnswerTo(answers, n)) {
        assert Denied(asks, answers) == Denied(rest, answers);
      } else {
        assert Denied(asks, answers) == Denied(rest, answers) + {call};
      }
    } else {
      assert Denied(asks, answers) == {};
    }
  }

  function Members(ids: seq<string>): set<string> { set id | id in ids }

  lemma {:induction false} DistinctSize(ids: seq<string>)
    requires Distinct(ids)
    ensures |Members(ids)| == |ids|
  {
    if ids != [] {
      var n := |ids| - 1;
      DistinctSize(ids[..n]);
      assert Members(ids) == Members(ids[..n]) + {ids[n]};
    } else {
      assert Members(ids) == {};
    }
  }

  lemma SameSizeSame(a: set<string>, b: set<string>)
    requires a <= b && |a| == |b|
    ensures a == b
  {
    assert b == a + (b - a);
    assert |b| == |a| + |b - a|;
  }

  /** As many refusals as calls in the batch are a refusal of every call. */
  lemma AllDeniedByCount<A>(asks: seq<Ask>, answers: seq<Answer<A>>, batch: seq<string>)
    requires AskedWithin(asks, batch)
    ensures CountDenied(asks, answers) == |batch| <==> Denied(asks, answers) == Members(batch)
  {
    CountIsSize(asks, answers);
    DistinctSize(batch);
    if CountDenied(asks, answers) == |batch| { SameSizeSame(Denied(asks, answers), Members(batch)); }
  }

  // ---- the decision ----

  lemma OneAsk(asks: seq<Ask>, i: nat, k: nat)
    requires Distinct(CallsOf(asks)) && i < |asks| && k < |asks| && asks[i].call == asks[k].call
    ensures i == k
  {
    var calls := CallsOf(asks);
    assert calls[i] == calls[k];
  }

  lemma DeniedIsRefused<A>(asks: seq<Ask>, answers: seq<Answer<A>>, i: nat)
    requires Distinct(CallsOf(asks)) && i < |asks|
    ensures asks[i].call in Denied(asks, answers) <==> !Approves(AnswerTo(answers, i))
  {
    if asks[i].call in Denied(asks, answers) {
      var k: nat :| k < |asks| && !Approves(AnswerTo(answers, k)) && asks[k].call == asks[i].call;
      OneAsk(asks, i, k);
    }
  }

  /** The one decision does with each call that was asked about what its own answer says. */
  lemma EachCallAsAnswered<A>(asks: seq<Ask>, answers: seq<Answer<A>>, batch: seq<string>, i: nat)
    requires AskedWithin(asks, batch) && i < |asks|
    ensures FateOf(Decided(asks, answers, batch), asks[i].call) == Wanted(AnswerTo(answers, i))
  {
    AllDeniedByCount(asks, answers, batch);
    ChangesAsWanted(asks, answers, i);
    DeniedIsRefused(asks, answers, i);
    assert asks[i].call in Members(batch);
  }

  /** A call of the batch without a question runs. */
  lemma UnaskedRuns<A>(asks: seq<Ask>, answers: seq<Answer<A>>, batch: seq<string>, call: string)
    requires AskedWithin(asks, batch) && call in batch && call !in CallsOf(asks)
    ensures FateOf(Decided(asks, answers, batch), call) == Runs
  {
    AllDeniedByCount(asks, answers, batch);
    ChangesName(asks, answers);
    UnnamedRuns(AllChanges(asks, answers), call);
    assert forall i :: 0 <= i < |asks| ==> asks[i].call == CallsOf(asks)[i];
    assert call in Members(batch) && call !in Denied(asks, answers);
  }

  /** A call that the decision refuses is one that a person refused. */
  lemma RefusedWasDenied<A>(asks: seq<Ask>, answers: seq<Answer<A>>, batch: seq<string>, call: string)
    requires AskedWithin(asks, batch) && call in batch && FateOf(Decided(asks, answers, batch), call) == Refused
    ensures call in Denied(asks, answers)
  {
    if call in CallsOf(asks) {
      var i: nat :| i < |asks| && CallsOf(asks)[i] == call;
      EachCallAsAnswered(asks, answers, batch, i);
      DeniedIsRefused(asks, answers, i);
    } else {
      UnaskedRuns(asks, answers, batch, call);
    }
  }

  /** The batch is refused as a whole exactly when it has calls and each of them was refused. */
  lemma RejectsExactlyWhenAllRefused<A>(asks: seq<Ask>, answers: seq<Answer<A>>, batch: seq<string>)
    requires AskedWithin(asks, batch)
    ensures Decided(asks, answers, batch).RejectTools? <==>
            batch != [] && forall call :: call in batch ==> FateOf(Decided(asks, answers, batch), call) == Refused
  {
    var d := Decided(asks, answers, batch);
    AllDeniedByCount(asks, answers, batch);
    if batch != [] && forall call :: call in batch ==> FateOf(d, call) == Refused {
      forall call | call in batch ensures call in Denied(asks, answers) {
        RefusedWasDenied(asks, answers, batch, call);
      }
      forall call | call in Denied(asks, answers) ensures call in batch {
      }
      assert Denied(asks, answers) == Members(batch);
    }
  }

  /** Each escape that a call asks for is confirmed or not as its own answer says. */
  lemma {:induction false} ConfirmedAre<A>(asks: seq<Ask>, answers: seq<Answer<A>>)
    requires Distinct(CallsOf(asks))
    ensures forall i :: 0 <= i < |asks| ==>
              (asks[i].call in AllConfirmed(asks, answers) <==> Confirms(asks[i], AnswerTo(answers, i)))
    ensures forall call :: call in AllConfirmed(asks, answers) ==> call in CallsOf(asks)
  {
    if asks != [] {
      var n := |asks| - 1;
      assert forall k :: 0 <= k < n ==> CallsOf(asks[..n])[k] == CallsOf(asks)[k];
      ConfirmedAre(asks[..n], answers);
      assert CallsOf(asks) == CallsOf(asks[..n]) + [asks[n].call];
      forall i | 0 <= i < |asks|
        ensures asks[i].call in AllConfirmed(asks, answers) <==> Confirms(asks[i], AnswerTo(answers, i))
      {
        assert i < n ==> CallsOf(asks)[i] != CallsOf(asks)[n];
        if i == n { assert asks[n].call !in CallsOf(asks[..n]); } else { assert asks[..n][i] == asks[i]; }
      }
    }
  }

  /** The confirmed escapes are exactly those of calls that were approved and confirmed. */
  lemma ConfirmedExactly<A>(asks: seq<Ask>, answers: seq<Answer<A>>, batch: seq<string>, i: nat)
    requires AskedWithin(asks, batch) && i < |asks|
    ensures asks[i].call in Confirmed(Decided(asks, answers, batch)) <==> Confirms(asks[i], AnswerTo(answers, i))
  {
    ConfirmedAre(asks, answers);
    AllDeniedByCount(asks, answers, batch);
    DeniedIsRefused(asks, answers, i);
    assert asks[i].call in Members(batch);
  }
}
