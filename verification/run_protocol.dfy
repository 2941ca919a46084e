/**
 * The client's side of one AG-UI run: what a well-formed event stream is.
 *
 * `WellFormedRun` says it event by event over the whole stream; `Run` is an
 * automaton that decides it from left to right. `AutomatonDecides` shows the two
 * agree on every stream.
 */
module RunProtocol {
  import opened Common

  datatype Usage = Usage(input: int, output: int, total: int, cached: int, reasoning: Option<int>)

  datatype ErrorCode =
    | ContentMismatch
    | ToolLifecycle
    | ToolInputInvalid
    | TurnPaused
    | TurnStopped(reason: string)
    | TurnError
    | StreamIncomplete
    | CallerCode(text: string)

  datatype Outcome = RunSuccess | RunInterrupted(interrupts: seq<string>)

  datatype WireEvent =
    | RunStarted(threadId: string, runId: string)
    | StepStarted(iteration: int)
    | StepFinished(iteration: int)
    | TextStart(messageId: string)
    | TextContent(messageId: string, delta: string)
    | TextEnd(messageId: string)
    | ToolStart(toolCallId: string, toolName: string, parentMessageId: string)
    | ToolArgs(toolCallId: string, delta: string)
    | ToolEnd(toolCallId: string, truncated: bool, inputError: Option<string>)
    | ToolResult(toolCallId: string, content: string, isError: bool)
    | RunFinished(threadId: string, runId: string, result: Option<string>, outcome: Outcome, usage: seq<Usage>)
    | RunError(code: ErrorCode)

  /** What is bracketed by a start and an end event. */
  datatype Key = MessageKey(id: string) | ToolKey(id: string) | StepKey(iteration: int)

  function Opens(e: WireEvent): Option<Key> {
    match e
    case StepStarted(n) => Some(StepKey(n))
    case TextStart(m) => Some(MessageKey(m))
    case ToolStart(t, _, _) => Some(ToolKey(t))
    case _ => None
  }

  function Closes(e: WireEvent): Option<Key> {
    match e
    case StepFinished(n) => Some(StepKey(n))
    case TextEnd(m) => Some(MessageKey(m))
    case ToolEnd(t, _, _) => Some(ToolKey(t))
    case _ => None
  }

  /** The part an event adds text to, and the text. */
  function Fills(e: WireEvent): Option<(Key, string)> {
    match e
    case TextContent(m, delta) => Some((MessageKey(m), delta))
    case ToolArgs(t, delta) => Some((ToolKey(t), delta))
    case _ => None
  }

  predicate Terminal(e: WireEvent) { e.RunFinished? || e.RunError? }

  // ---- the property, stated over the whole stream ----

  ghost predicate OpenedBefore(log: seq<WireEvent>, i: nat, k: Key)
    requires i <= |log|
  {
    exists j :: 0 <= j < i && Opens(log[j]) == Some(k)
  }

  ghost predicate ClosedBefore(log: seq<WireEvent>, i: nat, k: Key)
    requires i <= |log|
  {
    exists j :: 0 <= j < i && Closes(log[j]) == Some(k)
  }

  ghost predicate AnsweredBefore(log: seq<WireEvent>, i: nat, t: string)
    requires i <= |log|
  {
    exists j :: 0 <= j < i && log[j].ToolResult? && log[j].toolCallId == t
  }

  ghost predicate EndedBefore(log: seq<WireEvent>, i: nat)
    requires i <= |log|
  {
    exists j :: 0 <= j < i && Terminal(log[j])
  }

  /**
   * The event at `i` is in place: the run starts at 0 and nowhere else, nothing
   * follows a terminal event, a part opens once, is filled with non-empty text
   * only while open, closes once, and every part is closed when the run ends. A
   * result belongs to a call that has ended, or that an earlier run announced,
   * and is sent once.
   */
  ghost predicate InPlace(carried: set<string>, log: seq<WireEvent>, i: nat)
    requires i < |log|
  {
    var e := log[i];
    && (e.RunStarted? <==> i == 0)
    && !EndedBefore(log, i)
    && (Opens(e).Some? ==> !OpenedBefore(log, i, Opens(e).value))
    && (Closes(e).Some? ==>
          OpenedBefore(log, i, Closes(e).value) && !ClosedBefore(log, i, Closes(e).value))
    && (Fills(e).Some? ==>
          && Fills(e).value.1 != ""
          && OpenedBefore(log, i, Fills(e).value.0)
          && !ClosedBefore(log, i, Fills(e).value.0))
    && (e.ToolStart? ==>
          OpenedBefore(log, i, MessageKey(e.parentMessageId)) && e.toolCallId !in carried)
    && (e.ToolResult? ==>
          && !AnsweredBefore(log, i, e.toolCallId)
          && (e.toolCallId in carried || ClosedBefore(log, i, ToolKey(e.toolCallId))))
    && (Terminal(e) ==> forall k :: OpenedBefore(log, i, k) ==> ClosedBefore(log, i, k))
  }

  ghost predicate WellFormedRun(carried: set<string>, log: seq<WireEvent>) {
    forall i :: 0 <= i < |log| ==> InPlace(carried, log, i)
  }

  // ---- the automaton ----

  datatype Client = Client(
    started: bool, ended: bool, parts: map<Key, Part>, answered: set<string>)

  /** A part the client has seen start: whether it has ended, and its text so far. */
  datatype Part = Part(closed: bool, text: string)

  const FRESH_CLIENT := Client(false, false, map[], {})

  predicate Open(c: Client, k: Key) { k in c.parts && !c.parts[k].closed }

  predicate Done(c: Client, k: Key) { k in c.parts && c.parts[k].closed }

  predicate Allowed(carried: set<string>, c: Client, e: WireEvent) {
    if e.RunStarted? then !c.started && !c.ended
    else
      && c.started
      && !c.ended
      && (Opens(e).Some? ==> Opens(e).value !in c.parts)
      && (Closes(e).Some? ==> Open(c, Closes(e).value))
      && (Fills(e).Some? ==> Fills(e).value.1 != "" && Open(c, Fills(e).value.0))
      && (e.ToolStart? ==> MessageKey(e.parentMessageId) in c.parts && e.toolCallId !in carried)
      && (e.ToolResult? ==>
            && e.toolCallId !in c.answered
            && (e.toolCallId in carried || Done(c, ToolKey(e.toolCallId))))
      && (Terminal(e) ==> forall k :: k in c.parts ==> c.parts[k].closed)
  }

  function Advance(c: Client, e: WireEvent): Client {
    Client(
      c.started || e.RunStarted?,
      c.ended || Terminal(e),
      if Opens(e).Some? then c.parts[Opens(e).value := Part(false, "")]
      else if Closes(e).Some? && Closes(e).value in c.parts then
        c.parts[Closes(e).value := c.parts[Closes(e).value].(closed := true)]
      else if Fills(e).Some? && Fills(e).value.0 in c.parts then
        c.parts[Fills(e).value.0 :=
                  c.parts[Fills(e).value.0].(text := c.parts[Fills(e).value.0].text + Fills(e).value.1)]
      else c.parts,
      if e.ToolResult? then c.answered + {e.toolCallId} else c.answered)
  }

  /** The client after `log`, or `None` when some event of it was out of place. */
  function Run(carried: set<string>, log: seq<WireEvent>): Option<Client> {
    if log == [] then Some(FRESH_CLIENT)
    else
      var before := Run(carried, log[..|log| - 1]);
      var e := log[|log| - 1];
      if before.Some? && Allowed(carried, before.value, e) then Some(Advance(before.value, e)) else None
  }

  /** Text the client has received for a part, in order. */
  function Received(log: seq<WireEvent>, k: Key): string {
    if log == [] then ""
    else
      var last := log[|log| - 1];
      Received(log[..|log| - 1], k) +
      (if Fills(last).Some? && Fills(last).value.0 == k then Fills(last).value.1 else "")
  }

  /** The automaton's state is a summary of the stream. */
  ghost predicate Summarises(c: Client, log: seq<WireEvent>) {
    && (c.started <==> |log| > 0)
    && (c.ended <==> EndedBefore(log, |log|))
    && (forall k :: PartSummarised(c, log, k))
    && (forall t :: t in c.answered <==> AnsweredBefore(log, |log|, t))
  }

  ghost predicate PartSummarised(c: Client, log: seq<WireEvent>, k: Key) {
    && (k in c.parts <==> OpenedBefore(log, |log|, k))
    && (Done(c, k) <==> ClosedBefore(log, |log|, k))
    && Received(log, k) == (if k in c.parts then c.parts[k].text else "")
  }

  /** What is before position `i` does not depend on what comes at or after it. */
  lemma BeforeIsLocal(log: seq<WireEvent>, i: nat, n: nat)
    requires i <= n <= |log|
    ensures EndedBefore(log[..n], i) <==> EndedBefore(log, i)
    ensures forall k :: OpenedBefore(log[..n], i, k) <==> OpenedBefore(log, i, k)
    ensures forall k :: ClosedBefore(log[..n], i, k) <==> ClosedBefore(log, i, k)
    ensures forall t :: AnsweredBefore(log[..n], i, t) <==> AnsweredBefore(log, i, t)
  {
    var cut := log[..n];
    assert forall j :: 0 <= j < i ==> cut[j] == log[j];
    if EndedBefore(log, i) {
      var j :| 0 <= j < i && Terminal(log[j]);
      assert Terminal(cut[j]);
    }
    forall k | OpenedBefore(log, i, k) ensures OpenedBefore(cut, i, k) {
      var j :| 0 <= j < i && Opens(log[j]) == Some(k);
      assert Opens(cut[j]) == Some(k);
    }
    forall k | ClosedBefore(log, i, k) ensures ClosedBefore(cut, i, k) {
      var j :| 0 <= j < i && Closes(log[j]) == Some(k);
      assert Closes(cut[j]) == Some(k);
    }
    forall t | AnsweredBefore(log, i, t) ensures AnsweredBefore(cut, i, t) {
      var j :| 0 <= j < i && log[j].ToolResult? && log[j].toolCallId == t;
      assert cut[j].ToolResult?;
    }
  }

  lemma InPlaceIsLocal(carried: set<string>, log: seq<WireEvent>, i: nat, n: nat)
    requires i < n <= |log|
    ensures InPlace(carried, log[..n], i) <==> InPlace(carried, log, i)
  {
    BeforeIsLocal(log, i, n);
    assert log[..n][i] == log[i];
  }

  /** What is before the end of a stream: what was before its last event, or that event. */
  lemma BeforeEnd(log: seq<WireEvent>)
    requires log != []
    ensures var n := |log| - 1; var cut := log[..n]; var e := log[n];
            && (EndedBefore(log, |log|) <==> EndedBefore(cut, n) || Terminal(e))
            && (forall k :: OpenedBefore(log, |log|, k) <==> OpenedBefore(cut, n, k) || Opens(e) == Some(k))
            && (forall k :: ClosedBefore(log, |log|, k) <==> ClosedBefore(cut, n, k) || Closes(e) == Some(k))
            && (forall t :: AnsweredBefore(log, |log|, t) <==>
                              AnsweredBefore(cut, n, t) || (e.ToolResult? && e.toolCallId == t))
  {
    var n := |log| - 1;
    BeforeIsLocal(log, n, n);
    assert EndedBefore(log, |log|) <==> EndedBefore(log, n) || Terminal(log[n]);
    forall k ensures OpenedBefore(log, |log|, k) <==> OpenedBefore(log, n, k) || Opens(log[n]) == Some(k) {
    }
    forall k ensures ClosedBefore(log, |log|, k) <==> ClosedBefore(log, n, k) || Closes(log[n]) == Some(k) {
    }
    forall t ensures AnsweredBefore(log, |log|, t) <==>
                     AnsweredBefore(log, n, t) || (log[n].ToolResult? && log[n].toolCallId == t) {
    }
  }

  /** How one allowed event changes what the client knows of a part. */
  lemma PartAdvances(carried: set<string>, c: Client, e: WireEvent, k: Key)
    requires Allowed(carried, c, e)
    ensures var d := Advance(c, e);
            && (k in d.parts <==> k in c.parts || Opens(e) == Some(k))
            && (Done(d, k) <==> Done(c, k) || Closes(e) == Some(k))
            && (k in d.parts ==>
                  d.parts[k].text ==
                  (if k in c.parts then c.parts[k].text else "") +
                  (if Fills(e).Some? && Fills(e).value.0 == k then Fills(e).value.1 else ""))
            && (Fills(e).Some? && Fills(e).value.0 == k ==> k in d.parts)
  {
    assert "" + "" == "";
    if k in c.parts { assert c.parts[k].text + "" == c.parts[k].text; }
  }

  lemma PartSummaryAdvances(carried: set<string>, c: Client, log: seq<WireEvent>, k: Key)
    requires log != []
    requires PartSummarised(c, log[..|log| - 1], k)
    requires Allowed(carried, c, log[|log| - 1])
    ensures PartSummarised(Advance(c, log[|log| - 1]), log, k)
  {
    BeforeEnd(log);
    PartAdvances(carried, c, log[|log| - 1], k);
  }

  /** One more event keeps the summary. */
  lemma SummaryAdvances(carried: set<string>, c: Client, log: seq<WireEvent>)
    requires log != []
    requires Summarises(c, log[..|log| - 1])
    requires Allowed(carried, c, log[|log| - 1])
    ensures Summarises(Advance(c, log[|log| - 1]), log)
  {
    BeforeEnd(log);
    var d := Advance(c, log[|log| - 1]);
    forall k ensures PartSummarised(d, log, k) {
      PartSummaryAdvances(carried, c, log, k);
    }
  }

  /** With a summary of what came before, the automaton admits exactly an event in its place. */
  lemma AllowedIsInPlace(carried: set<string>, c: Client, log: seq<WireEvent>)
    requires log != []
    requires Summarises(c, log[..|log| - 1])
    ensures Allowed(carried, c, log[|log| - 1]) <==> InPlace(carried, log, |log| - 1)
  {
    var n := |log| - 1;
    BeforeIsLocal(log, n, n);
    var e := log[n];
    assert c.started <==> n > 0;
    assert c.ended <==> EndedBefore(log, n);
    forall k
      ensures k in c.parts <==> OpenedBefore(log, n, k)
      ensures Done(c, k) <==> ClosedBefore(log, n, k)
    {
      assert PartSummarised(c, log[..n], k);
    }
    if forall k :: OpenedBefore(log, n, k) ==> ClosedBefore(log, n, k) {
      forall k | k in c.parts ensures c.parts[k].closed {
        assert Done(c, k);
      }
    } else {
      var k :| OpenedBefore(log, n, k) && !ClosedBefore(log, n, k);
      assert k in c.parts && !Done(c, k);
    }
  }

  /** The automaton accepts exactly the well-formed streams, and then summarises them. */
  lemma {:induction false} AutomatonDecides(carried: set<string>, log: seq<WireEvent>)
    ensures Run(carried, log).Some? <==> WellFormedRun(carried, log)
    ensures Run(carried, log).Some? ==> Summarises(Run(carried, log).value, log)
  {
    if log == [] {
    } else {
      var n := |log| - 1;
      AutomatonDecides(carried, log[..n]);
      forall i | 0 <= i < n ensures InPlace(carried, log[..n], i) <==> InPlace(carried, log, i) {
        InPlaceIsLocal(carried, log, i, n);
      }
      if Run(carried, log[..n]).Some? {
        AllowedIsInPlace(carried, Run(carried, log[..n]).value, log);
        if Run(carried, log).Some? {
          SummaryAdvances(carried, Run(carried, log[..n]).value, log);
        }
      }
      if WellFormedRun(carried, log) {
        forall i | 0 <= i < n ensures InPlace(carried, log[..n], i) {
          assert InPlace(carried, log, i);
        }
        assert InPlace(carried, log, n);
      } else if WellFormedRun(carried, log[..n]) {
        forall i | 0 <= i < n ensures InPlace(carried, log, i) {
          assert InPlace(carried, log[..n], i);
        }
        assert !InPlace(carried, log, n);
      }
    }
  }
}
