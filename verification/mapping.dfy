/**
 * What the event mapper computes, as functions on its state.
 *
 * `State` holds the mapper's fields plus `log`, every event it has returned so
 * far. The class in module `EventMapper` is proved to change its fields exactly
 * as these functions say; the properties of whole runs are proved here.
 */
module Mapping {
  import opened Common
  import opened RunProtocol

  // ---- native events ----

  datatype Kind =
    | TurnStarted
    | IterationStarted(iteration: int)
    | IterationCompleted(iteration: int)
    | MessageStarted(messageId: string)
    | TextDelta(messageId: string, text: string)
    | MessageCompleted(messageId: string, content: Option<string>, usage: Option<Usage>)
    | ToolInputStarted(toolUseId: string, toolName: string, parent: Option<string>)
    | ToolInputDelta(toolUseId: string, partialJson: string)
    | ToolInputCompleted(toolUseId: string, input: Option<Json>, truncated: bool, inputError: Option<string>)
    | ToolExecuting(toolUseId: string, toolName: string, input: Option<Json>)
    | ToolCompleted(toolUseId: string, toolName: string, result: string, isError: bool)
    | TurnCompleted(stopReason: Option<string>, result: string)
    | TurnFailed
    | TurnPaused(pause: Pause)
    | Internal  // every kind that is not part of the public projection

  /** The JSON text of a tool input; an input that has none is `None` where it occurs. */
  type Json = s: string | s != "" witness "{}"

  datatype Pause = Pause(checkpointId: string, reason: string, retryable: Option<bool>)

  /** `depth` is 0 when the event carries no lineage; `seq` is `None` for an event that is not durable. */
  datatype NativeEvent = NativeEvent(
    kind: Kind, depth: nat, sessionId: string, turnId: Option<string>, seqNo: Option<int>)

  // ---- the mapper's state ----

  /** `parses` decides whether a text is JSON; it is a parameter of the model. */
  datatype Config = Config(
    threadId: string, runId: string, sessionId: Option<string>, turnId: Option<string>,
    carried: seq<string>, suppressed: set<string>, parses: string -> bool)

  datatype MessageState = MessageState(text: string, closed: bool, completed: bool)

  datatype ToolState = ToolState(
    arguments: string, closed: bool, resultSent: bool, truncated: bool, inputError: Option<string>)

  /** The parts announced so far, and `log`, every event returned so far. */
  datatype Parts = Parts(
    messages: Table<string, MessageState>, tools: Table<string, ToolState>, steps: Table<int, bool>,
    toolNames: map<string, string>, lastMessageId: Option<string>, log: seq<WireEvent>)

  datatype State = State(
    turnId: Option<string>, started: bool, terminal: bool, closed: bool, pause: Option<Pause>,
    seen: set<int>, usage: seq<Usage>, parts: Parts)

  const CARRIED_TOOL := ToolState("", true, false, false, None)
  const NEW_TOOL := ToolState("", false, false, false, None)
  const NEW_MESSAGE := MessageState("", false, false)

  function CarriedTools(ids: seq<string>): (t: Table<string, ToolState>)
    ensures t.Valid()
    ensures forall id :: id in t.items <==> id in ids
    ensures forall id :: id in t.items ==> t.items[id] == CARRIED_TOOL
  {
    if ids == [] then EmptyTable()
    else CarriedTools(ids[..|ids| - 1]).Put(ids[|ids| - 1], CARRIED_TOOL)
  }

  function Initial(cfg: Config): State {
    State(cfg.turnId, false, false, false, None, {}, [],
          Parts(EmptyTable(), CarriedTools(cfg.carried), EmptyTable(), map[], None, []))
  }

  // ---- parts ----

  function Emit(p: Parts, e: WireEvent): Parts { p.(log := p.log + [e]) }

  function StartMessage(p: Parts, id: string): Parts {
    if p.messages.Has(id) then p
    else Emit(p.(messages := p.messages.Put(id, NEW_MESSAGE), lastMessageId := Some(id)), TextStart(id))
  }

  function EndMessage(p: Parts, id: string): Parts {
    if !p.messages.Has(id) || p.messages.items[id].closed then p
    else Emit(p.(messages := p.messages.Put(id, p.messages.items[id].(closed := true))), TextEnd(id))
  }

  /** Add `delta` to a message; a closed one takes no more text. */
  function AppendText(p: Parts, id: string, delta: string): Parts {
    if !p.messages.Has(id) || p.messages.items[id].closed || delta == "" then p
    else
      var message := p.messages.items[id];
      Emit(p.(messages := p.messages.Put(id, message.(text := message.text + delta))), TextContent(id, delta))
  }

  function EndTool(p: Parts, id: string): Parts {
    if !p.tools.Has(id) || p.tools.items[id].closed then p
    else
      var tool := p.tools.items[id];
      Emit(p.(tools := p.tools.Put(id, tool.(closed := true))),
           ToolEnd(id, tool.truncated, if tool.truncated then tool.inputError else None))
  }

  function AppendArguments(p: Parts, id: string, delta: string): Parts {
    if !p.tools.Has(id) || p.tools.items[id].closed || delta == "" then p
    else
      var tool := p.tools.items[id];
      Emit(p.(tools := p.tools.Put(id, tool.(arguments := tool.arguments + delta))), ToolArgs(id, delta))
  }

  /** Announce a call. `uuid` is the message id made up when there is no message to belong to. */
  function StartTool(p: Parts, id: string, name: string, messageId: Option<string>, uuid: string): Parts {
    if p.tools.Has(id) then p
    else
      var parent := messageId.GetOr(p.lastMessageId.GetOr(uuid));
      var synthetic := messageId.None? && !p.messages.Has(parent);
      var known := StartMessage(p, parent);
      AddTool(if synthetic then EndMessage(known, parent) else known, id, name, parent)
  }

  function AddTool(p: Parts, id: string, name: string, parent: string): Parts {
    Emit(p.(tools := p.tools.Put(id, NEW_TOOL), toolNames := p.toolNames[id := name]),
         ToolStart(id, name, parent))
  }

  function StartStep(p: Parts, n: int): Parts {
    if p.steps.Has(n) then p
    else Emit(p.(steps := p.steps.Put(n, false)), StepStarted(n))
  }

  function EndStep(p: Parts, n: int): Parts {
    if !p.steps.Has(n) || p.steps.items[n] then p
    else Emit(p.(steps := p.steps.Put(n, true)), StepFinished(n))
  }

  // ---- closing what is open ----

  /** A call whose arguments were streamed and are not JSON is marked before it is closed. */
  function MarkTool(parses: string -> bool, p: Parts, id: string): Parts {
    if !p.tools.Has(id) || p.tools.items[id].closed then p
    else
      var tool := p.tools.items[id];
      if tool.arguments != "" && !parses(tool.arguments) then
        p.(tools := p.tools.Put(id, tool.(truncated := true)))
      else p
  }

  /** Close these calls, in order. */
  function CloseTools(parses: string -> bool, p: Parts, ids: seq<string>): Parts {
    if ids == [] then p
    else
      var before := CloseTools(parses, p, ids[..|ids| - 1]);
      EndTool(MarkTool(parses, before, ids[|ids| - 1]), ids[|ids| - 1])
  }

  function CloseMessages(p: Parts, ids: seq<string>): Parts {
    if ids == [] then p else EndMessage(CloseMessages(p, ids[..|ids| - 1]), ids[|ids| - 1])
  }

  function CloseSteps(p: Parts, ns: seq<int>): Parts {
    if ns == [] then p else EndStep(CloseSteps(p, ns[..|ns| - 1]), ns[|ns| - 1])
  }

  /** Every call, then every message, then every step, each in the order it was announced. */
  function CloseOpenParts(parses: string -> bool, p: Parts): Parts {
    CloseSteps(CloseMessages(CloseTools(parses, p, p.tools.keys), p.messages.keys), p.steps.keys)
  }

  // ---- ending a run ----

  /** What decides whether an event is admitted: the turn followed and the numbers seen. */
  function Filter(st: State): (Option<string>, set<int>) { (st.turnId, st.seen) }

  function StartRun(cfg: Config, st: State): (r: State)
    ensures Filter(r) == Filter(st) && (st.terminal ==> r.terminal)
  {
    if st.started || st.terminal then st
    else st.(started := true, parts := Emit(st.parts, RunStarted(cfg.threadId, cfg.runId)))
  }

  /** Close the parts and then the run, with `e` as its last event. */
  function EndRun(cfg: Config, st: State, e: WireEvent): (r: State)
    ensures Filter(r) == Filter(st) && (st.terminal ==> r.terminal)
  {
    st.(terminal := true, closed := true, parts := Emit(CloseOpenParts(cfg.parses, st.parts), e))
  }

  function Fail(cfg: Config, st: State, code: ErrorCode): (r: State)
    ensures Filter(r) == Filter(st) && (st.terminal ==> r.terminal)
  {
    if st.closed then st else EndRun(cfg, StartRun(cfg, st), RunError(code))
  }

  /** The end of the native stream is never success by itself. */
  function Finish(cfg: Config, st: State): (r: State)
    ensures Filter(r) == Filter(st) && (st.terminal ==> r.terminal)
  {
    Fail(cfg, st, if st.pause.Some? then ErrorCode.TurnPaused else StreamIncomplete)
  }

  function Finished(cfg: Config, st: State, result: Option<string>, outcome: Outcome): WireEvent {
    RunFinished(cfg.threadId, cfg.runId, result, outcome, st.usage)
  }

  function YieldToClient(cfg: Config, st: State): (r: State)
    ensures Filter(r) == Filter(st) && (st.terminal ==> r.terminal)
  {
    if st.closed then st
    else EndRun(cfg, StartRun(cfg, st), Finished(cfg, st, None, RunSuccess))
  }

  /** An interrupted run needs an interrupt: with none the mapper throws and nothing changes. */
  function Interrupt(cfg: Config, st: State, interrupts: seq<string>): (r: State)
    ensures Filter(r) == Filter(st) && (st.terminal ==> r.terminal)
  {
    if st.closed || interrupts == [] then st
    else EndRun(cfg, StartRun(cfg, st), Finished(cfg, st, None, RunInterrupted(interrupts)))
  }

  // ---- tool input ----

  /** Record what a completed input said of itself, and whether its arguments can be read. */
  function JudgeInput(parses: string -> bool, p: Parts, id: string, truncated: bool,
                      inputError: Option<string>): Parts {
    if !p.tools.Has(id) || p.tools.items[id].closed then p
    else
      var tool := p.tools.items[id];
      var cut := truncated || (tool.arguments != "" && !parses(tool.arguments));
      p.(tools := p.tools.Put(id, tool.(truncated := cut, inputError := inputError)))
  }

  /** Close a judged call, with its whole input when nothing was streamed; an input with no JSON ends the run. */
  function CloseInput(cfg: Config, st: State, id: string, input: Option<Json>): (r: State)
    ensures Filter(r) == Filter(st) && (st.terminal ==> r.terminal)
  {
    if !st.parts.tools.Has(id) then st
    else
      var tool := st.parts.tools.items[id];
      if tool.truncated || tool.arguments != "" then st.(parts := EndTool(st.parts, id))
      else if input.Some? then st.(parts := EndTool(AppendArguments(st.parts, id, input.value), id))
      else
        var marked := st.parts.(tools := st.parts.tools.Put(id, tool.(truncated := true)));
        Fail(cfg, st.(parts := marked), ToolInputInvalid)
  }

  function CompleteToolInput(cfg: Config, st: State, id: string, input: Option<Json>, truncated: bool,
                             inputError: Option<string>): (r: State)
    ensures Filter(r) == Filter(st) && (st.terminal ==> r.terminal)
  {
    if !st.parts.tools.Has(id) || st.parts.tools.items[id].closed then st
    else CloseInput(cfg, st.(parts := JudgeInput(cfg.parses, st.parts, id, truncated, inputError)), id, input)
  }

  function StartToolIn(st: State, id: string, name: string, messageId: Option<string>, uuid: string): (r: State)
    ensures Filter(r) == Filter(st) && (st.terminal ==> r.terminal)
  {
    st.(parts := StartTool(st.parts, id, name, messageId, uuid))
  }

  function AnnounceTool(cfg: Config, st: State, id: string, name: string, input: Option<Json>,
                        uuid: string): (r: State)
    ensures Filter(r) == Filter(st) && (st.terminal ==> r.terminal)
  {
    if st.closed || st.parts.tools.Has(id) then st
    else CompleteToolInput(cfg, StartToolIn(StartRun(cfg, st), id, name, None, uuid), id, input, false, None)
  }

  // ---- mapping one native event ----

  /** Whether the event is the adapted turn's, given the turn followed so far. */
  predicate Ours(cfg: Config, turn: Option<string>, ev: NativeEvent) {
    && ev.depth == 0
    && (cfg.sessionId.Some? ==> ev.sessionId == cfg.sessionId.value)
    && ev.turnId.Some?
    && (turn.None? || turn == ev.turnId)
  }

  /** The final content of a message is known: what is missing of it goes out, and the message ends. */
  function CompleteMessage(cfg: Config, st: State, id: string, content: Option<string>,
                           usage: Option<Usage>): (r: State)
    ensures Filter(r) == Filter(st) && (st.terminal ==> r.terminal)
  {
    if !st.parts.messages.Has(id) || st.parts.messages.items[id].completed then st
    else
      var message := st.parts.messages.items[id];
      var done := st.parts.(messages := st.parts.messages.Put(id, message.(completed := true)));
      if !message.closed && content.Some? && !(message.text <= content.value) then
        Fail(cfg, st.(parts := done), ContentMismatch)
      else
        var rest := if content.Some? && !message.closed then content.value[|message.text|..] else "";
        var ended := EndMessage(AppendText(done, id, rest), id);
        st.(parts := ended, usage := if usage.Some? then st.usage + [usage.value] else st.usage)
  }

  function CompleteTool(cfg: Config, p: Parts, id: string, result: string, isError: bool): Parts {
    if !p.tools.Has(id) || p.tools.items[id].resultSent then p
    else SendResult(cfg, EndTool(p, id), id, result, isError)
  }

  function SendResult(cfg: Config, p: Parts, id: string, result: string, isError: bool): Parts {
    if !p.tools.Has(id) then p
    else
      var sent := p.(tools := p.tools.Put(id, p.tools.items[id].(resultSent := true)));
      if id in cfg.suppressed then sent else Emit(sent, ToolResult(id, result, isError))
  }

  /** When nothing was said before the result, the result becomes a message. */
  function ShowResult(p: Parts, result: string, uuid: string): Parts {
    if p.messages.keys == [] && result != "" then Emit(StartMessage(p, uuid), TextContent(uuid, result)) else p
  }

  function CompleteTurn(cfg: Config, st: State, stopReason: Option<string>, result: string,
                        uuid: string): (r: State)
    ensures Filter(r) == Filter(st) && (st.terminal ==> r.terminal)
  {
    if stopReason == Some("paused") then Fail(cfg, st, ErrorCode.TurnPaused)
    else if stopReason.Some? && stopReason.value != "end_turn" then
      Fail(cfg, st, TurnStopped(stopReason.value))
    else
      EndRun(cfg, st.(parts := ShowResult(st.parts, result, uuid)),
             Finished(cfg, st, Some(result), RunSuccess))
  }

  /** The event's own effect, once it is known to be new and ours and the run has started. */
  function Project(cfg: Config, st: State, kind: Kind, uuid: string): (r: State)
    ensures Filter(r) == Filter(st) && (st.terminal ==> r.terminal)
  {
    match kind
    case TurnStarted => st
    case IterationStarted(n) => st.(parts := StartStep(st.parts, n))
    case IterationCompleted(n) => st.(parts := EndStep(StartStep(st.parts, n), n))
    case MessageStarted(m) => st.(parts := StartMessage(st.parts, m))
    case TextDelta(m, text) => st.(parts := AppendText(StartMessage(st.parts, m), m, text))
    case MessageCompleted(m, content, usage) =>
      CompleteMessage(cfg, st.(parts := StartMessage(st.parts, m)), m, content, usage)
    case ToolInputStarted(t, name, parent) => StartToolIn(st, t, name, parent, uuid)
    case ToolInputDelta(t, json) =>
      if !st.parts.tools.Has(t) then Fail(cfg, st, ToolLifecycle)
      else st.(parts := AppendArguments(st.parts, t, json))
    case ToolInputCompleted(t, input, truncated, error) =>
      if !st.parts.tools.Has(t) then Fail(cfg, st, ToolLifecycle)
      else CompleteToolInput(cfg, st, t, input, truncated, if truncated then error else None)
    case ToolExecuting(t, name, input) =>
      CompleteToolInput(cfg, StartToolIn(st, t, name, None, uuid), t, input, false, None)
    case ToolCompleted(t, name, result, isError) =>
      st.(parts := CompleteTool(cfg, StartTool(st.parts, t, name, None, uuid), t, result, isError))
    case TurnCompleted(stopReason, result) => CompleteTurn(cfg, st, stopReason, result, uuid)
    case TurnFailed => Fail(cfg, st, TurnError)
    case TurnPaused(pause) => st.(terminal := true, pause := Some(pause))
    case Internal => st
  }

  /** Whether an event gets past the filter: public, of this turn, and not a repeat. */
  predicate Admitted(cfg: Config, turn: Option<string>, seen: set<int>, ev: NativeEvent) {
    !ev.kind.Internal? && Ours(cfg, turn, ev) && !(ev.seqNo.Some? && ev.seqNo.value in seen)
  }

  /** The state in which an admitted event takes effect. */
  function Admit(cfg: Config, st: State, ev: NativeEvent): State {
    StartRun(cfg, st.(turnId := ev.turnId,
                      seen := if ev.seqNo.Some? then st.seen + {ev.seqNo.value} else st.seen))
  }

  function MapEvent(cfg: Config, st: State, ev: NativeEvent, uuid: string): State {
    if st.terminal || ev.kind.Internal? || !Ours(cfg, st.turnId, ev) then st
    else if !Admitted(cfg, st.turnId, st.seen, ev) then st.(turnId := ev.turnId)
    else Project(cfg, Admit(cfg, st, ev), ev.kind, uuid)
  }

  // ---- whole runs ----

  datatype Call =
    | CallStart
    | CallMap(ev: NativeEvent, uuid: string)
    | CallAnnounce(toolCallId: string, toolName: string, input: Option<Json>, uuid: string)
    | CallInterrupt(interrupts: seq<string>)
    | CallYield
    | CallFinish
    | CallFail(code: ErrorCode)

  function Apply(cfg: Config, st: State, call: Call): State {
    match call
    case CallStart => StartRun(cfg, st)
    case CallMap(ev, uuid) => MapEvent(cfg, st, ev, uuid)
    case CallAnnounce(t, name, input, uuid) => AnnounceTool(cfg, st, t, name, input, uuid)
    case CallInterrupt(interrupts) => Interrupt(cfg, st, interrupts)
    case CallYield => YieldToClient(cfg, st)
    case CallFinish => Finish(cfg, st)
    case CallFail(code) => Fail(cfg, st, code)
  }

  function ApplyAll(cfg: Config, st: State, calls: seq<Call>): State
    decreases |calls|
  {
    if calls == [] then st else ApplyAll(cfg, Apply(cfg, st, calls[0]), calls[1..])
  }
}
