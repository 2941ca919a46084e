/**
 * The event mapper as an object with fields.
 *
 * Every method changes the fields exactly as the functions of module `Mapping`
 * say and returns exactly the events added to `log`; `MappedRuns` proves what
 * that means for a whole run.
 */
module EventMapper {
  import opened Common
  import opened RunProtocol
  import opened Mapping

  class AGUIEventMapper {
    const cfg: Config
    var turnId: Option<string>
    var started: bool
    var terminal: bool
    var closed: bool
    var pause: Option<Pause>
    var seen: set<int>
    var usage: seq<Usage>
    var messages: Table<string, MessageState>
    var tools: Table<string, ToolState>
    var steps: Table<int, bool>
    var toolNames: map<string, string>
    var lastMessageId: Option<string>
    /** Every event returned so far. */
    ghost var log: seq<WireEvent>

    ghost function PartsView(): Parts
      reads this
    {
      Parts(messages, tools, steps, toolNames, lastMessageId, log)
    }

    ghost function View(): State
      reads this
    {
      State(turnId, started, terminal, closed, pause, seen, usage, PartsView())
    }

    constructor (cfg: Config)
      ensures this.cfg == cfg && View() == Initial(cfg) && log == []
    {
      this.cfg := cfg;
      turnId, started, terminal, closed, pause := cfg.turnId, false, false, false, None;
      seen, usage := {}, [];
      messages, tools, steps := EmptyTable(), EmptyTable(), EmptyTable();
      toolNames, lastMessageId := map[], None;
      log := [];
      new;
      CarryTools();
    }

    /** Calls of an earlier run are held as closed. */
    method CarryTools()
      requires tools == EmptyTable()
      modifies `tools
      ensures tools == CarriedTools(cfg.carried)
    {
      for i := 0 to |cfg.carried|
        invariant tools == CarriedTools(cfg.carried[..i])
      {
        assert cfg.carried[..i + 1][..i] == cfg.carried[..i];
        tools := tools.Put(cfg.carried[i], CARRIED_TOOL);
      }
      assert cfg.carried[..|cfg.carried|] == cfg.carried;
    }

    method Start() returns (events: seq<WireEvent>)
      modifies `started, `log
      ensures View() == StartRun(cfg, old(View())) && log == old(log) + events
    {
      if started || terminal { return []; }
      started := true;
      events := [RunStarted(cfg.threadId, cfg.runId)];
      log := log + events;
    }

    // ---- parts; `base` is what had been returned before the current call, and `sofar` its events up to here ----

    method StartMessage(id: string, ghost base: seq<WireEvent>, sofar: seq<WireEvent>)
      returns (events: seq<WireEvent>)
      requires log == base + sofar
      modifies `messages, `lastMessageId, `log
      ensures PartsView() == Mapping.StartMessage(old(PartsView()), id) && log == base + events
    {
      if messages.Has(id) { return sofar; }
      messages := messages.Put(id, NEW_MESSAGE);
      lastMessageId := Some(id);
      events := sofar + [TextStart(id)];
      log := log + [TextStart(id)];
    }

    method EndMessage(id: string, ghost base: seq<WireEvent>, sofar: seq<WireEvent>)
      returns (events: seq<WireEvent>)
      requires log == base + sofar
      modifies `messages, `log
      ensures PartsView() == Mapping.EndMessage(old(PartsView()), id) && log == base + events
    {
      if !messages.Has(id) || messages.items[id].closed { return sofar; }
      messages := messages.Put(id, messages.items[id].(closed := true));
      events := sofar + [TextEnd(id)];
      log := log + [TextEnd(id)];
    }

    method AddText(id: string, delta: string, ghost base: seq<WireEvent>, sofar: seq<WireEvent>)
      returns (events: seq<WireEvent>)
      requires log == base + sofar
      modifies `messages, `log
      ensures PartsView() == AppendText(old(PartsView()), id, delta) && log == base + events
    {
      if !messages.Has(id) || messages.items[id].closed || delta == "" { return sofar; }
      var message := messages.items[id];
      messages := messages.Put(id, message.(text := message.text + delta));
      events := sofar + [TextContent(id, delta)];
      log := log + [TextContent(id, delta)];
    }

    method StartTool(id: string, name: string, messageId: Option<string>, uuid: string,
                     ghost base: seq<WireEvent>, sofar: seq<WireEvent>)
      returns (events: seq<WireEvent>)
      requires log == base + sofar
      modifies `messages, `lastMessageId, `tools, `toolNames, `log
      ensures log == base + events
      ensures PartsView() == Mapping.StartTool(old(PartsView()), id, name, messageId, uuid)
    {
      if tools.Has(id) { return sofar; }
      var parent := messageId.GetOr(lastMessageId.GetOr(uuid));
      var synthetic := messageId.None? && !messages.Has(parent);
      events := StartMessage(parent, base, sofar);
      if synthetic {
        events := EndMessage(parent, base, events);
      }
      tools := tools.Put(id, NEW_TOOL);
      toolNames := toolNames[id := name];
      events := events + [ToolStart(id, name, parent)];
      log := log + [ToolStart(id, name, parent)];
    }

    method AddArguments(id: string, delta: string, ghost base: seq<WireEvent>, sofar: seq<WireEvent>)
      returns (events: seq<WireEvent>)
      requires log == base + sofar
      modifies `tools, `log
      ensures PartsView() == AppendArguments(old(PartsView()), id, delta) && log == base + events
    {
      if !tools.Has(id) || tools.items[id].closed || delta == "" { return sofar; }
      var tool := tools.items[id];
      tools := tools.Put(id, tool.(arguments := tool.arguments + delta));
      events := sofar + [ToolArgs(id, delta)];
      log := log + [ToolArgs(id, delta)];
    }

    method EndTool(id: string, ghost base: seq<WireEvent>, sofar: seq<WireEvent>)
      returns (events: seq<WireEvent>)
      requires log == base + sofar
      modifies `tools, `log
      ensures PartsView() == Mapping.EndTool(old(PartsView()), id) && log == base + events
    {
      if !tools.Has(id) || tools.items[id].closed { return sofar; }
      var tool := tools.items[id];
      tools := tools.Put(id, tool.(closed := true));
      var e := ToolEnd(id, tool.truncated, if tool.truncated then tool.inputError else None);
      events := sofar + [e];
      log := log + [e];
    }

    method StartStep(n: int, ghost base: seq<WireEvent>, sofar: seq<WireEvent>) returns (events: seq<WireEvent>)
      requires log == base + sofar
      modifies `steps, `log
      ensures PartsView() == Mapping.StartStep(old(PartsView()), n) && log == base + events
    {
      if steps.Has(n) { return sofar; }
      steps := steps.Put(n, false);
      events := sofar + [StepStarted(n)];
      log := log + [StepStarted(n)];
    }

    method EndStep(n: int, ghost base: seq<WireEvent>, sofar: seq<WireEvent>) returns (events: seq<WireEvent>)
      requires log == base + sofar
      modifies `steps, `log
      ensures PartsView() == Mapping.EndStep(old(PartsView()), n) && log == base + events
    {
      if !steps.Has(n) || steps.items[n] { return sofar; }
      steps := steps.Put(n, true);
      events := sofar + [StepFinished(n)];
      log := log + [StepFinished(n)];
    }

    // ---- ending ----

    /** A call whose streamed input does not parse is marked, and its end will say so. */
    method MarkTool(id: string)
      modifies `tools
      ensures PartsView() == Mapping.MarkTool(cfg.parses, old(PartsView()), id)
    {
      if !tools.Has(id) || tools.items[id].closed { return; }
      var tool := tools.items[id];
      if tool.arguments != "" && !cfg.parses(tool.arguments) {
        tools := tools.Put(id, tool.(truncated := true));
      }
    }

    method CloseOpenTools(ghost base: seq<WireEvent>, sofar: seq<WireEvent>) returns (events: seq<WireEvent>)
      requires log == base + sofar
      modifies `tools, `log
      ensures log == base + events
      ensures PartsView() == CloseTools(cfg.parses, old(PartsView()), old(tools.keys))
    {
      ghost var before := PartsView();
      events := sofar;
      var ids := tools.keys;
      for i := 0 to |ids|
        invariant log == base + events
        invariant PartsView() == CloseTools(cfg.parses, before, ids[..i])
      {
        assert ids[..i + 1][..i] == ids[..i];
        MarkTool(ids[i]);
        events := EndTool(ids[i], base, events);
      }
      assert ids[..|ids|] == ids;
    }

    method CloseOpenMessages(ghost base: seq<WireEvent>, sofar: seq<WireEvent>) returns (events: seq<WireEvent>)
      requires log == base + sofar
      modifies `messages, `log
      ensures log == base + events
      ensures PartsView() == CloseMessages(old(PartsView()), old(messages.keys))
    {
      ghost var before := PartsView();
      events := sofar;
      var ids := messages.keys;
      for i := 0 to |ids|
        invariant log == base + events
        invariant PartsView() == CloseMessages(before, ids[..i])
      {
        assert ids[..i + 1][..i] == ids[..i];
        events := EndMessage(ids[i], base, events);
      }
      assert ids[..|ids|] == ids;
    }

    method CloseOpenSteps(ghost base: seq<WireEvent>, sofar: seq<WireEvent>) returns (events: seq<WireEvent>)
      requires log == base + sofar
      modifies `steps, `log
      ensures log == base + events
      ensures PartsView() == CloseSteps(old(PartsView()), old(steps.keys))
    {
      ghost var before := PartsView();
      events := sofar;
      var numbers := steps.keys;
      for i := 0 to |numbers|
        invariant log == base + events
        invariant PartsView() == CloseSteps(before, numbers[..i])
      {
        assert numbers[..i + 1][..i] == numbers[..i];
        events := EndStep(numbers[i], base, events);
      }
      assert numbers[..|numbers|] == numbers;
    }

    method CloseOpenParts(ghost base: seq<WireEvent>, sofar: seq<WireEvent>) returns (events: seq<WireEvent>)
      requires log == base + sofar
      modifies `messages, `tools, `steps, `log
      ensures log == base + events
      ensures PartsView() == Mapping.CloseOpenParts(cfg.parses, old(PartsView()))
    {
      events := CloseOpenTools(base, sofar);
      events := CloseOpenMessages(base, events);
      events := CloseOpenSteps(base, events);
    }

    /** The last steps of every way a run ends: close its parts, then send `last`. */
    method EndRun(last: WireEvent, ghost base: seq<WireEvent>, sofar: seq<WireEvent>)
      returns (events: seq<WireEvent>)
      requires log == base + sofar
      modifies `messages, `tools, `steps, `terminal, `closed, `log
      ensures View() == Mapping.EndRun(cfg, old(View()), last) && log == base + events
    {
      events := CloseOpenParts(base, sofar);
      terminal, closed := true, true;
      events := events + [last];
      log := log + [last];
    }

    method Fail(code: ErrorCode) returns (events: seq<WireEvent>)
      modifies this
      ensures View() == Mapping.Fail(cfg, old(View()), code) && log == old(log) + events
    {
      if closed { return []; }
      ghost var base := log;
      events := Start();
      events := EndRun(RunError(code), base, events);
    }

    method Finish() returns (events: seq<WireEvent>)
      modifies this
      ensures View() == Mapping.Finish(cfg, old(View())) && log == old(log) + events
    {
      if pause.Some? {
        events := Fail(ErrorCode.TurnPaused);
      } else {
        events := Fail(StreamIncomplete);
      }
    }

    /** Fails, changing nothing, when there is no interrupt to report. */
    method Interrupt(interrupts: seq<string>) returns (r: Result<seq<WireEvent>, string>)
      modifies this
      ensures View() == Mapping.Interrupt(cfg, old(View()), interrupts)
      ensures r.Failure? <==> !old(closed) && interrupts == []
      ensures log == old(log) + if r.Success? then r.value else []
    {
      if closed { return Success([]); }
      if interrupts == [] { return Failure("An interrupted run needs an interrupt"); }
      ghost var base := log;
      var events := Start();
      events := EndRun(RunFinished(cfg.threadId, cfg.runId, None, RunInterrupted(interrupts), usage), base, events);
      return Success(events);
    }

    method YieldToClient() returns (events: seq<WireEvent>)
      modifies this
      ensures View() == Mapping.YieldToClient(cfg, old(View())) && log == old(log) + events
    {
      if closed { return []; }
      ghost var base := log;
      events := Start();
      events := EndRun(RunFinished(cfg.threadId, cfg.runId, None, RunSuccess, usage), base, events);
    }

    // ---- tool input ----

    method CloseInput(id: string, input: Option<Json>, ghost base: seq<WireEvent>, sofar: seq<WireEvent>)
      returns (events: seq<WireEvent>)
      requires log == base + sofar
      modifies this
      ensures log == base + events
      ensures View() == Mapping.CloseInput(cfg, old(View()), id, input)
    {
      if !tools.Has(id) { return sofar; }
      if tools.items[id].truncated || tools.items[id].arguments != "" {
        events := EndTool(id, base, sofar);
      } else if input.Some? {
        events := AddArguments(id, input.value, base, sofar);
        events := EndTool(id, base, events);
      } else {
        tools := tools.Put(id, tools.items[id].(truncated := true));
        var closing := Fail(ToolInputInvalid);
        events := sofar + closing;
      }
    }

    method CompleteToolInput(id: string, input: Option<Json>, truncated: bool, inputError: Option<string>,
                             ghost base: seq<WireEvent>, sofar: seq<WireEvent>)
      returns (events: seq<WireEvent>)
      requires log == base + sofar
      modifies this
      ensures log == base + events
      ensures View() == Mapping.CompleteToolInput(cfg, old(View()), id, input, truncated, inputError)
    {
      if !tools.Has(id) || tools.items[id].closed { return sofar; }
      JudgeInput(id, truncated, inputError);
      events := CloseInput(id, input, base, sofar);
    }

    method JudgeInput(id: string, truncated: bool, inputError: Option<string>)
      modifies `tools
      ensures PartsView() == Mapping.JudgeInput(cfg.parses, old(PartsView()), id, truncated, inputError)
    {
      if !tools.Has(id) || tools.items[id].closed { return; }
      var tool := tools.items[id];
      var cut := truncated || (tool.arguments != "" && !cfg.parses(tool.arguments));
      tools := tools.Put(id, tool.(truncated := cut, inputError := inputError));
    }

    method AnnounceTool(id: string, name: string, input: Option<Json>, uuid: string)
      returns (events: seq<WireEvent>)
      modifies this
      ensures log == old(log) + events
      ensures View() == Mapping.AnnounceTool(cfg, old(View()), id, name, input, uuid)
    {
      if closed || tools.Has(id) { return []; }
      ghost var base := log;
      events := Start();
      events := StartTool(id, name, None, uuid, base, events);
      events := CompleteToolInput(id, input, false, None, base, events);
    }

    // ---- native events ----

    method BelongsToTurn(ev: NativeEvent) returns (ours: bool)
      modifies `turnId
      ensures ours == Ours(cfg, old(turnId), ev)
      ensures turnId == if ours then ev.turnId else old(turnId)
    {
      if ev.depth > 0 { return false; }
      if cfg.sessionId.Some? && ev.sessionId != cfg.sessionId.value { return false; }
      if ev.turnId.None? { return false; }
      if turnId.None? { turnId := ev.turnId; }
      return ev.turnId == turnId;
    }

    method CompleteMessage(id: string, content: Option<string>, told: Option<Usage>,
                           ghost base: seq<WireEvent>, sofar: seq<WireEvent>)
      returns (events: seq<WireEvent>)
      requires log == base + sofar
      modifies this
      ensures log == base + events
      ensures View() == Mapping.CompleteMessage(cfg, old(View()), id, content, told)
    {
      if !messages.Has(id) || messages.items[id].completed { return sofar; }
      var message := messages.items[id];
      ghost var st := View();
      messages := messages.Put(id, message.(completed := true));
      ghost var done := PartsView();
      assert View() == st.(parts := done);
      if !message.closed && content.Some? && !(message.text <= content.value) {
        var closing := Fail(ContentMismatch);
        events := sofar + closing;
      } else {
        var rest := if content.Some? && !message.closed then content.value[|message.text|..] else "";
        events := AddText(id, rest, base, sofar);
        events := EndMessage(id, base, events);
        assert View() == st.(parts := Mapping.EndMessage(AppendText(done, id, rest), id));
        if told.Some? {
          usage := usage + [told.value];
        }
      }
    }

    method CompleteTool(id: string, result: string, isError: bool, ghost base: seq<WireEvent>, sofar: seq<WireEvent>)
      returns (events: seq<WireEvent>)
      requires log == base + sofar
      modifies `tools, `log
      ensures log == base + events
      ensures PartsView() == Mapping.CompleteTool(cfg, old(PartsView()), id, result, isError)
    {
      if !tools.Has(id) || tools.items[id].resultSent { return sofar; }
      events := EndTool(id, base, sofar);
      if !tools.Has(id) { return; }
      tools := tools.Put(id, tools.items[id].(resultSent := true));
      if id !in cfg.suppressed {
        events := events + [ToolResult(id, result, isError)];
        log := log + [ToolResult(id, result, isError)];
      }
    }

    /** When nothing was said before the result, the result becomes a message. */
    method ShowResult(result: string, uuid: string, ghost base: seq<WireEvent>, sofar: seq<WireEvent>)
      returns (events: seq<WireEvent>)
      requires log == base + sofar
      modifies `messages, `lastMessageId, `log
      ensures PartsView() == Mapping.ShowResult(old(PartsView()), result, uuid) && log == base + events
    {
      events := sofar;
      if messages.keys == [] && result != "" {
        events := StartMessage(uuid, base, events);
        events := events + [TextContent(uuid, result)];
        log := log + [TextContent(uuid, result)];
      }
    }

    method CompleteTurn(stopReason: Option<string>, result: string, uuid: string,
                        ghost base: seq<WireEvent>, sofar: seq<WireEvent>)
      returns (events: seq<WireEvent>)
      requires log == base + sofar
      modifies this
      ensures log == base + events
      ensures View() == Mapping.CompleteTurn(cfg, old(View()), stopReason, result, uuid)
    {
      events := sofar;
      if stopReason == Some("paused") {
        var closing := Fail(ErrorCode.TurnPaused);
        return events + closing;
      }
      if stopReason.Some? && stopReason.value != "end_turn" {
        var closing := Fail(TurnStopped(stopReason.value));
        return events + closing;
      }
      events := ShowResult(result, uuid, base, events);
      events := EndRun(RunFinished(cfg.threadId, cfg.runId, Some(result), RunSuccess, usage), base, events);
    }

    /** Take one native event. One that is not for this client, or that came before, leaves the state alone. */
    method Map(ev: NativeEvent, uuid: string) returns (events: seq<WireEvent>)
      modifies this
      ensures View() == MapEvent(cfg, old(View()), ev, uuid) && log == old(log) + events
    {
      if terminal || ev.kind.Internal? { return []; }
      var ours := BelongsToTurn(ev);
      if !ours { return []; }
      if ev.seqNo.Some? {
        if ev.seqNo.value in seen { return []; }
        seen := seen + {ev.seqNo.value};
      }
      ghost var base := log;
      events := Start();
      events := Effect(ev.kind, uuid, base, events);
    }

    method MessageEffect(kind: Kind, uuid: string, ghost base: seq<WireEvent>, sofar: seq<WireEvent>)
      returns (events: seq<WireEvent>)
      requires log == base + sofar
      requires kind.MessageStarted? || kind.TextDelta? || kind.MessageCompleted?
      modifies this
      ensures View() == Project(cfg, old(View()), kind, uuid) && log == base + events
    {
      events := StartMessage(kind.messageId, base, sofar);
      if kind.TextDelta? {
        events := AddText(kind.messageId, kind.text, base, events);
      } else if kind.MessageCompleted? {
        events := CompleteMessage(kind.messageId, kind.content, kind.usage, base, events);
      }
    }

    /** The streamed input of a call; it must follow the call's announcement. */
    method InputEffect(kind: Kind, uuid: string, ghost base: seq<WireEvent>, sofar: seq<WireEvent>)
      returns (events: seq<WireEvent>)
      requires log == base + sofar
      requires kind.ToolInputDelta? || kind.ToolInputCompleted?
      modifies this
      ensures View() == Project(cfg, old(View()), kind, uuid) && log == base + events
    {
      var t := kind.toolUseId;
      if !tools.Has(t) {
        var closing := Fail(ToolLifecycle);
        return sofar + closing;
      }
      if kind.ToolInputDelta? {
        events := AddArguments(t, kind.partialJson, base, sofar);
      } else {
        var error := if kind.truncated then kind.inputError else None;
        events := CompleteToolInput(t, kind.input, kind.truncated, error, base, sofar);
      }
    }

    method ToolEffect(kind: Kind, uuid: string, ghost base: seq<WireEvent>, sofar: seq<WireEvent>)
      returns (events: seq<WireEvent>)
      requires log == base + sofar
      requires kind.ToolInputStarted? || kind.ToolExecuting? || kind.ToolCompleted?
      modifies this
      ensures View() == Project(cfg, old(View()), kind, uuid) && log == base + events
    {
      var parent := if kind.ToolInputStarted? then kind.parent else None;
      ghost var st := View();
      events := StartTool(kind.toolUseId, kind.toolName, parent, uuid, base, sofar);
      assert View() == StartToolIn(st, kind.toolUseId, kind.toolName, parent, uuid);
      if kind.ToolExecuting? {
        events := CompleteToolInput(kind.toolUseId, kind.input, false, None, base, events);
      } else if kind.ToolCompleted? {
        events := CompleteTool(kind.toolUseId, kind.result, kind.isError, base, events);
      }
    }

    /** The event's own effect, once it is known to be new and ours and the run has started. */
    method Effect(kind: Kind, uuid: string, ghost base: seq<WireEvent>, sofar: seq<WireEvent>)
      returns (events: seq<WireEvent>)
      requires log == base + sofar
      modifies this
      ensures View() == Project(cfg, old(View()), kind, uuid) && log == base + events
    {
      events := sofar;
      match kind
      case TurnStarted | Internal =>
      case IterationStarted(n) => events := StartStep(n, base, events);
      case IterationCompleted(n) =>
        events := StartStep(n, base, events);
        events := EndStep(n, base, events);
      case MessageStarted(_) | TextDelta(_, _) | MessageCompleted(_, _, _) =>
        events := MessageEffect(kind, uuid, base, events);
      case ToolInputDelta(_, _) | ToolInputCompleted(_, _, _, _) =>
        events := InputEffect(kind, uuid, base, events);
      case ToolInputStarted(_, _, _) | ToolExecuting(_, _, _) | ToolCompleted(_, _, _, _) =>
        events := ToolEffect(kind, uuid, base, events);
      case TurnCompleted(stopReason, result) =>
        events := CompleteTurn(stopReason, result, uuid, base, events);
      case TurnFailed =>
        var closing := Fail(TurnError);
        return events + closing;
      case TurnPaused(p) =>
        terminal := true;
        pause := Some(p);
    }
  }
}
