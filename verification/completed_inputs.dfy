/** What a client holds of a tool call's input once the native turn has completed it. */
module CompletedInputs {
  import opened Common
  import opened RunProtocol
  import opened Mapping
  import opened MappedRuns

  function LastOf(log: seq<WireEvent>): Option<WireEvent> { if log == [] then None else Some(log[|log| - 1]) }

  /**
   * A streamed input stays as it was streamed, and is marked when it is no JSON; one
   * that was not streamed is sent whole, unless the source cut it off; one that has
   * no JSON ends the run.
   */
  predicate Rightly(parses: string -> bool, told: string, kind: Kind, got: string, closed: bool, last: Option<WireEvent>)
    requires kind.ToolInputCompleted?
  {
    var error := if kind.truncated then kind.inputError else None;
    if told != "" || kind.truncated then
      var cut := kind.truncated || !parses(told);
      !closed && got == told && last == Some(ToolEnd(kind.toolUseId, cut, if cut then error else None))
    else if kind.input.Some? then
      !closed && got == kind.input.value && last == Some(ToolEnd(kind.toolUseId, false, None))
    else last == Some(RunError(ToolInputInvalid))
  }

  /** Closing a judged call: the mapper's copy of its input. */
  lemma ClosedCopy(cfg: Config, st: State, id: string, input: Option<Json>)
    requires Ready(cfg, st) && id in st.parts.tools.items && !st.parts.tools.items[id].closed
    ensures var tool, r := st.parts.tools.items[id], CloseInput(cfg, st, id, input);
            if tool.arguments != "" || tool.truncated then
              && !r.closed && id in r.parts.tools.items && r.parts.tools.items[id].arguments == tool.arguments
              && LastOf(r.parts.log) ==
                 Some(ToolEnd(id, tool.truncated, if tool.truncated then tool.inputError else None))
            else if input.Some? then
              && !r.closed && id in r.parts.tools.items && r.parts.tools.items[id].arguments == input.value
              && LastOf(r.parts.log) == Some(ToolEnd(id, false, None))
            else LastOf(r.parts.log) == Some(RunError(ToolInputInvalid))
  {
    var tool := st.parts.tools.items[id];
    if tool.arguments == "" && !tool.truncated {
      if input.Some? {
        assert tool.arguments + input.value == input.value;
      } else {
        NoteKeeps(Carried(cfg), st.parts, id, tool.(truncated := true));
        var marked := st.parts.(tools := st.parts.tools.Put(id, tool.(truncated := true)));
        PartsKeep(cfg, st, marked);
        FailKeeps(cfg, st.(parts := marked), ToolInputInvalid);
      }
    }
  }

  /** Completing an open call: the mapper's copy of its input. */
  lemma CompletedCopy(cfg: Config, st: State, kind: Kind)
    requires kind.ToolInputCompleted? && Ready(cfg, st)
    requires kind.toolUseId in st.parts.tools.items && !st.parts.tools.items[kind.toolUseId].closed
    ensures var id := kind.toolUseId;
            var error := if kind.truncated then kind.inputError else None;
            var r := CompleteToolInput(cfg, st, id, kind.input, kind.truncated, error);
            && Core(cfg, r)
            && (!r.closed ==> id in r.parts.tools.items)
            && Rightly(cfg.parses, st.parts.tools.items[id].arguments, kind,
                       if r.closed then "" else r.parts.tools.items[id].arguments, r.closed, LastOf(r.parts.log))
  {
    var id := kind.toolUseId;
    var error := if kind.truncated then kind.inputError else None;
    var judged := JudgeInput(cfg.parses, st.parts, id, kind.truncated, error);
    JudgeInputKeeps(Carried(cfg), cfg.parses, st.parts, id, kind.truncated, error);
    PartsKeep(cfg, st, judged);
    ClosedCopy(cfg, st.(parts := judged), id, kind.input);
    CompleteToolInputKeeps(cfg, st, id, kind.input, kind.truncated, error);
  }

  /** While the mapper's copy is faithful, it is what the client has received. */
  lemma ClientHoldsInput(carried: set<string>, p: Parts, id: string)
    requires Live(carried, p) && Faithful(carried, p) && id in p.tools.items && id !in carried
    ensures Received(p.log, ToolKey(id)) == p.tools.items[id].arguments
  {
    var c := Seen(carried, p);
    AutomatonDecides(carried, p.log);
    assert Known(carried, p, c, ToolKey(id)) && Copied(p, c, ToolKey(id));
    assert PartSummarised(c, p.log, ToolKey(id));
  }

  /** A call that is open was announced in this run. */
  lemma OpenIsNotCarried(carried: set<string>, p: Parts, id: string)
    requires Live(carried, p) && id in p.tools.items && !p.tools.items[id].closed
    ensures id !in carried
  {
    assert Known(carried, p, Seen(carried, p), ToolKey(id));
  }

  /**
   * After any run so far, an admitted completion of an open call's input leaves the
   * client with what was streamed, or else with the whole input, or ends the run.
   */
  lemma CompletedInputIsExact(cfg: Config, calls: seq<Call>, ev: NativeEvent, uuid: string)
    requires ev.kind.ToolInputCompleted?
    requires var st := ApplyAll(cfg, Initial(cfg), calls);
             && !st.terminal && Admitted(cfg, st.turnId, st.seen, ev)
             && ev.kind.toolUseId in st.parts.tools.items && !st.parts.tools.items[ev.kind.toolUseId].closed
    ensures var st := ApplyAll(cfg, Initial(cfg), calls);
            var r, k := MapEvent(cfg, st, ev, uuid), ToolKey(ev.kind.toolUseId);
            Rightly(cfg.parses, Received(st.parts.log, k), ev.kind,
                    if r.closed then "" else Received(r.parts.log, k), r.closed, LastOf(r.parts.log))
  {
    var st := ApplyAll(cfg, Initial(cfg), calls);
    InitialIsCore(cfg);
    ApplyAllKeeps(cfg, Initial(cfg), calls);
    CompletedFromCore(cfg, st, ev, uuid);
  }

  lemma CompletionIsMapped(cfg: Config, st: State, ev: NativeEvent, uuid: string)
    requires !st.terminal && Admitted(cfg, st.turnId, st.seen, ev) && ev.kind.ToolInputCompleted?
    requires ev.kind.toolUseId in st.parts.tools.items
    ensures var ready, kind := Admit(cfg, st, ev), ev.kind;
            && ready.parts.tools == st.parts.tools
            && ready.parts.log in {st.parts.log, st.parts.log + [RunStarted(cfg.threadId, cfg.runId)]}
            && MapEvent(cfg, st, ev, uuid) ==
               CompleteToolInput(cfg, ready, kind.toolUseId, kind.input, kind.truncated,
                                 if kind.truncated then kind.inputError else None)
  {
  }

  lemma CompletedFromCore(cfg: Config, st: State, ev: NativeEvent, uuid: string)
    requires Core(cfg, st) && !st.terminal && Admitted(cfg, st.turnId, st.seen, ev)
    requires ev.kind.ToolInputCompleted?
    requires ev.kind.toolUseId in st.parts.tools.items && !st.parts.tools.items[ev.kind.toolUseId].closed
    ensures var r, k := MapEvent(cfg, st, ev, uuid), ToolKey(ev.kind.toolUseId);
            Rightly(cfg.parses, Received(st.parts.log, k), ev.kind,
                    if r.closed then "" else Received(r.parts.log, k), r.closed, LastOf(r.parts.log))
  {
    var id, carried := ev.kind.toolUseId, Carried(cfg);
    var ready := Admit(cfg, st, ev);
    AdmitKeeps(cfg, st, ev);
    CompletionIsMapped(cfg, st, ev, uuid);
    OpenIsNotCarried(carried, ready.parts, id);
    ClientHoldsInput(carried, ready.parts, id);
    StartedText(st.parts.log, RunStarted(cfg.threadId, cfg.runId), ToolKey(id));
    CompletedCopy(cfg, ready, ev.kind);
    var r := MapEvent(cfg, st, ev, uuid);
    if !r.closed { ClientHoldsInput(carried, r.parts, id); }
  }
}
