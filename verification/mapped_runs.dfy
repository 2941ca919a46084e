/**
 * Properties of every run a mapper produces: whatever calls are made on it, in
 * whatever order, the events it has returned are a well-formed AG-UI run, and
 * the text a client put together is the text the native turn completed.
 */
module MappedRuns {
  import opened Common
  import opened RunProtocol
  import opened Mapping

  function Carried(cfg: Config): set<string> { set t | t in cfg.carried }

  /** What the mapper holds of a part agrees with what the client has seen of it. */
  ghost predicate Known(carried: set<string>, p: Parts, c: Client, k: Key) {
    match k
    case MessageKey(m) =>
      && (k in c.parts <==> m in p.messages.items)
      && (k in c.parts ==> c.parts[k].closed == p.messages.items[m].closed)
    case ToolKey(t) =>
      && (k in c.parts <==> t in p.tools.items && t !in carried)
      && (k in c.parts ==> c.parts[k].closed == p.tools.items[t].closed)
      && (t in carried ==> t in p.tools.items && p.tools.items[t].closed)
      && (t in c.answered ==> t in p.tools.items && p.tools.items[t].resultSent)
    case StepKey(n) =>
      && (k in c.parts <==> n in p.steps.items)
      && (k in c.parts ==> c.parts[k].closed == p.steps.items[n])
  }

  /** The client's text of a part is the mapper's own copy of it. */
  ghost predicate Copied(p: Parts, c: Client, k: Key) {
    k in c.parts ==>
      match k
      case MessageKey(m) => m in p.messages.items && c.parts[k].text == p.messages.items[m].text
      case ToolKey(t) => t in p.tools.items && c.parts[k].text == p.tools.items[t].arguments
      case StepKey(n) => true
  }

  ghost predicate TablesValid(p: Parts) {
    p.messages.Valid() && p.tools.Valid() && p.steps.Valid()
  }

  /** The client after the events returned so far. */
  ghost function Seen(carried: set<string>, p: Parts): Client {
    Run(carried, p.log).GetOr(FRESH_CLIENT)
  }

  ghost predicate Agrees(carried: set<string>, p: Parts, c: Client) {
    && (forall k :: Known(carried, p, c, k))
    && TablesValid(p)
    && (p.lastMessageId.Some? ==> p.lastMessageId.value in p.messages.items)
  }

  ghost predicate Exact(p: Parts, c: Client) { forall k :: Copied(p, c, k) }

  /** A run that has started and not ended. */
  ghost predicate Live(carried: set<string>, p: Parts) {
    && Run(carried, p.log) == Some(Seen(carried, p))
    && Seen(carried, p).started
    && !Seen(carried, p).ended
    && Agrees(carried, p, Seen(carried, p))
  }

  ghost predicate Faithful(carried: set<string>, p: Parts) { Exact(p, Seen(carried, p)) }

  lemma Append(carried: set<string>, log: seq<WireEvent>, c: Client, e: WireEvent)
    requires Run(carried, log) == Some(c) && Allowed(carried, c, e)
    ensures Run(carried, log + [e]) == Some(Advance(c, e))
  {
    assert (log + [e])[..|log + [e]| - 1] == log;
  }

  /**
   * One more event: the run goes on when the event is allowed and the mapper's
   * change to its tables is the client's change to its parts.
   */
  lemma EmitKeeps(carried: set<string>, p: Parts, q: Parts, e: WireEvent)
    requires Live(carried, p) && Allowed(carried, Seen(carried, p), e) && !Terminal(e)
    requires q.log == p.log + [e]
    requires Agrees(carried, q, Advance(Seen(carried, p), e))
    ensures Live(carried, q) && Seen(carried, q) == Advance(Seen(carried, p), e)
  {
    Append(carried, p.log, Seen(carried, p), e);
  }

  lemma StartMessageKeeps(carried: set<string>, p: Parts, id: string)
    requires Live(carried, p)
    ensures Live(carried, StartMessage(p, id)) && id in StartMessage(p, id).messages.items
    ensures Faithful(carried, p) ==> Faithful(carried, StartMessage(p, id))
  {
    if !p.messages.Has(id) {
      var q, e := StartMessage(p, id), TextStart(id);
      var c := Seen(carried, p);
      var d := Advance(c, e);
      assert Known(carried, p, c, MessageKey(id));
      forall k ensures Known(carried, q, d, k) { assert Known(carried, p, c, k); }
      EmitKeeps(carried, p, q, e);
      if Exact(p, c) { forall k ensures Copied(q, d, k) { assert Copied(p, c, k); } }
    }
  }

  lemma EndMessageKeeps(carried: set<string>, p: Parts, id: string)
    requires Live(carried, p)
    ensures Live(carried, EndMessage(p, id))
    ensures id in p.messages.items ==>
              id in EndMessage(p, id).messages.items && EndMessage(p, id).messages.items[id].closed
    ensures Faithful(carried, p) ==> Faithful(carried, EndMessage(p, id))
  {
    if p.messages.Has(id) && !p.messages.items[id].closed {
      var q, e := EndMessage(p, id), TextEnd(id);
      var c := Seen(carried, p);
      var d := Advance(c, e);
      assert Known(carried, p, c, MessageKey(id));
      forall k ensures Known(carried, q, d, k) { assert Known(carried, p, c, k); }
      EmitKeeps(carried, p, q, e);
      if Exact(p, c) { forall k ensures Copied(q, d, k) { assert Copied(p, c, k); } }
    }
  }

  lemma AppendTextKeeps(carried: set<string>, p: Parts, id: string, delta: string)
    requires Live(carried, p)
    ensures Live(carried, AppendText(p, id, delta))
    ensures Faithful(carried, p) ==> Faithful(carried, AppendText(p, id, delta))
  {
    if p.messages.Has(id) && !p.messages.items[id].closed && delta != "" {
      var q, e := AppendText(p, id, delta), TextContent(id, delta);
      var c := Seen(carried, p);
      var d := Advance(c, e);
      assert Known(carried, p, c, MessageKey(id));
      forall k ensures Known(carried, q, d, k) { assert Known(carried, p, c, k); }
      EmitKeeps(carried, p, q, e);
      if Exact(p, c) { forall k ensures Copied(q, d, k) { assert Copied(p, c, k); } }
    }
  }

  lemma EndToolKeeps(carried: set<string>, p: Parts, id: string)
    requires Live(carried, p)
    ensures Live(carried, EndTool(p, id))
    ensures id in p.tools.items ==>
              id in EndTool(p, id).tools.items && EndTool(p, id).tools.items[id].closed
    ensures Faithful(carried, p) ==> Faithful(carried, EndTool(p, id))
  {
    if p.tools.Has(id) && !p.tools.items[id].closed {
      var tool := p.tools.items[id];
      var q, e := EndTool(p, id), ToolEnd(id, tool.truncated, if tool.truncated then tool.inputError else None);
      var c := Seen(carried, p);
      var d := Advance(c, e);
      assert Known(carried, p, c, ToolKey(id));
      forall k ensures Known(carried, q, d, k) { assert Known(carried, p, c, k); }
      EmitKeeps(carried, p, q, e);
      if Exact(p, c) { forall k ensures Copied(q, d, k) { assert Copied(p, c, k); } }
    }
  }

  lemma AppendArgumentsKeeps(carried: set<string>, p: Parts, id: string, delta: string)
    requires Live(carried, p)
    ensures Live(carried, AppendArguments(p, id, delta))
    ensures Faithful(carried, p) ==> Faithful(carried, AppendArguments(p, id, delta))
  {
    if p.tools.Has(id) && !p.tools.items[id].closed && delta != "" {
      var q, e := AppendArguments(p, id, delta), ToolArgs(id, delta);
      var c := Seen(carried, p);
      var d := Advance(c, e);
      assert Known(carried, p, c, ToolKey(id));
      forall k ensures Known(carried, q, d, k) { assert Known(carried, p, c, k); }
      EmitKeeps(carried, p, q, e);
      if Exact(p, c) { forall k ensures Copied(q, d, k) { assert Copied(p, c, k); } }
    }
  }

  lemma AddToolKeeps(carried: set<string>, p: Parts, id: string, name: string, parent: string)
    requires Live(carried, p) && id !in p.tools.items && parent in p.messages.items
    ensures Live(carried, AddTool(p, id, name, parent))
    ensures Faithful(carried, p) ==> Faithful(carried, AddTool(p, id, name, parent))
  {
    var q, e := AddTool(p, id, name, parent), ToolStart(id, name, parent);
    var c := Seen(carried, p);
    var d := Advance(c, e);
    assert Known(carried, p, c, ToolKey(id)) && Known(carried, p, c, MessageKey(parent));
    forall k ensures Known(carried, q, d, k) { assert Known(carried, p, c, k); }
    EmitKeeps(carried, p, q, e);
    if Exact(p, c) { forall k ensures Copied(q, d, k) { assert Copied(p, c, k); } }
  }

  lemma StartToolKeeps(carried: set<string>, p: Parts, id: string, name: string, messageId: Option<string>,
                       uuid: string)
    requires Live(carried, p)
    ensures Live(carried, StartTool(p, id, name, messageId, uuid))
    ensures Faithful(carried, p) ==> Faithful(carried, StartTool(p, id, name, messageId, uuid))
  {
    if !p.tools.Has(id) {
      var parent := messageId.GetOr(p.lastMessageId.GetOr(uuid));
      StartMessageKeeps(carried, p, parent);
      var known := StartMessage(p, parent);
      EndMessageKeeps(carried, known, parent);
      AddToolKeeps(carried,
                   if messageId.None? && !p.messages.Has(parent) then EndMessage(known, parent) else known,
                   id, name, parent);
    }
  }

  lemma StartStepKeeps(carried: set<string>, p: Parts, n: int)
    requires Live(carried, p)
    ensures Live(carried, StartStep(p, n))
    ensures Faithful(carried, p) ==> Faithful(carried, StartStep(p, n))
  {
    if !p.steps.Has(n) {
      var q, e := StartStep(p, n), StepStarted(n);
      var c := Seen(carried, p);
      var d := Advance(c, e);
      assert Known(carried, p, c, StepKey(n));
      forall k ensures Known(carried, q, d, k) { assert Known(carried, p, c, k); }
      EmitKeeps(carried, p, q, e);
      if Exact(p, c) { forall k ensures Copied(q, d, k) { assert Copied(p, c, k); } }
    }
  }

  lemma EndStepKeeps(carried: set<string>, p: Parts, n: int)
    requires Live(carried, p)
    ensures Live(carried, EndStep(p, n))
    ensures Faithful(carried, p) ==> Faithful(carried, EndStep(p, n))
  {
    if p.steps.Has(n) && !p.steps.items[n] {
      var q, e := EndStep(p, n), StepFinished(n);
      var c := Seen(carried, p);
      var d := Advance(c, e);
      assert Known(carried, p, c, StepKey(n));
      forall k ensures Known(carried, q, d, k) { assert Known(carried, p, c, k); }
      EmitKeeps(carried, p, q, e);
      if Exact(p, c) { forall k ensures Copied(q, d, k) { assert Copied(p, c, k); } }
    }
  }

  /** A change to a call's own notes, which the client does not see. */
  lemma NoteKeeps(carried: set<string>, p: Parts, id: string, tool: ToolState)
    requires Live(carried, p) && id in p.tools.items
    requires tool.closed == p.tools.items[id].closed && tool.arguments == p.tools.items[id].arguments
    requires p.tools.items[id].resultSent ==> tool.resultSent
    ensures Live(carried, p.(tools := p.tools.Put(id, tool)))
    ensures Faithful(carried, p) ==> Faithful(carried, p.(tools := p.tools.Put(id, tool)))
  {
    var q := p.(tools := p.tools.Put(id, tool));
    var c := Seen(carried, p);
    forall k ensures Known(carried, q, c, k) { assert Known(carried, p, c, k); }
    if Exact(p, c) { forall k ensures Copied(q, c, k) { assert Copied(p, c, k); } }
  }

  lemma MarkToolKeeps(carried: set<string>, parses: string -> bool, p: Parts, id: string)
    requires Live(carried, p)
    ensures Live(carried, MarkTool(parses, p, id))
    ensures Faithful(carried, p) ==> Faithful(carried, MarkTool(parses, p, id))
  {
    if p.tools.Has(id) {
      NoteKeeps(carried, p, id, p.tools.items[id].(truncated := true));
    }
  }

  lemma JudgeInputKeeps(carried: set<string>, parses: string -> bool, p: Parts, id: string, truncated: bool,
                        inputError: Option<string>)
    requires Live(carried, p)
    ensures Live(carried, JudgeInput(parses, p, id, truncated, inputError))
    ensures Faithful(carried, p) ==> Faithful(carried, JudgeInput(parses, p, id, truncated, inputError))
  {
    if p.tools.Has(id) {
      var tool := p.tools.items[id];
      var cut := truncated || (tool.arguments != "" && !parses(tool.arguments));
      NoteKeeps(carried, p, id, tool.(truncated := cut, inputError := inputError));
    }
  }

  // ---- ending ----

  ghost predicate ToolClosed(p: Parts, id: string) { id in p.tools.items ==> p.tools.items[id].closed }

  ghost predicate MessageClosed(p: Parts, id: string) { id in p.messages.items ==> p.messages.items[id].closed }

  ghost predicate StepClosed(p: Parts, n: int) { n in p.steps.items ==> p.steps.items[n] }

  lemma {:induction false} CloseToolsKeeps(carried: set<string>, parses: string -> bool, p: Parts, ids: seq<string>)
    requires Live(carried, p)
    ensures var q := CloseTools(parses, p, ids);
            && Live(carried, q)
            && (Faithful(carried, p) ==> Faithful(carried, q))
            && q.messages == p.messages && q.steps == p.steps && q.tools.items.Keys == p.tools.items.Keys
            && (forall id :: id in ids || ToolClosed(p, id) ==> ToolClosed(q, id))
  {
    if ids != [] {
      var rest, id := ids[..|ids| - 1], ids[|ids| - 1];
      CloseToolsKeeps(carried, parses, p, rest);
      var before := CloseTools(parses, p, rest);
      MarkToolKeeps(carried, parses, before, id);
      EndToolKeeps(carried, MarkTool(parses, before, id), id);
      assert forall x :: x in ids ==> x in rest || x == id;
    }
  }

  lemma {:induction false} CloseMessagesKeeps(carried: set<string>, p: Parts, ids: seq<string>)
    requires Live(carried, p)
    ensures var q := CloseMessages(p, ids);
            && Live(carried, q)
            && (Faithful(carried, p) ==> Faithful(carried, q))
            && q.tools == p.tools && q.steps == p.steps && q.messages.items.Keys == p.messages.items.Keys
            && (forall id :: id in ids || MessageClosed(p, id) ==> MessageClosed(q, id))
  {
    if ids != [] {
      var rest, id := ids[..|ids| - 1], ids[|ids| - 1];
      CloseMessagesKeeps(carried, p, rest);
      EndMessageKeeps(carried, CloseMessages(p, rest), id);
      assert forall x :: x in ids ==> x in rest || x == id;
    }
  }

  lemma {:induction false} CloseStepsKeeps(carried: set<string>, p: Parts, ns: seq<int>)
    requires Live(carried, p)
    ensures var q := CloseSteps(p, ns);
            && Live(carried, q)
            && (Faithful(carried, p) ==> Faithful(carried, q))
            && q.tools == p.tools && q.messages == p.messages && q.steps.items.Keys == p.steps.items.Keys
            && (forall n :: n in ns || StepClosed(p, n) ==> StepClosed(q, n))
  {
    if ns != [] {
      var rest, n := ns[..|ns| - 1], ns[|ns| - 1];
      CloseStepsKeeps(carried, p, rest);
      EndStepKeeps(carried, CloseSteps(p, rest), n);
      assert forall x :: x in ns ==> x in rest || x == n;
    }
  }

  /** Closing the open parts leaves none open. */
  lemma CloseOpenPartsCloses(carried: set<string>, parses: string -> bool, p: Parts)
    requires Live(carried, p)
    ensures var q := CloseOpenParts(parses, p);
            && Live(carried, q)
            && (forall k :: k in Seen(carried, q).parts ==> Seen(carried, q).parts[k].closed)
            && (Faithful(carried, p) ==> Faithful(carried, q))
            && (forall id :: id in p.messages.items ==> id in q.messages.items && q.messages.items[id].closed)
  {
    CloseToolsKeeps(carried, parses, p, p.tools.keys);
    var a := CloseTools(parses, p, p.tools.keys);
    CloseMessagesKeeps(carried, a, p.messages.keys);
    var b := CloseMessages(a, p.messages.keys);
    CloseStepsKeeps(carried, b, p.steps.keys);
    var q := CloseSteps(b, p.steps.keys);
    var c := Seen(carried, q);
    forall k | k in c.parts ensures c.parts[k].closed {
      assert Known(carried, q, c, k);
      match k
      case MessageKey(m) => assert MessageClosed(q, m);
      case ToolKey(t) => assert ToolClosed(q, t);
      case StepKey(n) => assert StepClosed(q, n);
    }
    forall id | id in p.messages.items ensures id in q.messages.items && q.messages.items[id].closed {
      assert MessageClosed(q, id);
    }
  }

  /** The state of a mapper between two calls. */
  ghost predicate Core(cfg: Config, st: State) {
    var carried := Carried(cfg);
    && (st.closed ==> st.terminal)
    && (st.terminal ==> st.started)
    && Run(carried, st.parts.log) == Some(Seen(carried, st.parts))
    && Seen(carried, st.parts).started == st.started
    && Seen(carried, st.parts).ended == st.closed
    && (!st.closed ==> Agrees(carried, st.parts, Seen(carried, st.parts)))
    && (!st.closed ==> Faithful(carried, st.parts))
  }

  /** The state in which a native event takes effect. */
  ghost predicate Ready(cfg: Config, st: State) { Core(cfg, st) && st.started && !st.closed }

  lemma InitialIsCore(cfg: Config)
    ensures Core(cfg, Initial(cfg))
  {
    var p := Initial(cfg).parts;
    forall k ensures Known(Carried(cfg), p, FRESH_CLIENT, k) && Copied(p, FRESH_CLIENT, k) {
    }
  }

  lemma StartRunKeeps(cfg: Config, st: State)
    requires Core(cfg, st)
    ensures Core(cfg, StartRun(cfg, st)) && StartRun(cfg, st).started
  {
    if !st.started && !st.terminal {
      var p, q := st.parts, StartRun(cfg, st).parts;
      var e := RunStarted(cfg.threadId, cfg.runId);
      var c := Seen(Carried(cfg), p);
      Append(Carried(cfg), p.log, c, e);
      forall k ensures Known(Carried(cfg), q, Advance(c, e), k) && Copied(q, Advance(c, e), k) {
        assert Known(Carried(cfg), p, c, k) && Copied(p, c, k);
      }
    }
  }

  lemma EndRunKeeps(cfg: Config, st: State, e: WireEvent)
    requires st.started && Live(Carried(cfg), st.parts) && Terminal(e)
    ensures Core(cfg, EndRun(cfg, st, e)) && EndRun(cfg, st, e).closed
    ensures EndRun(cfg, st, e).parts.log != [] && EndRun(cfg, st, e).parts.log[|EndRun(cfg, st, e).parts.log| - 1] == e
  {
    CloseOpenPartsCloses(Carried(cfg), cfg.parses, st.parts);
    var p := CloseOpenParts(cfg.parses, st.parts);
    Append(Carried(cfg), p.log, Seen(Carried(cfg), p), e);
  }

  lemma FailKeeps(cfg: Config, st: State, code: ErrorCode)
    requires Core(cfg, st)
    ensures Core(cfg, Fail(cfg, st, code)) && Fail(cfg, st, code).closed
    ensures !st.closed ==> var log := Fail(cfg, st, code).parts.log; log != [] && log[|log| - 1] == RunError(code)
  {
    if !st.closed {
      StartRunKeeps(cfg, st);
      EndRunKeeps(cfg, StartRun(cfg, st), RunError(code));
    }
  }

  // ---- one native event ----

  lemma PartsKeep(cfg: Config, st: State, q: Parts)
    requires Ready(cfg, st) && Live(Carried(cfg), q) && Faithful(Carried(cfg), q)
    ensures Ready(cfg, st.(parts := q))
  {
  }

  lemma CloseInputKeeps(cfg: Config, st: State, id: string, input: Option<Json>)
    requires Ready(cfg, st)
    ensures Core(cfg, CloseInput(cfg, st, id, input))
  {
    var carried, p := Carried(cfg), st.parts;
    if p.tools.Has(id) {
      var tool := p.tools.items[id];
      if tool.truncated || tool.arguments != "" {
        EndToolKeeps(carried, p, id);
        PartsKeep(cfg, st, EndTool(p, id));
      } else if input.Some? {
        AppendArgumentsKeeps(carried, p, id, input.value);
        var filled := AppendArguments(p, id, input.value);
        EndToolKeeps(carried, filled, id);
        PartsKeep(cfg, st, EndTool(filled, id));
      } else {
        NoteKeeps(carried, p, id, tool.(truncated := true));
        var marked := p.(tools := p.tools.Put(id, tool.(truncated := true)));
        PartsKeep(cfg, st, marked);
        FailKeeps(cfg, st.(parts := marked), ToolInputInvalid);
      }
    }
  }

  lemma CompleteToolInputKeeps(cfg: Config, st: State, id: string, input: Option<Json>, truncated: bool,
                               inputError: Option<string>)
    requires Ready(cfg, st)
    ensures Core(cfg, CompleteToolInput(cfg, st, id, input, truncated, inputError))
  {
    var judged := JudgeInput(cfg.parses, st.parts, id, truncated, inputError);
    JudgeInputKeeps(Carried(cfg), cfg.parses, st.parts, id, truncated, inputError);
    PartsKeep(cfg, st, judged);
    CloseInputKeeps(cfg, st.(parts := judged), id, input);
  }

  /** Noting that a message is completed changes nothing the client sees. */
  lemma CompletedKeeps(carried: set<string>, p: Parts, id: string)
    requires Live(carried, p) && Faithful(carried, p) && id in p.messages.items
    ensures var q := p.(messages := p.messages.Put(id, p.messages.items[id].(completed := true)));
            Live(carried, q) && Faithful(carried, q)
  {
    var q := p.(messages := p.messages.Put(id, p.messages.items[id].(completed := true)));
    var c := Seen(carried, p);
    forall k ensures Known(carried, q, c, k) && Copied(q, c, k) {
      assert Known(carried, p, c, k) && Copied(p, c, k);
    }
  }

  lemma CompleteMessageKeeps(cfg: Config, st: State, id: string, content: Option<string>, usage: Option<Usage>)
    requires Ready(cfg, st)
    ensures Core(cfg, CompleteMessage(cfg, st, id, content, usage))
  {
    if st.parts.messages.Has(id) && !st.parts.messages.items[id].completed {
      var carried := Carried(cfg);
      var message := st.parts.messages.items[id];
      CompletedKeeps(carried, st.parts, id);
      var done := st.parts.(messages := st.parts.messages.Put(id, message.(completed := true)));
      PartsKeep(cfg, st, done);
      if !message.closed && content.Some? && !(message.text <= content.value) {
        FailKeeps(cfg, st.(parts := done), ContentMismatch);
      } else {
        var rest := if content.Some? && !message.closed then content.value[|message.text|..] else "";
        AppendTextKeeps(carried, done, id, rest);
        EndMessageKeeps(carried, AppendText(done, id, rest), id);
        PartsKeep(cfg, st, EndMessage(AppendText(done, id, rest), id));
      }
    }
  }

  /** An open message completed with its whole content: the mapper's copy of it is that content, or the run failed. */
  lemma CompletedCopy(cfg: Config, st: State, id: string, content: string, usage: Option<Usage>)
    requires Ready(cfg, st)
    requires id in st.parts.messages.items
    requires !st.parts.messages.items[id].completed && !st.parts.messages.items[id].closed
    ensures var r := CompleteMessage(cfg, st, id, Some(content), usage);
            if st.parts.messages.items[id].text <= content
            then !r.closed && id in r.parts.messages.items && r.parts.messages.items[id].text == content
            else r.parts.log != [] && r.parts.log[|r.parts.log| - 1] == RunError(ContentMismatch)
  {
    var message := st.parts.messages.items[id];
    CompletedKeeps(Carried(cfg), st.parts, id);
    var done := st.parts.(messages := st.parts.messages.Put(id, message.(completed := true)));
    PartsKeep(cfg, st, done);
    if message.text <= content {
      assert message.text + content[|message.text|..] == content;
    } else {
      FailKeeps(cfg, st.(parts := done), ContentMismatch);
    }
  }

  /** While the mapper's copy is faithful, it is what the client has received. */
  lemma ClientHolds(carried: set<string>, p: Parts, id: string)
    requires Live(carried, p) && Faithful(carried, p) && id in p.messages.items
    ensures Received(p.log, MessageKey(id)) == p.messages.items[id].text
  {
    var c := Seen(carried, p);
    AutomatonDecides(carried, p.log);
    assert Known(carried, p, c, MessageKey(id)) && Copied(p, c, MessageKey(id));
    assert PartSummarised(c, p.log, MessageKey(id));
  }

  lemma CompleteToolKeeps(cfg: Config, p: Parts, id: string, result: string, isError: bool)
    requires Live(Carried(cfg), p) && Faithful(Carried(cfg), p)
    ensures Live(Carried(cfg), CompleteTool(cfg, p, id, result, isError))
    ensures Faithful(Carried(cfg), CompleteTool(cfg, p, id, result, isError))
  {
    if p.tools.Has(id) && !p.tools.items[id].resultSent {
      EndToolKeeps(Carried(cfg), p, id);
      SendResultKeeps(cfg, EndTool(p, id), id, result, isError);
    }
  }

  lemma SendResultKeeps(cfg: Config, p: Parts, id: string, result: string, isError: bool)
    requires Live(Carried(cfg), p) && Faithful(Carried(cfg), p)
    requires id in p.tools.items && p.tools.items[id].closed && !p.tools.items[id].resultSent
    ensures Live(Carried(cfg), SendResult(cfg, p, id, result, isError))
    ensures Faithful(Carried(cfg), SendResult(cfg, p, id, result, isError))
  {
    var carried := Carried(cfg);
    if id in cfg.suppressed {
      NoteKeeps(carried, p, id, p.tools.items[id].(resultSent := true));
    } else {
      var q, e := SendResult(cfg, p, id, result, isError), ToolResult(id, result, isError);
      var c := Seen(carried, p);
      var d := Advance(c, e);
      assert Known(carried, p, c, ToolKey(id));
      forall k ensures Known(carried, q, d, k) && Copied(q, d, k) {
        assert Known(carried, p, c, k) && Copied(p, c, k);
      }
      EmitKeeps(carried, p, q, e);
    }
  }

  lemma ShowResultKeeps(carried: set<string>, p: Parts, result: string, uuid: string)
    requires Live(carried, p)
    ensures Live(carried, ShowResult(p, result, uuid))
  {
    if p.messages.keys == [] && result != "" {
      StartMessageKeeps(carried, p, uuid);
      var a := StartMessage(p, uuid);
      assert uuid !in p.messages.items;
      var q, e := ShowResult(p, result, uuid), TextContent(uuid, result);
      var c := Seen(carried, a);
      assert Known(carried, a, c, MessageKey(uuid));
      forall k ensures Known(carried, q, Advance(c, e), k) { assert Known(carried, a, c, k); }
      EmitKeeps(carried, a, q, e);
    }
  }

  lemma CompleteTurnKeeps(cfg: Config, st: State, stopReason: Option<string>, result: string, uuid: string)
    requires Ready(cfg, st)
    ensures Core(cfg, CompleteTurn(cfg, st, stopReason, result, uuid))
    ensures CompleteTurn(cfg, st, stopReason, result, uuid).closed
  {
    if stopReason == Some("paused") {
      FailKeeps(cfg, st, ErrorCode.TurnPaused);
    } else if stopReason.Some? && stopReason.value != "end_turn" {
      FailKeeps(cfg, st, TurnStopped(stopReason.value));
    } else {
      ShowResultKeeps(Carried(cfg), st.parts, result, uuid);
      EndRunKeeps(cfg, st.(parts := ShowResult(st.parts, result, uuid)),
                  Finished(cfg, st, Some(result), RunSuccess));
    }
  }

  lemma ProjectKeeps(cfg: Config, st: State, kind: Kind, uuid: string)
    requires Ready(cfg, st)
    ensures Core(cfg, Project(cfg, st, kind, uuid))
  {
    var carried := Carried(cfg);
    var p := st.parts;
    match kind
    case TurnStarted =>
    case IterationStarted(n) =>
      StartStepKeeps(carried, p, n);
      PartsKeep(cfg, st, StartStep(p, n));
    case IterationCompleted(n) =>
      StartStepKeeps(carried, p, n);
      EndStepKeeps(carried, StartStep(p, n), n);
      PartsKeep(cfg, st, EndStep(StartStep(p, n), n));
    case MessageStarted(m) =>
      StartMessageKeeps(carried, p, m);
      PartsKeep(cfg, st, StartMessage(p, m));
    case TextDelta(m, text) =>
      StartMessageKeeps(carried, p, m);
      AppendTextKeeps(carried, StartMessage(p, m), m, text);
      PartsKeep(cfg, st, AppendText(StartMessage(p, m), m, text));
    case MessageCompleted(m, content, usage) =>
      StartMessageKeeps(carried, p, m);
      PartsKeep(cfg, st, StartMessage(p, m));
      CompleteMessageKeeps(cfg, st.(parts := StartMessage(p, m)), m, content, usage);
    case ToolInputStarted(t, name, parent) =>
      StartToolKeeps(carried, p, t, name, parent, uuid);
      PartsKeep(cfg, st, StartTool(p, t, name, parent, uuid));
    case ToolInputDelta(t, json) =>
      FailKeeps(cfg, st, ToolLifecycle);
      AppendArgumentsKeeps(carried, p, t, json);
      PartsKeep(cfg, st, AppendArguments(p, t, json));
    case ToolInputCompleted(t, input, truncated, error) =>
      FailKeeps(cfg, st, ToolLifecycle);
      CompleteToolInputKeeps(cfg, st, t, input, truncated, if truncated then error else None);
    case ToolExecuting(t, name, input) =>
      StartToolKeeps(carried, p, t, name, None, uuid);
      PartsKeep(cfg, st, StartTool(p, t, name, None, uuid));
      CompleteToolInputKeeps(cfg, StartToolIn(st, t, name, None, uuid), t, input, false, None);
    case ToolCompleted(t, name, result, isError) =>
      StartToolKeeps(carried, p, t, name, None, uuid);
      CompleteToolKeeps(cfg, StartTool(p, t, name, None, uuid), t, result, isError);
      PartsKeep(cfg, st, CompleteTool(cfg, StartTool(p, t, name, None, uuid), t, result, isError));
    case TurnCompleted(stopReason, result) => CompleteTurnKeeps(cfg, st, stopReason, result, uuid);
    case TurnFailed => FailKeeps(cfg, st, TurnError);
    case TurnPaused(pause) =>
    case Internal =>
  }

  lemma AdmitKeeps(cfg: Config, st: State, ev: NativeEvent)
    requires Core(cfg, st) && !st.terminal
    ensures Ready(cfg, Admit(cfg, st, ev)) && !Admit(cfg, st, ev).terminal
  {
    StartRunKeeps(cfg, st.(turnId := ev.turnId,
                           seen := if ev.seqNo.Some? then st.seen + {ev.seqNo.value} else st.seen));
  }

  lemma MapEventKeeps(cfg: Config, st: State, ev: NativeEvent, uuid: string)
    requires Core(cfg, st)
    ensures Core(cfg, MapEvent(cfg, st, ev, uuid))
  {
    if !st.terminal {
      AdmitKeeps(cfg, st, ev);
      ProjectKeeps(cfg, Admit(cfg, st, ev), ev.kind, uuid);
    }
  }

  lemma AnnounceToolKeeps(cfg: Config, st: State, id: string, name: string, input: Option<Json>, uuid: string)
    requires Core(cfg, st)
    ensures Core(cfg, AnnounceTool(cfg, st, id, name, input, uuid))
  {
    if !st.closed && !st.parts.tools.Has(id) {
      StartRunKeeps(cfg, st);
      var ready := StartRun(cfg, st);
      StartToolKeeps(Carried(cfg), ready.parts, id, name, None, uuid);
      PartsKeep(cfg, ready, StartTool(ready.parts, id, name, None, uuid));
      CompleteToolInputKeeps(cfg, StartToolIn(ready, id, name, None, uuid), id, input, false, None);
    }
  }

  lemma FinishedKeeps(cfg: Config, st: State, outcome: Outcome)
    requires Core(cfg, st) && !st.closed
    ensures Core(cfg, EndRun(cfg, StartRun(cfg, st), Finished(cfg, st, None, outcome)))
  {
    StartRunKeeps(cfg, st);
    EndRunKeeps(cfg, StartRun(cfg, st), Finished(cfg, st, None, outcome));
  }

  /** Every call keeps the stream well formed; a closed mapper says nothing more. */
  lemma ApplyKeeps(cfg: Config, st: State, call: Call)
    requires Core(cfg, st)
    ensures Core(cfg, Apply(cfg, st, call))
    ensures st.closed ==> Apply(cfg, st, call) == st
  {
    match call
    case CallStart => StartRunKeeps(cfg, st);
    case CallMap(ev, uuid) => MapEventKeeps(cfg, st, ev, uuid);
    case CallAnnounce(t, name, input, uuid) => AnnounceToolKeeps(cfg, st, t, name, input, uuid);
    case CallInterrupt(interrupts) => if !st.closed { FinishedKeeps(cfg, st, RunInterrupted(interrupts)); }
    case CallYield => if !st.closed { FinishedKeeps(cfg, st, RunSuccess); }
    case CallFinish => FailKeeps(cfg, st, if st.pause.Some? then ErrorCode.TurnPaused else StreamIncomplete);
    case CallFail(code) => FailKeeps(cfg, st, code);
  }

  /** A mapper that maps no more events maps none later. */
  lemma TerminalStays(cfg: Config, st: State, call: Call)
    requires Core(cfg, st) && st.terminal
    ensures Apply(cfg, st, call).terminal
    ensures call.CallMap? ==> Apply(cfg, st, call) == st
  {
  }

  lemma {:induction false} ApplyAllKeeps(cfg: Config, st: State, calls: seq<Call>)
    requires Core(cfg, st)
    ensures Core(cfg, ApplyAll(cfg, st, calls))
    decreases |calls|
  {
    if calls != [] {
      ApplyKeeps(cfg, st, calls[0]);
      ApplyAllKeeps(cfg, Apply(cfg, st, calls[0]), calls[1..]);
    }
  }

  /**
   * Every run of one mapper is a well-formed AG-UI run, and a mapper that says it
   * closed the run has sent a terminal event.
   */
  lemma EveryRunIsWellFormed(cfg: Config, calls: seq<Call>)
    ensures var r := ApplyAll(cfg, Initial(cfg), calls); var log := r.parts.log;
            && WellFormedRun(Carried(cfg), log)
            && (r.closed <==> log != [] && Terminal(log[|log| - 1]))
  {
    InitialIsCore(cfg);
    ApplyAllKeeps(cfg, Initial(cfg), calls);
    var log := ApplyAll(cfg, Initial(cfg), calls).parts.log;
    AutomatonDecides(Carried(cfg), log);
    if EndedBefore(log, |log|) {
      var j :| 0 <= j < |log| && Terminal(log[j]);
      assert j < |log| - 1 ==> EndedBefore(log, |log| - 1);
      assert InPlace(Carried(cfg), log, |log| - 1);
    }
  }

  /**
   * At a message's completion the client holds the completed text: after any run
   * so far, an admitted `message_completed` for an open message either ends the
   * run as a mismatch, exactly when the streamed text is no prefix of the content,
   * or leaves the client with exactly the content.
   */
  lemma CompletedTextIsExact(cfg: Config, calls: seq<Call>, ev: NativeEvent, uuid: string)
    requires ev.kind.MessageCompleted? && ev.kind.content.Some?
    requires var st := ApplyAll(cfg, Initial(cfg), calls);
             && !st.terminal && Admitted(cfg, st.turnId, st.seen, ev)
             && (ev.kind.messageId in st.parts.messages.items ==>
                   var m := st.parts.messages.items[ev.kind.messageId]; !m.closed && !m.completed)
    ensures var st := ApplyAll(cfg, Initial(cfg), calls);
            var r := MapEvent(cfg, st, ev, uuid);
            var k := MessageKey(ev.kind.messageId);
            if Received(st.parts.log, k) <= ev.kind.content.value
            then !r.closed && Received(r.parts.log, k) == ev.kind.content.value
            else r.parts.log != [] && r.parts.log[|r.parts.log| - 1] == RunError(ContentMismatch)
  {
    var st := ApplyAll(cfg, Initial(cfg), calls);
    InitialIsCore(cfg);
    ApplyAllKeeps(cfg, Initial(cfg), calls);
    CompletedFromCore(cfg, st, ev, uuid);
  }

  lemma CompletedFromCore(cfg: Config, st: State, ev: NativeEvent, uuid: string)
    requires Core(cfg, st) && !st.terminal && Admitted(cfg, st.turnId, st.seen, ev)
    requires ev.kind.MessageCompleted? && ev.kind.content.Some?
    requires ev.kind.messageId in st.parts.messages.items ==>
               var m := st.parts.messages.items[ev.kind.messageId]; !m.closed && !m.completed
    ensures var r := MapEvent(cfg, st, ev, uuid);
            var k := MessageKey(ev.kind.messageId);
            if Received(st.parts.log, k) <= ev.kind.content.value
            then !r.closed && Received(r.parts.log, k) == ev.kind.content.value
            else r.parts.log != [] && r.parts.log[|r.parts.log| - 1] == RunError(ContentMismatch)
  {
    AdmitKeeps(cfg, st, ev);
    CompletionIsMapped(cfg, st, ev, uuid);
    StartedText(st.parts.log, RunStarted(cfg.threadId, cfg.runId), MessageKey(ev.kind.messageId));
    CompletedWhenReady(cfg, Admit(cfg, st, ev), ev.kind.messageId, ev.kind.content.value, ev.kind.usage);
  }

  lemma CompletionIsMapped(cfg: Config, st: State, ev: NativeEvent, uuid: string)
    requires !st.terminal && Admitted(cfg, st.turnId, st.seen, ev)
    requires ev.kind.MessageCompleted?
    ensures var ready := Admit(cfg, st, ev);
            && MapEvent(cfg, st, ev, uuid) ==
               CompleteMessage(cfg, ready.(parts := StartMessage(ready.parts, ev.kind.messageId)),
                               ev.kind.messageId, ev.kind.content, ev.kind.usage)
            && ready.parts.messages == st.parts.messages
            && ready.parts.log in {st.parts.log, st.parts.log + [RunStarted(cfg.threadId, cfg.runId)]}
  {
  }

  lemma CompletedWhenReady(cfg: Config, st: State, m: string, content: string, usage: Option<Usage>)
    requires Ready(cfg, st)
    requires m in st.parts.messages.items ==>
               !st.parts.messages.items[m].closed && !st.parts.messages.items[m].completed
    ensures var r := CompleteMessage(cfg, st.(parts := StartMessage(st.parts, m)), m, Some(content), usage);
            if Received(st.parts.log, MessageKey(m)) <= content
            then !r.closed && Received(r.parts.log, MessageKey(m)) == content
            else r.parts.log != [] && r.parts.log[|r.parts.log| - 1] == RunError(ContentMismatch)
  {
    TextSoFar(Carried(cfg), st.parts, m);
    StartMessageKeeps(Carried(cfg), st.parts, m);
    var shown := st.(parts := StartMessage(st.parts, m));
    PartsKeep(cfg, st, shown.parts);
    CompleteMessageKeeps(cfg, shown, m, Some(content), usage);
    CompletedCopy(cfg, shown, m, content, usage);
    var r := CompleteMessage(cfg, shown, m, Some(content), usage);
    if !r.closed {
      ClientHolds(Carried(cfg), r.parts, m);
    }
  }

  lemma StartedText(log: seq<WireEvent>, e: WireEvent, k: Key)
    requires Fills(e).None?
    ensures Received(log + [e], k) == Received(log, k)
  {
    assert (log + [e])[..|log + [e]| - 1] == log;
  }

  lemma TextSoFar(carried: set<string>, p: Parts, id: string)
    requires Live(carried, p) && Faithful(carried, p)
    ensures id in StartMessage(p, id).messages.items
    ensures Received(p.log, MessageKey(id)) == StartMessage(p, id).messages.items[id].text
  {
    var c := Seen(carried, p);
    AutomatonDecides(carried, p.log);
    assert Known(carried, p, c, MessageKey(id)) && Copied(p, c, MessageKey(id));
    assert PartSummarised(c, p.log, MessageKey(id));
  }

  // ---- foreign and repeated input ----

  /** The calls that matter: every call but the events of others and the repeats of durable ones. */
  function Relevant(cfg: Config, turn: Option<string>, seen: set<int>, calls: seq<Call>): seq<Call>
    decreases |calls|
  {
    if calls == [] then []
    else
      var call, rest := calls[0], calls[1..];
      if !call.CallMap? then [call] + Relevant(cfg, turn, seen, rest)
      else
        var ev := call.ev;
        if Admitted(cfg, turn, seen, ev) then
          [call] + Relevant(cfg, ev.turnId,
                            if ev.seqNo.Some? then seen + {ev.seqNo.value} else seen, rest)
        else Relevant(cfg, turn, seen, rest)
  }

  lemma KeptCall(cfg: Config, st: State, call: Call, rest: seq<Call>)
    ensures ApplyAll(cfg, st, [call] + rest) == ApplyAll(cfg, Apply(cfg, st, call), rest)
  {
    assert ([call] + rest)[1..] == rest;
  }

  /** Once no further event is mapped, only the other calls count. */
  lemma {:induction false} EndedIgnoresEvents(cfg: Config, st: State, turn: Option<string>, seen: set<int>,
                                              calls: seq<Call>)
    requires Core(cfg, st) && st.terminal
    ensures ApplyAll(cfg, st, calls) == ApplyAll(cfg, st, Relevant(cfg, turn, seen, calls))
    decreases |calls|
  {
    if calls != [] {
      var call, rest := calls[0], calls[1..];
      ApplyKeeps(cfg, st, call);
      TerminalStays(cfg, st, call);
      var next := Apply(cfg, st, call);
      var admitted := call.CallMap? && Admitted(cfg, turn, seen, call.ev);
      var turn' := if admitted then call.ev.turnId else turn;
      var seen' := if admitted && call.ev.seqNo.Some? then seen + {call.ev.seqNo.value} else seen;
      EndedIgnoresEvents(cfg, next, turn', seen', rest);
      KeptCall(cfg, st, call, Relevant(cfg, turn', seen', rest));
    }
  }

  /** An admitted event is what changes the turn followed and the sequence numbers seen. */
  lemma AdmittedEventIsFollowed(cfg: Config, st: State, ev: NativeEvent, uuid: string)
    requires !st.terminal && Admitted(cfg, st.turnId, st.seen, ev)
    ensures var r := MapEvent(cfg, st, ev, uuid);
            && r.turnId == ev.turnId
            && r.seen == if ev.seqNo.Some? then st.seen + {ev.seqNo.value} else st.seen
  {
    assert Filter(Admit(cfg, st, ev)) == Filter(MapEvent(cfg, st, ev, uuid));
  }

  lemma {:induction false} BlindFrom(cfg: Config, st: State, calls: seq<Call>)
    requires Core(cfg, st) && (st.seen != {} ==> st.turnId.Some?)
    ensures ApplyAll(cfg, st, calls) == ApplyAll(cfg, st, Relevant(cfg, st.turnId, st.seen, calls))
    decreases |calls|
  {
    if st.terminal {
      EndedIgnoresEvents(cfg, st, st.turnId, st.seen, calls);
    } else if calls != [] {
      var call, rest := calls[0], calls[1..];
      var next := Apply(cfg, st, call);
      ApplyKeeps(cfg, st, call);
      if !call.CallMap? {
        assert Filter(next) == Filter(st);
        BlindFrom(cfg, next, rest);
        KeptCall(cfg, st, call, Relevant(cfg, st.turnId, st.seen, rest));
      } else if Admitted(cfg, st.turnId, st.seen, call.ev) {
        AdmittedEventIsFollowed(cfg, st, call.ev, call.uuid);
        BlindFrom(cfg, next, rest);
        KeptCall(cfg, st, call, Relevant(cfg, next.turnId, next.seen, rest));
      } else {
        assert next == st;
        BlindFrom(cfg, st, rest);
      }
    }
  }

  /**
   * The mapper's whole state, its stream included, is a function of the public,
   * top-level events of this session and turn, each durable one counted once, and
   * of the other calls; which turn it is may come from the first such event.
   */
  lemma BlindToForeignAndRepeated(cfg: Config, calls: seq<Call>)
    ensures ApplyAll(cfg, Initial(cfg), calls) ==
            ApplyAll(cfg, Initial(cfg), Relevant(cfg, cfg.turnId, {}, calls))
  {
    InitialIsCore(cfg);
    BlindFrom(cfg, Initial(cfg), calls);
  }
}
