/**
 * A client's history in, and a native conversation out: what is admitted, and what
 * comes back when an export is sent in again.
 */
module History {
  import opened Common
  import opened Conversation

  // ---- messages on the wire ----

  datatype Attachment = Attachment(data: string, mediaType: string)

  /** A part of a user's message; `Unsupported` is any content that cannot be taken inline. */
  datatype Part = TextPart(text: string) | Inline(attachment: Attachment) | Unsupported

  datatype WireCall = WireCall(id: string, name: string, arguments: string, encrypted: bool)

  datatype Speech =
    | Display                                              // activity and reasoning
    | System(text: string)
    | Developer(text: string)
    | UserText(text: string)
    | UserParts(parts: seq<Part>)
    | Assistant(reply: Option<string>, calls: seq<WireCall>)
    | Result(call: string, text: string, failed: bool)

  datatype Wire = Wire(id: string, encrypted: bool, speech: Speech)

  /** `parses` says of a text whether it is JSON. */
  datatype Options = Options(allowSystem: bool, parses: string -> bool)

  // ---- native messages ----

  datatype Call = Call(id: string, name: string, arguments: string)

  /** What a tool gave: a text, or blocks, of which the text they flatten to is kept here. */
  datatype Content = Text(text: string) | Blocks(flattened: string)

  datatype Said =
    | SystemSaid(text: string)
    | UserSaid(text: string, attachments: seq<Attachment>)
    | AssistantSaid(reply: Option<string>, calls: seq<Call>)
    | ToolSaid(call: string, content: Content, failed: bool)

  datatype Native = Native(id: Option<string>, said: Said)

  // ---- admission, message by message ----

  datatype Refusal =
    | EmptyId(index: nat) | RepeatedId(index: nat) | EncryptedMessage | SystemNotAllowed | UnsupportedContent
    | NamelessCall | CallTwice | EncryptedCall | ArgumentsNotJson
    | CallsUnanswered | ResultTwice | ResultUnasked | EndsUnanswered

  datatype Seen = Seen(ids: set<string>, track: Track)

  function TakeCall(t: Track, call: WireCall, opts: Options): Result<Track, Refusal> {
    if call.id == "" || call.name == "" then Failure(NamelessCall)
    else if call.id in t.calls then Failure(CallTwice)
    else if call.encrypted then Failure(EncryptedCall)
    else if !opts.parses(call.arguments) then Failure(ArgumentsNotJson)
    else Success(t.(calls := t.calls + {call.id}, pending := t.pending + {call.id}))
  }

  function TakeCalls(t: Track, calls: seq<WireCall>, opts: Options): Result<Track, Refusal> {
    if calls == [] then Success(t)
    else
      var before := TakeCalls(t, calls[..|calls| - 1], opts);
      if before.Failure? then before else TakeCall(before.value, calls[|calls| - 1], opts)
  }

  function TakeResult(t: Track, call: string): Result<Track, Refusal> {
    if call in t.answered then Failure(ResultTwice)
    else if call !in t.pending then Failure(ResultUnasked)
    else Success(t.(pending := t.pending - {call}, answered := t.answered + {call}))
  }

  function TakeSpeech(t: Track, speech: Speech, opts: Options): Result<Track, Refusal> {
    if t.pending != {} && !speech.Result? then Failure(CallsUnanswered)
    else
      match speech
      case System(_) => if opts.allowSystem then Success(t) else Failure(SystemNotAllowed)
      case Developer(_) => if opts.allowSystem then Success(t) else Failure(SystemNotAllowed)
      case UserParts(parts) => if Unsupported in parts then Failure(UnsupportedContent) else Success(t)
      case Assistant(_, calls) => TakeCalls(t, calls, opts)
      case Result(call, _, _) => TakeResult(t, call)
      case _ => Success(t)
  }

  function Take(seen: Seen, m: Wire, index: nat, opts: Options): Result<Seen, Refusal> {
    if m.id == "" then Failure(EmptyId(index))
    else if m.id in seen.ids then Failure(RepeatedId(index))
    else
      var ids := seen.ids + {m.id};
      if m.speech.Display? then Success(Seen(ids, seen.track))
      else if m.encrypted then Failure(EncryptedMessage)
      else
        var r := TakeSpeech(seen.track, m.speech, opts);
        if r.Failure? then Failure(r.error) else Success(Seen(ids, r.value))
  }

  function TakeAll(ms: seq<Wire>, opts: Options): Result<Seen, Refusal> {
    if ms == [] then Success(Seen({}, NOTHING_ASKED))
    else
      var n := |ms| - 1;
      var before := TakeAll(ms[..n], opts);
      if before.Failure? then before else Take(before.value, ms[n], n, opts)
  }

  // ---- conversion ----

  function TextsOf(parts: seq<Part>): seq<string> {
    if parts == [] then []
    else
      var last := parts[|parts| - 1];
      TextsOf(parts[..|parts| - 1]) + if last.TextPart? then [last.text] else []
  }

  function Attached(parts: seq<Part>): seq<Attachment> {
    if parts == [] then []
    else
      var last := parts[|parts| - 1];
      Attached(parts[..|parts| - 1]) + if last.Inline? then [last.attachment] else []
  }

  function JoinLines(texts: seq<string>): string {
    if texts == [] then ""
    else if |texts| == 1 then texts[0]
    else JoinLines(texts[..|texts| - 1]) + "\n" + texts[|texts| - 1]
  }

  function Calls(calls: seq<WireCall>): (r: seq<Call>)
    ensures |r| == |calls|
  {
    seq(|calls|, i requires 0 <= i < |calls| => Call(calls[i].id, calls[i].name, calls[i].arguments))
  }

  /** The native message of one on the wire; what is only for display has none. */
  function Convert(speech: Speech): seq<Said> {
    match speech
    case Display => []
    case System(text) => [SystemSaid(text)]
    case Developer(text) => [SystemSaid(text)]
    case UserText(text) => [UserSaid(text, [])]
    case UserParts(parts) => [UserSaid(JoinLines(TextsOf(parts)), Attached(parts))]
    case Assistant(reply, calls) => [AssistantSaid(reply, Calls(calls))]
    case Result(call, text, failed) => [ToolSaid(call, Text(text), failed)]
  }

  function Converted(ms: seq<Wire>): seq<Said> {
    if ms == [] then [] else Converted(ms[..|ms| - 1]) + Convert(ms[|ms| - 1].speech)
  }

  /** What sending a history in gives. */
  function Admitted(ms: seq<Wire>, opts: Options): Common.Result<seq<Said>, Refusal> {
    var seen := TakeAll(ms, opts);
    if seen.Failure? then Failure(seen.error)
    else if seen.value.track.pending != {} then Failure(EndsUnanswered)
    else Success(Converted(ms))
  }

  method ToNamzuMessages(messages: seq<Wire>, opts: Options) returns (r: Common.Result<seq<Said>, Refusal>)
    ensures r == Admitted(messages, opts)
  {
    var result: seq<Said> := [];
    var messageIds, callIds, pending, answered := {}, {}, {}, {};
    for index := 0 to |messages|
      invariant TakeAll(messages[..index], opts) == Success(Seen(messageIds, Track(callIds, pending, answered)))
      invariant result == Converted(messages[..index])
    {
      TakeNext(messages, index, opts);
      var message := messages[index];
      if message.id == "" {
        return Failure(EmptyId(index));
      }
      if message.id in messageIds {
        return Failure(RepeatedId(index));
      }
      ghost var was := Seen(messageIds, Track(callIds, pending, answered));
      messageIds := messageIds + {message.id};
      if !message.speech.Display? {
        if message.encrypted {
          return Failure(EncryptedMessage);
        }
        var step := ReadSpeech(Track(callIds, pending, answered), message.speech, opts);
        if step.Failure? {
          return Failure(step.error);
        }
        callIds, pending, answered := step.value.calls, step.value.pending, step.value.answered;
      }
      result := result + Convert(message.speech);
    }
    assert messages[..|messages|] == messages;
    if pending != {} {
      return Failure(EndsUnanswered);
    }
    return Success(result);
  }

  /** The first refusal is the one that is reported. */
  lemma TakeNext(ms: seq<Wire>, n: nat, opts: Options)
    requires n < |ms| && TakeAll(ms[..n], opts).Success?
    ensures TakeAll(ms[..n + 1], opts) == Take(TakeAll(ms[..n], opts).value, ms[n], n, opts)
    ensures Take(TakeAll(ms[..n], opts).value, ms[n], n, opts).Failure? ==>
              TakeAll(ms, opts) == Take(TakeAll(ms[..n], opts).value, ms[n], n, opts)
    ensures Converted(ms[..n + 1]) == Converted(ms[..n]) + Convert(ms[n].speech)
  {
    assert ms[..n + 1][..n] == ms[..n];
    if Take(TakeAll(ms[..n], opts).value, ms[n], n, opts).Failure? { FailureStays(ms, n + 1, opts); }
  }

  lemma {:induction false} FailureStays(ms: seq<Wire>, n: nat, opts: Options)
    requires n <= |ms| && TakeAll(ms[..n], opts).Failure?
    ensures TakeAll(ms, opts) == TakeAll(ms[..n], opts)
    decreases |ms|
  {
    if n == |ms| {
      assert ms[..n] == ms;
    } else {
      var shorter := ms[..|ms| - 1];
      assert shorter[..n] == ms[..n];
      FailureStays(shorter, n, opts);
    }
  }

  method ReadSpeech(t: Track, speech: Speech, opts: Options) returns (r: Common.Result<Track, Refusal>)
    ensures r == TakeSpeech(t, speech, opts)
  {
    if t.pending != {} && !speech.Result? {
      return Failure(CallsUnanswered);
    }
    match speech
    case Assistant(_, calls) =>
      var track := t;
      for k := 0 to |calls|
        invariant TakeCalls(t, calls[..k], opts) == Success(track)
      {
        var call := calls[k];
        assert calls[..k + 1][..k] == calls[..k];
        var step := TakeCall(track, call, opts);
        if step.Failure? {
          CallFailureStays(t, calls, k + 1, opts);
          return step;
        }
        track := step.value;
      }
      assert calls[..|calls|] == calls;
      return Success(track);
    case _ =>
      return TakeSpeech(t, speech, opts);
  }

  lemma {:induction false} CallFailureStays(t: Track, calls: seq<WireCall>, n: nat, opts: Options)
    requires n <= |calls| && TakeCalls(t, calls[..n], opts).Failure?
    ensures TakeCalls(t, calls, opts) == TakeCalls(t, calls[..n], opts)
    decreases |calls|
  {
    if n == |calls| {
      assert calls[..n] == calls;
    } else {
      var shorter := calls[..|calls| - 1];
      assert shorter[..n] == calls[..n];
      CallFailureStays(t, shorter, n, opts);
    }
  }

  // ---- what is admitted ----

  function CallIds(calls: seq<WireCall>): (ids: seq<string>)
    ensures |ids| == |calls|
  {
    seq(|calls|, i requires 0 <= i < |calls| => calls[i].id)
  }

  /** What a message is to the tool rounds. */
  function ShapeOf(speech: Speech): Shape {
    match speech
    case Display => Quiet
    case Assistant(_, calls) => Says(CallIds(calls))
    case Result(call, _, _) => Answers(call)
    case _ => Says([])
  }

  function Shapes(ms: seq<Wire>): (r: seq<Shape>)
    ensures |r| == |ms|
  {
    seq(|ms|, i requires 0 <= i < |ms| => ShapeOf(ms[i].speech))
  }

  predicate CallFits(call: WireCall, opts: Options) {
    call.id != "" && call.name != "" && !call.encrypted && opts.parses(call.arguments)
  }

  /** A message that can be taken, whatever the others are. */
  predicate Fits(m: Wire, opts: Options) {
    && m.id != ""
    && (m.speech.Display? || !m.encrypted)
    && (m.speech.System? || m.speech.Developer? ==> opts.allowSystem)
    && (m.speech.UserParts? ==> Unsupported !in m.speech.parts)
    && (m.speech.Assistant? ==> forall i :: 0 <= i < |m.speech.calls| ==> CallFits(m.speech.calls[i], opts))
  }

  predicate AllFit(ms: seq<Wire>, opts: Options) { forall i :: 0 <= i < |ms| ==> Fits(ms[i], opts) }

  predicate UniqueIds(ms: seq<Wire>) { forall i, j :: 0 <= i < j < |ms| ==> ms[i].id != ms[j].id }

  ghost predicate Admissible(ms: seq<Wire>, opts: Options) {
    AllFit(ms, opts) && UniqueIds(ms) && Complete(Shapes(ms))
  }

  lemma {:induction false} CallsTaken(t: Track, calls: seq<WireCall>, opts: Options)
    ensures TakeCalls(t, calls, opts).Success? <==>
            && (forall i :: 0 <= i < |calls| ==> CallFits(calls[i], opts))
            && Distinct(CallIds(calls)) && forall c :: c in CallIds(calls) ==> c !in t.calls
    ensures TakeCalls(t, calls, opts).Success? ==>
            TakeCalls(t, calls, opts).value ==
            Track(t.calls + SetOf(CallIds(calls)), t.pending + SetOf(CallIds(calls)), t.answered)
  {
    var ids := CallIds(calls);
    if calls == [] {
      assert SetOf(ids) == {};
    } else {
      var n := |calls| - 1;
      var before := calls[..n];
      CallsTaken(t, before, opts);
      assert ids == CallIds(before) + [calls[n].id];
      assert SetOf(ids) == SetOf(CallIds(before)) + {calls[n].id};
      LastIsNew(CallIds(before), calls[n].id);
    }
  }

  lemma LastIsNew(ids: seq<string>, last: string)
    ensures Distinct(ids + [last]) <==> Distinct(ids) && last !in ids
  {
    var all := ids + [last];
    if Distinct(all) {
      assert forall i :: 0 <= i < |ids| ==> all[i] == ids[i] && all[|ids|] == last;
    }
  }

  lemma SpeechTaken(t: Track, m: Wire, opts: Options)
    requires m.id != "" && !m.speech.Display? && !m.encrypted
    ensures TakeSpeech(t, m.speech, opts).Success? <==> Fits(m, opts) && Next(t, ShapeOf(m.speech)).Success?
    ensures TakeSpeech(t, m.speech, opts).Success? ==>
              TakeSpeech(t, m.speech, opts).value == Next(t, ShapeOf(m.speech)).value
  {
    assert SetOf([]) == {};
    if m.speech.Assistant? { CallsTaken(t, m.speech.calls, opts); }
    assert t.calls + {} == t.calls;
  }

  predicate HasId(ms: seq<Wire>, id: string) { exists i :: 0 <= i < |ms| && ms[i].id == id }

  lemma LastId(ms: seq<Wire>, id: string)
    requires ms != []
    ensures var n := |ms| - 1;
            && (UniqueIds(ms) <==> UniqueIds(ms[..n]) && !HasId(ms[..n], ms[n].id))
            && (HasId(ms, id) <==> HasId(ms[..n], id) || ms[n].id == id)
  {
    var n := |ms| - 1;
    assert forall i :: 0 <= i < n ==> ms[..n][i] == ms[i];
    if i :| 0 <= i < |ms| && ms[i].id == id {
      assert i < n ==> ms[..n][i].id == id;
    }
    if UniqueIds(ms) {
      assert forall i :: 0 <= i < n ==> ms[i].id != ms[n].id;
    }
  }

  lemma {:induction false} AllTaken(ms: seq<Wire>, opts: Options)
    ensures TakeAll(ms, opts).Success? <==> AllFit(ms, opts) && UniqueIds(ms) && Tracked(Shapes(ms)).Success?
    ensures TakeAll(ms, opts).Success? ==>
            && TakeAll(ms, opts).value.track == Tracked(Shapes(ms)).value
            && (forall id :: id in TakeAll(ms, opts).value.ids <==> HasId(ms, id))
  {
    if ms != [] {
      var n := |ms| - 1;
      AllTaken(ms[..n], opts);
      assert Shapes(ms)[..n] == Shapes(ms[..n]);
      assert AllFit(ms, opts) <==> AllFit(ms[..n], opts) && Fits(ms[n], opts);
      var before := TakeAll(ms[..n], opts);
      if before.Success? && ms[n].id != "" && !ms[n].speech.Display? && !ms[n].encrypted {
        SpeechTaken(before.value.track, ms[n], opts);
      }
      LastId(ms, ms[n].id);
      forall id ensures HasId(ms, id) <==> HasId(ms[..n], id) || ms[n].id == id {
        LastId(ms, id);
      }
    }
  }

  /** A history is admitted exactly when its messages can be taken, have ids of their own, and are complete. */
  lemma AdmittedExactly(ms: seq<Wire>, opts: Options)
    ensures Admitted(ms, opts).Success? <==> Admissible(ms, opts)
    ensures Admitted(ms, opts).Success? ==> Admitted(ms, opts).value == Converted(ms)
  {
    AllTaken(ms, opts);
    AcceptedExactlyComplete(Shapes(ms));
  }

  // ---- export ----

  function Digit(d: nat): char
    requires d < 10
  {
    (('0' as int) + d) as char
  }

  function Decimal(n: nat): (r: string)
    ensures r != ""
  {
    (if n < 10 then "" else Decimal(n / 10)) + [Digit(n % 10)]
  }

  /** The id that an export gives a message: its own, or one made of its place. */
  function IdFor(m: Native, prefix: string, index: nat): string { m.id.GetOr(prefix + Decimal(index)) }

  function WireCalls(calls: seq<Call>): (r: seq<WireCall>)
    ensures |r| == |calls|
  {
    seq(|calls|, i requires 0 <= i < |calls| => WireCall(calls[i].id, calls[i].name, calls[i].arguments, false))
  }

  /** A native message as it is shown; a system message is not. */
  function Shown(said: Said): seq<Speech> {
    match said
    case SystemSaid(_) => []
    case UserSaid(text, _) => [UserText(text)]
    case AssistantSaid(reply, calls) => [Assistant(reply, WireCalls(calls))]
    case ToolSaid(call, content, failed) =>
      [Result(call, if content.Text? then content.text else content.flattened, failed)]
  }

  function Exported(h: seq<Native>, prefix: string): seq<Wire> {
    if h == [] then []
    else
      var n := |h| - 1;
      var shown := Shown(h[n].said);
      Exported(h[..n], prefix) + if shown == [] then [] else [Wire(IdFor(h[n], prefix, n), false, shown[0])]
  }

  method FromNamzuMessages(h: seq<Native>, prefix: string) returns (result: seq<Wire>)
    ensures result == Exported(h, prefix)
  {
    result := [];
    for index := 0 to |h|
      invariant result == Exported(h[..index], prefix)
    {
      assert h[..index + 1][..index] == h[..index];
      var id := IdFor(h[index], prefix, index);
      match h[index].said
      case SystemSaid(_) =>
      case UserSaid(text, _) =>
        result := result + [Wire(id, false, UserText(text))];
      case AssistantSaid(reply, calls) =>
        result := result + [Wire(id, false, Assistant(reply, WireCalls(calls)))];
      case ToolSaid(call, content, failed) =>
        var text := match content case Text(t) => t case Blocks(t) => t;
        result := result + [Wire(id, false, Result(call, text, failed))];
    }
    assert h[..|h|] == h;
  }

  // ---- there and back ----

  function NativeShape(said: Said): Shape {
    match said
    case AssistantSaid(_, calls) => Says(seq(|calls|, i requires 0 <= i < |calls| => calls[i].id))
    case ToolSaid(call, _, _) => Answers(call)
    case _ => Says([])
  }

  function NativeShapes(h: seq<Native>): (r: seq<Shape>)
    ensures |r| == |h|
  {
    seq(|h|, i requires 0 <= i < |h| => NativeShape(h[i].said))
  }

  /** Nothing but text: no system message, no attachment, no block, and calls that can be sent. */
  predicate Plain(said: Said, opts: Options) {
    match said
    case SystemSaid(_) => false
    case UserSaid(_, attachments) => attachments == []
    case AssistantSaid(_, calls) =>
      forall i :: 0 <= i < |calls| ==> calls[i].id != "" && calls[i].name != "" && opts.parses(calls[i].arguments)
    case ToolSaid(_, content, _) => content.Text?
  }

  ghost predicate TextHistory(h: seq<Native>, opts: Options) {
    AllPlain(h, opts) && Complete(NativeShapes(h))
  }

  function Sayings(h: seq<Native>): (r: seq<Said>)
    ensures |r| == |h|
  {
    seq(|h|, i requires 0 <= i < |h| => h[i].said)
  }

  /** The ids in an export can be told apart, and each is one. */
  predicate IdsServe(h: seq<Native>, prefix: string) {
    && (forall i :: 0 <= i < |h| ==> IdFor(h[i], prefix, i) != "")
    && (forall i, j :: 0 <= i < j < |h| ==> IdFor(h[i], prefix, i) != IdFor(h[j], prefix, j))
  }

  /** The message that shows a native one, which is no system message. */
  function WireOf(m: Native, prefix: string, n: nat): Wire {
    Wire(IdFor(m, prefix, n), false, if Shown(m.said) == [] then Display else Shown(m.said)[0])
  }

  lemma PlainReturns(m: Native, prefix: string, n: nat, opts: Options)
    requires Plain(m.said, opts)
    ensures Shown(m.said) != []
    ensures var w := WireOf(m, prefix, n);
            Convert(w.speech) == [m.said] && ShapeOf(w.speech) == NativeShape(m.said) && (Fits(w, opts) <==> w.id != "")
  {
    if m.said.AssistantSaid? {
      var calls := m.said.calls;
      assert Calls(WireCalls(calls)) == calls;
      assert CallIds(WireCalls(calls)) == seq(|calls|, i requires 0 <= i < |calls| => calls[i].id);
    }
  }

  predicate AllPlain(h: seq<Native>, opts: Options) { forall i :: 0 <= i < |h| ==> Plain(h[i].said, opts) }

  /** The export of a text history, message by message. */
  lemma {:induction false} ExportOfText(h: seq<Native>, prefix: string, opts: Options)
    requires AllPlain(h, opts)
    ensures |Exported(h, prefix)| == |h|
    ensures forall i :: 0 <= i < |h| ==> Exported(h, prefix)[i] == WireOf(h[i], prefix, i)
  {
    if h != [] {
      var n := |h| - 1;
      ExportOfText(h[..n], prefix, opts);
      PlainReturns(h[n], prefix, n, opts);
      assert Exported(h, prefix) == Exported(h[..n], prefix) + [WireOf(h[n], prefix, n)];
    }
  }

  /** When each message converts to one, they convert one by one. */
  lemma {:induction false} ConvertedEach(ms: seq<Wire>, said: seq<Said>)
    requires |ms| == |said| && forall i :: 0 <= i < |ms| ==> Convert(ms[i].speech) == [said[i]]
    ensures Converted(ms) == said
  {
    if ms != [] {
      var n := |ms| - 1;
      ConvertedEach(ms[..n], said[..n]);
      assert said == said[..n] + [said[n]];
    }
  }

  lemma ExportConverts(h: seq<Native>, prefix: string, opts: Options)
    requires AllPlain(h, opts)
    ensures Converted(Exported(h, prefix)) == Sayings(h)
  {
    ExportOfText(h, prefix, opts);
    forall i | 0 <= i < |h| ensures Convert(Exported(h, prefix)[i].speech) == [Sayings(h)[i]] {
      PlainReturns(h[i], prefix, i, opts);
    }
    ConvertedEach(Exported(h, prefix), Sayings(h));
  }

  lemma ExportFits(h: seq<Native>, prefix: string, opts: Options)
    requires AllPlain(h, opts)
    ensures AllFit(Exported(h, prefix), opts) && UniqueIds(Exported(h, prefix)) <==> IdsServe(h, prefix)
    ensures Shapes(Exported(h, prefix)) == NativeShapes(h)
  {
    var ms := Exported(h, prefix);
    ExportOfText(h, prefix, opts);
    forall i | 0 <= i < |h|
      ensures (Fits(ms[i], opts) <==> IdFor(h[i], prefix, i) != "") && Shapes(ms)[i] == NativeShapes(h)[i]
    {
      PlainReturns(h[i], prefix, i, opts);
    }
  }

  /** A text history that is exported and sent in again is the same, exactly when its ids serve. */
  lemma ExportReturns(h: seq<Native>, prefix: string, opts: Options)
    requires TextHistory(h, opts)
    ensures Admitted(Exported(h, prefix), opts).Success? <==> IdsServe(h, prefix)
    ensures IdsServe(h, prefix) ==> Admitted(Exported(h, prefix), opts) == Success(Sayings(h))
  {
    AdmittedExactly(Exported(h, prefix), opts);
    ExportFits(h, prefix, opts);
    ExportConverts(h, prefix, opts);
  }

  lemma {:induction false} DecimalsDiffer(a: nat, b: nat)
    requires Decimal(a) == Decimal(b)
    ensures a == b
  {
    var x, y := Decimal(a), Decimal(b);
    assert x[|x| - 1] == Digit(a % 10) && y[|y| - 1] == Digit(b % 10);
    assert x[..|x| - 1] == if a < 10 then "" else Decimal(a / 10);
    assert y[..|y| - 1] == if b < 10 then "" else Decimal(b / 10);
    if a >= 10 && b >= 10 { DecimalsDiffer(a / 10, b / 10); }
  }

  /** A history that was never recorded has no ids, and always comes back. */
  lemma UnrecordedReturns(h: seq<Native>, prefix: string, opts: Options)
    requires TextHistory(h, opts) && forall i :: 0 <= i < |h| ==> h[i].id.None?
    ensures Admitted(Exported(h, prefix), opts) == Success(Sayings(h))
  {
    forall i, j | 0 <= i < j < |h| ensures IdFor(h[i], prefix, i) != IdFor(h[j], prefix, j) {
      if prefix + Decimal(i) == prefix + Decimal(j) {
        assert (prefix + Decimal(i))[|prefix|..] == Decimal(i) && (prefix + Decimal(j))[|prefix|..] == Decimal(j);
        DecimalsDiffer(i, j);
      }
    }
    ExportReturns(h, prefix, opts);
  }
}
