/**
 * What the syntax walker records. It keeps a stack of its own; it is proved equal to
 * a plain recursion over the tree.
 */
module SyntaxWalk {
  import opened Common
  import opened Text
  import opened SyntaxTree

  datatype FunctionRow = FunctionRow(
    id: int, parentId: Option<int>, kind: FunctionKind, name: Option<string>, qname: Option<string>, start: nat, end: nat)

  datatype ClassRow = ClassRow(name: Option<string>, start: nat, end: nat)

  datatype LiteralKind = StringLiteral | TemplateLiteral | KeyLiteral

  /** Of a literal that is too long both ends are stored, and `cut` tells its length; 0 for any other. */
  datatype StringRow = StringRow(
    fnId: Option<int>, start: nat, end: nat, kind: LiteralKind, value: string, cut: nat)

  datatype CallKind = PlainCall | NewCall | CallVia | TaggedCall

  datatype CallRow = CallRow(
    fnId: Option<int>, start: nat, end: nat, callee: string, kind: CallKind, nargs: nat, owner: Option<string>)

  datatype Rows = Rows(
    functions: seq<FunctionRow>, classes: seq<ClassRow>, strings: seq<StringRow>, calls: seq<CallRow>)

  const NO_ROWS := Rows([], [], [], [])

  const MAX_LITERAL_CHARS := 4096
  const CUT_MARK := "\U{1}\U{2}\U{1}"

  /**
   * A literal of more than twice the limit, in units, keeps its two ends: at most
   * the limit of each, and never half of a code point.
   */
  function Cap(value: string): (string, nat) {
    if Units(value) <= MAX_LITERAL_CHARS * 2 then (value, 0)
    else
      (value[..Fitting(value, MAX_LITERAL_CHARS)] + CUT_MARK + value[FittingFrom(value, MAX_LITERAL_CHARS)..],
       Units(value))
  }

  /** Fields with types, comments or tokens in them, which are not entered. */
  predicate SkippedKey(k: Key) {
    k.AtTypeAnnotation? || k.AtReturnType? || k.AtTypeParameters? ||
    k.AtTypeArguments? || k.AtSuperTypeArguments? || k.AtSuperTypeParameters? ||
    k.AtImplements? || k.AtComments? || k.AtTokens? || k.AtErrors?
  }

  predicate Skipped(k: Kind) {
    k.TSInterfaceDeclaration? || k.TSTypeAliasDeclaration? || k.TSTypeAnnotation? ||
    k.TSTypeParameterDeclaration? || k.TSTypeParameterInstantiation? || k.TSLiteralType? || k.TSImportType? ||
    k.TSIndexSignature? || k.TSTypeQuery? || k.TSDeclareFunction? || k.TSEmptyBodyFunctionExpression?
  }

  predicate IsFunctionType(k: Kind) {
    k.FunctionDeclaration? || k.FunctionExpression? || k.ArrowFunctionExpression?
  }

  predicate IsClassType(k: Kind) {
    k.ClassDeclaration? || k.ClassExpression?
  }

  predicate PassesContainer(k: Kind) {
    k.ClassBody? || k.MethodDefinition? || k.PropertyDefinition? || k.AccessorProperty? || k.StaticBlock?
  }

  // ---- frames ----

  /**
   * What comes down to a node from above: the function it is in; `container`, the
   * prefix for the names of members found here; `thisOwner`, to whom `this` is
   * ascribed; and `hint`, what to call a class or an object that has no name.
   */
  datatype Context = Context(
    fnId: Option<int>, container: Option<string>, thisOwner: Option<string>, hint: Option<string>)

  const TOP := Context(None, None, None, None)

  /** A node to visit; `slot` is the field of its parent it is the value of, none in an array. */
  datatype Frame = Frame(node: Node, parent: Option<Node>, slot: Option<Key>, ctx: Context)

  datatype Kid = Kid(node: Node, slot: Option<Key>)

  function Members(nodes: seq<Node>): seq<Kid> {
    seq(|nodes|, i requires 0 <= i < |nodes| => Kid(nodes[i], None))
  }

  function KidsIn(field: Field): seq<Kid> {
    if SkippedKey(field.key) then []
    else
      match field.value
      case One(n) => [Kid(n, Some(field.key))]
      case Many(nodes) => Members(nodes)
      case _ => []
  }

  /** The children of a node, in source order. */
  function Kids(fields: seq<Field>): seq<Kid> {
    if fields == [] then [] else KidsIn(fields[0]) + Kids(fields[1..])
  }

  function KidsSize(kids: seq<Kid>): nat {
    if kids == [] then 0 else Size(kids[0].node) + KidsSize(kids[1..])
  }

  lemma {:induction false} KidsSizeAppend(a: seq<Kid>, b: seq<Kid>)
    ensures KidsSize(a + b) == KidsSize(a) + KidsSize(b)
  {
    if a == [] {
      assert a + b == b;
    } else {
      KidsSizeAppend(a[1..], b);
      assert (a + b)[1..] == a[1..] + b;
    }
  }

  lemma {:induction false} MembersSize(nodes: seq<Node>)
    ensures KidsSize(Members(nodes)) == NodesSize(nodes)
  {
    if nodes != [] {
      MembersSize(nodes[1..]);
      assert Members(nodes)[1..] == Members(nodes[1..]);
    }
  }

  lemma {:induction false} KidsAreSmaller(fields: seq<Field>)
    ensures KidsSize(Kids(fields)) <= FieldsSize(fields)
  {
    if fields != [] {
      KidsAreSmaller(fields[1..]);
      KidsSizeAppend(KidsIn(fields[0]), Kids(fields[1..]));
      if fields[0].value.Many? { MembersSize(fields[0].value.nodes); }
      if fields[0].value.One? { assert KidsIn(fields[0]) != [] ==> KidsIn(fields[0])[1..] == []; }
    }
  }

  // ---- what one node adds ----

  /** The function stands as the value of an entry of something that has a name to qualify it by. */
  predicate IsMember(f: Frame) {
    f.ctx.container.Some? &&
    (RangeOwner(f.node, f.parent, f.slot).member ||
     (f.parent.Some? &&
      (f.parent.value.kind.Property? || f.parent.value.kind.PropertyDefinition? || f.parent.value.kind.AccessorProperty?) &&
      f.slot == Some(AtValue)))
  }

  function FunctionName(f: Frame): Option<string> {
    var owner := RangeOwner(f.node, f.parent, f.slot);
    if !owner.member then InferName(f.node, f.parent)
    else KeyName(Get(owner.node, AtKey), GetFlag(owner.node, AtComputed))
  }

  function FunctionFor(f: Frame, id: int): FunctionRow {
    var owner := RangeOwner(f.node, f.parent, f.slot);
    var bare := FunctionName(f);
    FunctionRow(id, f.ctx.fnId, owner.kind, bare,
                if IsMember(f) && bare.Some? then Some(f.ctx.container.value + "." + bare.value) else None,
                owner.node.start, owner.node.end)
  }

  function ClassName(f: Frame): Option<string> {
    var own := NameOf(Get(f.node, AtId));
    if own.Some? then own else f.ctx.hint
  }

  function ClassFor(f: Frame): ClassRow { ClassRow(ClassName(f), f.node.start, f.node.end) }

  /** What the node tells its children; `id` is its own when it is a function. */
  function ContextBelow(f: Frame, id: int): Context {
    var n, kind, ctx := f.node, f.node.kind, f.ctx;
    if IsFunctionType(kind) then
      Context(Some(id), None,
              if kind == ArrowFunctionExpression then ctx.thisOwner
              else if IsMember(f) then ctx.container else None,
              None)
    else if IsClassType(kind) then Context(ctx.fnId, ClassName(f), ClassName(f), None)
    else if kind == ObjectExpression then Context(ctx.fnId, ctx.hint, ctx.thisOwner, None)
    else if PassesContainer(kind) then Context(ctx.fnId, ctx.container, ctx.thisOwner, None)
    else if kind == Property then
      var key := KeyName(Get(n, AtKey), GetFlag(n, AtComputed));
      Context(ctx.fnId, ctx.container, ctx.thisOwner,
              if ctx.container.Some? && key.Some? then Some(ctx.container.value + "." + key.value) else None)
    else if kind == VariableDeclarator then
      Context(ctx.fnId, None, ctx.thisOwner, IdentifierName(Get(n, AtId)))
    else if kind == AssignmentExpression then
      Context(ctx.fnId, None, ctx.thisOwner, TargetName(Get(n, AtLeft)))
    else if kind == ExportDefaultDeclaration then Context(ctx.fnId, None, ctx.thisOwner, Some("default"))
    else if Unwraps(kind) then Context(ctx.fnId, None, ctx.thisOwner, ctx.hint)
    else Context(ctx.fnId, None, ctx.thisOwner, None)
  }

  predicate IsModuleSource(f: Frame) {
    f.slot == Some(AtSource) && f.parent.Some? &&
    (f.parent.value.kind.ImportDeclaration? || f.parent.value.kind.ExportAllDeclaration? ||
     f.parent.value.kind.ExportNamedDeclaration?)
  }

  function StringsOf(f: Frame): (r: seq<StringRow>)
    ensures forall s :: s in r ==> s.fnId == f.ctx.fnId
  {
    var n := f.node;
    if n.kind == Literal && GetText(n, AtValue).Some? && !IsModuleSource(f) then
      var kept := Cap(GetText(n, AtValue).value);
      var key := f.parent.Some? && f.slot == Some(AtKey) && !GetFlag(f.parent.value, AtComputed);
      [StringRow(f.ctx.fnId, n.start, n.end, if key then KeyLiteral else StringLiteral, kept.0, kept.1)]
    else if n.kind == TemplateElement then
      var value := GetText(n, AtCooked).GetOr(GetText(n, AtRaw).GetOr(""));
      var kept := Cap(value);
      if value == "" then []
      else [StringRow(f.ctx.fnId, n.start, n.end, TemplateLiteral, kept.0, kept.1)]
    else []
  }

  predicate OnThis(callee: string) { "this." <= callee }

  function CallFor(f: Frame, callee: string, kind: CallKind, nargs: nat): CallRow {
    CallRow(f.ctx.fnId, f.node.start, f.node.end, callee, kind, nargs,
            if OnThis(callee) then f.ctx.thisOwner else None)
  }

  /** One row for the call, and a second one under `via` when that is given. */
  function Called(f: Frame, callee: string, via: Option<string>, kind: CallKind, nargs: nat): (r: seq<CallRow>)
    ensures forall s :: s in r ==> s.fnId == f.ctx.fnId
  {
    [CallFor(f, callee, kind, nargs)] + (if via.Some? then [CallFor(f, via.value, CallVia, nargs)] else [])
  }

  function CallsOf(f: Frame): (r: seq<CallRow>)
    ensures forall s :: s in r ==> s.fnId == f.ctx.fnId
  {
    var n := f.node;
    if n.kind == CallExpression || n.kind == NewExpression then
      var nargs := |GetList(n, AtArguments)|;
      var plain := n.kind == CallExpression;
      Called(f, CalleeText(Get(n, AtCallee)), if plain then CallViaTarget(Get(n, AtCallee)) else None,
             if plain then PlainCall else NewCall, nargs)
    else if n.kind == TaggedTemplateExpression then
      var quasi := Get(n, AtQuasi);
      [CallFor(f, CalleeText(Get(n, AtTag)), TaggedCall,
               if quasi.Some? then |GetList(quasi.value, AtExpressions)| else 0)]
    else if n.kind == ImportExpression then
      [CallRow(f.ctx.fnId, n.start, n.end, "import", PlainCall, 1, None)]
    else []
  }

  /** What is recorded of a node, and what its children are told. */
  datatype Visitor = Visitor(
    function_: (Frame, int) -> FunctionRow,
    class_: Frame -> ClassRow,
    strings: Frame -> seq<StringRow>,
    calls: Frame -> seq<CallRow>,
    below: (Frame, int) -> Context)

  const INDEXING := Visitor(FunctionFor, ClassFor, StringsOf, CallsOf, ContextBelow)

  /** The rows after visiting one node; `base` is the id the first function got. */
  function Visit(v: Visitor, base: int, f: Frame, rows: Rows): Rows {
    Rows(if IsFunctionType(f.node.kind) then rows.functions + [v.function_(f, base + |rows.functions|)]
         else rows.functions,
         if IsClassType(f.node.kind) then rows.classes + [v.class_(f)] else rows.classes,
         rows.strings + v.strings(f),
         rows.calls + v.calls(f))
  }

  // ---- the recursive traversal ----

  function FrameFor(kid: Kid, parent: Node, ctx: Context): Frame {
    Frame(kid.node, Some(parent), kid.slot, ctx)
  }

  function Walk(v: Visitor, base: int, f: Frame, rows: Rows): Rows
    decreases Size(f.node), 0
  {
    if Skipped(f.node.kind) then rows
    else
      KidsAreSmaller(f.node.fields);
      WalkKids(v, base, Kids(f.node.fields), f.node, v.below(f, base + |rows.functions|), Visit(v, base, f, rows))
  }

  function WalkKids(v: Visitor, base: int, kids: seq<Kid>, parent: Node, ctx: Context, rows: Rows): Rows
    decreases KidsSize(kids), 1 + |kids|
  {
    if kids == [] then rows
    else
      WalkKids(v, base, kids[1..], parent, ctx, Walk(v, base, FrameFor(kids[0], parent, ctx), rows))
  }

  function RootFrame(program: Node): Frame { Frame(program, None, None, TOP) }

  // ---- the explicit stack ----

  /** What is left to do when the top of `stack` is its last frame. */
  function WalkStack(v: Visitor, base: int, stack: seq<Frame>, rows: Rows): Rows
    decreases |stack|
  {
    if stack == [] then rows
    else WalkStack(v, base, stack[..|stack| - 1], Walk(v, base, stack[|stack| - 1], rows))
  }

  /** Popping a frame: a skipped type goes, any other node is visited and its children pushed. */
  lemma PopFrame(v: Visitor, base: int, stack: seq<Frame>, f: Frame, rows: Rows)
    ensures WalkStack(v, base, stack + [f], rows) == WalkStack(v, base, stack, Walk(v, base, f, rows))
    ensures StackSize(stack + [f]) == StackSize(stack) + Size(f.node)
    ensures !Skipped(f.node.kind) ==>
              var below := v.below(f, base + |rows.functions|);
              var pushed := stack + Pushed(Kids(f.node.fields), f.node, below);
              && WalkStack(v, base, stack, Walk(v, base, f, rows)) == WalkStack(v, base, pushed, Visit(v, base, f, rows))
              && StackSize(pushed) < StackSize(stack + [f])
  {
    assert (stack + [f])[..|stack + [f]| - 1] == stack;
    if !Skipped(f.node.kind) {
      KidsAreSmaller(f.node.fields);
      PushedIsWalked(v, base, stack, Kids(f.node.fields), f.node, v.below(f, base + |rows.functions|),
                     Visit(v, base, f, rows));
    }
  }

  function StackSize(stack: seq<Frame>): nat {
    if stack == [] then 0 else StackSize(stack[..|stack| - 1]) + Size(stack[|stack| - 1].node)
  }

  /** Frames of the children, the first child last. */
  function Pushed(kids: seq<Kid>, parent: Node, ctx: Context): seq<Frame> {
    if kids == [] then [] else Pushed(kids[1..], parent, ctx) + [FrameFor(kids[0], parent, ctx)]
  }

  lemma {:induction false} PushedIsWalked(
    v: Visitor, base: int, stack: seq<Frame>, kids: seq<Kid>, parent: Node, ctx: Context, rows: Rows)
    ensures WalkStack(v, base, stack + Pushed(kids, parent, ctx), rows) ==
            WalkStack(v, base, stack, WalkKids(v, base, kids, parent, ctx, rows))
    ensures StackSize(stack + Pushed(kids, parent, ctx)) == StackSize(stack) + KidsSize(kids)
    decreases |kids|
  {
    if kids == [] {
      assert stack + Pushed(kids, parent, ctx) == stack;
    } else {
      var all := stack + Pushed(kids, parent, ctx);
      assert all[..|all| - 1] == stack + Pushed(kids[1..], parent, ctx);
      PushedIsWalked(v, base, stack, kids[1..], parent, ctx, Walk(v, base, FrameFor(kids[0], parent, ctx), rows));
    }
  }

  lemma {:induction false} PushedAppend(a: seq<Kid>, b: seq<Kid>, parent: Node, ctx: Context)
    ensures Pushed(a + b, parent, ctx) == Pushed(b, parent, ctx) + Pushed(a, parent, ctx)
  {
    if a == [] {
      assert a + b == b;
    } else {
      PushedAppend(a[1..], b, parent, ctx);
      assert (a + b)[1..] == a[1..] + b;
    }
  }

  /** Where rows are collected; ids are handed out one after another. */
  class RowSink {
    var functions: seq<FunctionRow>
    var classes: seq<ClassRow>
    var strings: seq<StringRow>
    var calls: seq<CallRow>
    var nextId: int
    const base: int

    constructor (nextId: int)
      ensures base == nextId && Valid() && View() == NO_ROWS
    {
      functions, classes, strings, calls := [], [], [], [];
      this.nextId := nextId;
      base := nextId;
    }

    predicate Valid()
      reads this
    {
      nextId == base + |functions|
    }

    function View(): Rows
      reads this
    {
      Rows(functions, classes, strings, calls)
    }

    method Fn(v: Visitor, f: Frame) returns (id: int)
      requires Valid()
      modifies `functions, `nextId
      ensures Valid() && id == old(nextId) && functions == old(functions) + [v.function_(f, id)]
    {
      id := nextId;
      nextId := nextId + 1;
      functions := functions + [v.function_(f, id)];
    }
  }

  /** Visit the node of a frame: add its rows and say what its children are told. */
  method VisitNode(v: Visitor, f: Frame, sink: RowSink) returns (below: Context)
    requires sink.Valid()
    modifies sink
    ensures sink.Valid() && sink.View() == Visit(v, sink.base, f, old(sink.View()))
    ensures below == v.below(f, sink.base + |old(sink.functions)|)
  {
    var id := sink.nextId;
    if IsFunctionType(f.node.kind) {
      id := sink.Fn(v, f);
    } else if IsClassType(f.node.kind) {
      sink.classes := sink.classes + [v.class_(f)];
    }
    sink.strings := sink.strings + v.strings(f);
    sink.calls := sink.calls + v.calls(f);
    below := v.below(f, id);
  }

  lemma PushedOfField(fields: seq<Field>, k: nat, parent: Node, ctx: Context)
    requires k < |fields|
    ensures Pushed(Kids(fields[k..]), parent, ctx) ==
            Pushed(Kids(fields[k + 1..]), parent, ctx) + Pushed(KidsIn(fields[k]), parent, ctx)
  {
    assert fields[k..][1..] == fields[k + 1..];
    PushedAppend(KidsIn(fields[k]), Kids(fields[k + 1..]), parent, ctx);
  }

  lemma PushedAlone(kid: Kid, parent: Node, ctx: Context)
    ensures Pushed([kid], parent, ctx) == [FrameFor(kid, parent, ctx)]
  {
    assert [kid][1..] == [];
  }

  /** Push the children of a node, last first, so that they are popped in source order. */
  method PushKids(stack: seq<Frame>, node: Node, ctx: Context) returns (after: seq<Frame>)
    ensures after == stack + Pushed(Kids(node.fields), node, ctx)
  {
    after := stack;
    var k := |node.fields|;
    assert node.fields[k..] == [];
    while k > 0
      invariant 0 <= k <= |node.fields|
      invariant after == stack + Pushed(Kids(node.fields[k..]), node, ctx)
    {
      k := k - 1;
      PushedOfField(node.fields, k, node, ctx);
      after := PushField(after, node.fields[k], node, ctx);
    }
    assert node.fields[0..] == node.fields;
  }

  method PushField(stack: seq<Frame>, field: Field, parent: Node, ctx: Context) returns (after: seq<Frame>)
    ensures after == stack + Pushed(KidsIn(field), parent, ctx)
  {
    after := stack;
    if !SkippedKey(field.key) {
      if field.value.Many? {
        after := PushMembers(after, field.value.nodes, parent, ctx);
      } else if field.value.One? {
        PushedAlone(Kid(field.value.node, Some(field.key)), parent, ctx);
        after := after + [Frame(field.value.node, Some(parent), Some(field.key), ctx)];
      }
    }
  }

  method PushMembers(stack: seq<Frame>, nodes: seq<Node>, parent: Node, ctx: Context) returns (after: seq<Frame>)
    ensures after == stack + Pushed(Members(nodes), parent, ctx)
  {
    after := stack;
    var i := |nodes|;
    assert Members(nodes)[i..] == [];
    while i > 0
      invariant i <= |nodes|
      invariant after == stack + Pushed(Members(nodes)[i..], parent, ctx)
    {
      i := i - 1;
      after := after + [Frame(nodes[i], Some(parent), None, ctx)];
      assert Members(nodes)[i..][1..] == Members(nodes)[i + 1..];
    }
    assert Members(nodes)[0..] == Members(nodes);
  }

  /** Pop a frame, visit its node and push the children. */
  method Step(v: Visitor, stack: seq<Frame>, sink: RowSink) returns (after: seq<Frame>)
    requires sink.Valid() && stack != []
    modifies sink
    ensures sink.Valid() && StackSize(after) < StackSize(stack)
    ensures WalkStack(v, sink.base, after, sink.View()) ==
            WalkStack(v, sink.base, stack, old(sink.View()))
  {
    var frame := stack[|stack| - 1];
    after := stack[..|stack| - 1];
    assert stack == after + [frame];
    ghost var base, rest, rows := sink.base, after, sink.View();
    PopFrame(v, base, rest, frame, rows);
    if !Skipped(frame.node.kind) {
      var below := VisitNode(v, frame, sink);
      after := PushKids(after, frame.node, below);
      assert after == rest + Pushed(Kids(frame.node.fields), frame.node, v.below(frame, base + |rows.functions|));
      assert sink.View() == Visit(v, base, frame, rows);
    }
  }

  /** The explicit stack, whatever is recorded of a node, does what the recursive traversal does. */
  method Traverse(v: Visitor, program: Node, sink: RowSink)
    requires sink.Valid()
    modifies sink
    ensures sink.Valid() && sink.View() == Walk(v, sink.base, RootFrame(program), old(sink.View()))
  {
    ghost var whole := Walk(v, sink.base, RootFrame(program), sink.View());
    var stack := [RootFrame(program)];
    while stack != []
      invariant sink.Valid() && WalkStack(v, sink.base, stack, sink.View()) == whole
      decreases StackSize(stack)
    {
      stack := Step(v, stack, sink);
    }
  }

  /** The rows of a whole tree go to the sink. */
  method IndexProgram(program: Node, sink: RowSink)
    requires sink.Valid()
    modifies sink
    ensures sink.Valid() && sink.View() == Walk(INDEXING, sink.base, RootFrame(program), old(sink.View()))
  {
    Traverse(INDEXING, program, sink);
  }
}
