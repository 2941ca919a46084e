/**
 * What the walker's rows mean, read off the tree from below.
 *
 * A table lists the visited nodes in preorder, each with the index of its parent.
 * Everything the walker hands down on its stack can be looked up by climbing from
 * a node to its ancestors instead, and the rows come out the same.
 */
module LexicalScope {
  import opened Common
  import opened SyntaxTree
  import opened SyntaxWalk

  datatype Entry = Entry(node: Node, slot: Option<Key>, up: Option<nat>)

  /** Parents come before their children. */
  ghost predicate Linked(t: seq<Entry>) {
    forall i :: 0 <= i < |t| && t[i].up.Some? ==> t[i].up.value < i
  }

  // ---- the table of a tree ----

  function Flat(t: seq<Entry>, node: Node, slot: Option<Key>, up: Option<nat>): seq<Entry>
    decreases Size(node), 0
  {
    if Skipped(node.kind) then t
    else
      KidsAreSmaller(node.fields);
      FlatKids(t + [Entry(node, slot, up)], Kids(node.fields), |t|)
  }

  function FlatKids(t: seq<Entry>, kids: seq<Kid>, up: nat): seq<Entry>
    decreases KidsSize(kids), 1 + |kids|
  {
    if kids == [] then t else FlatKids(Flat(t, kids[0].node, kids[0].slot, Some(up)), kids[1..], up)
  }

  function TableOf(program: Node): seq<Entry> { Flat([], program, None, None) }

  // ---- looking things up from below ----

  predicate IsFunction(e: Entry) { IsFunctionType(e.node.kind) }

  /** How many functions come before position `n`. */
  function Rank(t: seq<Entry>, n: nat): nat
    requires n <= |t|
  {
    if n == 0 then 0 else Rank(t, n - 1) + if IsFunction(t[n - 1]) then 1 else 0
  }

  function FrameAt(v: Visitor, base: int, t: seq<Entry>, i: nat): Frame
    requires Linked(t) && i < |t|
    decreases i, 1
  {
    Frame(t[i].node, if t[i].up.Some? then Some(t[t[i].up.value].node) else None, t[i].slot, Above(v, base, t, i))
  }

  /** What the node at `i` is told by its parent. */
  function Above(v: Visitor, base: int, t: seq<Entry>, i: nat): Context
    requires Linked(t) && i < |t|
    decreases i, 0
  {
    match t[i].up
    case None => TOP
    case Some(j) => v.below(FrameAt(v, base, t, j), base + Rank(t, j))
  }

  /** The rows of the table's nodes, one node after another. */
  function RowsOf(v: Visitor, base: int, t: seq<Entry>): Rows
    requires Linked(t)
  {
    if t == [] then NO_ROWS
    else
      var n := |t| - 1;
      assert Linked(t[..n]) by { assert forall i :: 0 <= i < n ==> t[..n][i] == t[i]; }
      Visit(v, base, FrameAt(v, base, t, n), RowsOf(v, base, t[..n]))
  }

  lemma {:induction false} RankIsLocal(t: seq<Entry>, u: seq<Entry>, n: nat)
    requires n <= |t| <= |u| && u[..|t|] == t
    ensures Rank(t, n) == Rank(u, n)
  {
    if n > 0 {
      RankIsLocal(t, u, n - 1);
      assert u[..|t|][n - 1] == u[n - 1];
    }
  }

  lemma {:induction false} FrameIsLocal(v: Visitor, base: int, t: seq<Entry>, u: seq<Entry>, i: nat)
    requires Linked(t) && Linked(u) && i < |t| <= |u| && u[..|t|] == t
    ensures FrameAt(v, base, t, i) == FrameAt(v, base, u, i)
    decreases i
  {
    assert u[..|t|][i] == u[i];
    if t[i].up.Some? {
      var j := t[i].up.value;
      assert u[..|t|][j] == u[j];
      FrameIsLocal(v, base, t, u, j);
      RankIsLocal(t, u, j);
    }
  }

  lemma {:induction false} RowsCountFunctions(v: Visitor, base: int, t: seq<Entry>)
    requires Linked(t)
    ensures |RowsOf(v, base, t).functions| == Rank(t, |t|)
  {
    if t != [] {
      var n := |t| - 1;
      assert Linked(t[..n]) by { assert forall i :: 0 <= i < n ==> t[..n][i] == t[i]; }
      RowsCountFunctions(v, base, t[..n]);
      RankIsLocal(t[..n], t, n);
    }
  }

  // ---- pushing down equals looking up ----

  /** The frame is what the table says of a node about to be listed under `up`. */
  ghost predicate Agrees(v: Visitor, base: int, t: seq<Entry>, f: Frame, up: Option<nat>) {
    && Linked(t)
    && match up
       case None => f.parent == None && f.ctx == TOP
       case Some(j) =>
         j < |t| && f.parent == Some(t[j].node) && f.ctx == v.below(FrameAt(v, base, t, j), base + Rank(t, j))
  }

  lemma ExtendLinks(t: seq<Entry>, e: Entry)
    requires Linked(t) && (e.up.Some? ==> e.up.value < |t|)
    ensures Linked(t + [e]) && (t + [e])[..|t|] == t
  {
    var u := t + [e];
    forall i | 0 <= i < |u| && u[i].up.Some? ensures u[i].up.value < i {
      assert i < |t| ==> u[i] == t[i];
    }
  }

  lemma ExtendFrame(v: Visitor, base: int, t: seq<Entry>, f: Frame, up: Option<nat>)
    requires Agrees(v, base, t, f, up)
    ensures var u := t + [Entry(f.node, f.slot, up)]; Linked(u) && FrameAt(v, base, u, |t|) == f
  {
    var u := t + [Entry(f.node, f.slot, up)];
    ExtendLinks(t, Entry(f.node, f.slot, up));
    if up.Some? {
      FrameIsLocal(v, base, t, u, up.value);
      RankIsLocal(t, u, up.value);
    }
  }

  lemma ExtendTable(v: Visitor, base: int, t: seq<Entry>, f: Frame, up: Option<nat>)
    requires Agrees(v, base, t, f, up)
    ensures var u := t + [Entry(f.node, f.slot, up)];
            && Linked(u)
            && FrameAt(v, base, u, |t|) == f
            && Rank(u, |t|) == Rank(t, |t|)
            && RowsOf(v, base, u) == Visit(v, base, f, RowsOf(v, base, t))
            && |RowsOf(v, base, t).functions| == Rank(t, |t|)
  {
    var u := t + [Entry(f.node, f.slot, up)];
    ExtendLinks(t, Entry(f.node, f.slot, up));
    ExtendFrame(v, base, t, f, up);
    RankIsLocal(t, u, |t|);
    RowsCountFunctions(v, base, t);
  }

  lemma PrefixOfPrefix(t: seq<Entry>, u: seq<Entry>, w: seq<Entry>)
    requires |t| <= |u| <= |w| && u[..|t|] == t && w[..|u|] == u
    ensures w[..|t|] == t
  {
    assert w[..|t|] == w[..|u|][..|t|];
  }

  lemma {:induction false} WalkIsTable(v: Visitor, base: int, t: seq<Entry>, f: Frame, up: Option<nat>)
    requires Agrees(v, base, t, f, up)
    ensures var u := Flat(t, f.node, f.slot, up);
            && Linked(u) && |t| <= |u| && u[..|t|] == t
            && Walk(v, base, f, RowsOf(v, base, t)) == RowsOf(v, base, u)
    decreases Size(f.node), 1
  {
    if Skipped(f.node.kind) {
      assert t[..|t|] == t;
    } else {
      ListedNode(v, base, t, f, up);
      UnskippedIsListed(v, base, f, RowsOf(v, base, t), t, up);
    }
  }

  lemma UnskippedIsListed(v: Visitor, base: int, f: Frame, rows: Rows, t: seq<Entry>, up: Option<nat>)
    requires !Skipped(f.node.kind)
    ensures Walk(v, base, f, rows) ==
            WalkKids(v, base, Kids(f.node.fields), f.node, v.below(f, base + |rows.functions|), Visit(v, base, f, rows))
    ensures Flat(t, f.node, f.slot, up) == FlatKids(t + [Entry(f.node, f.slot, up)], Kids(f.node.fields), |t|)
  {
  }

  /** A node that is listed, and its children after it. */
  lemma {:induction false} ListedNode(v: Visitor, base: int, t: seq<Entry>, f: Frame, up: Option<nat>)
    requires Agrees(v, base, t, f, up)
    ensures var rows, kids := RowsOf(v, base, t), Kids(f.node.fields);
            var u := FlatKids(t + [Entry(f.node, f.slot, up)], kids, |t|);
            && Linked(u) && |t| <= |u| && u[..|t|] == t
            && WalkKids(v, base, kids, f.node, v.below(f, base + |rows.functions|), Visit(v, base, f, rows)) ==
               RowsOf(v, base, u)
    decreases Size(f.node), 0
  {
    var u := t + [Entry(f.node, f.slot, up)];
    ExtendTable(v, base, t, f, up);
    KidsAreSmaller(f.node.fields);
    NodeIsTable(v, base, u, f, |t|);
    assert u[..|t|] == t;
    PrefixOfPrefix(t, u, FlatKids(u, Kids(f.node.fields), |t|));
  }

  /** The children of the entry at `i`, given that it is the last. */
  lemma {:induction false} NodeIsTable(v: Visitor, base: int, t: seq<Entry>, f: Frame, i: nat)
    requires Linked(t) && i < |t| && FrameAt(v, base, t, i) == f
    ensures var u := FlatKids(t, Kids(f.node.fields), i);
            && Linked(u) && |t| <= |u| && u[..|t|] == t
            && WalkKids(v, base, Kids(f.node.fields), f.node, v.below(f, base + Rank(t, i)), RowsOf(v, base, t)) ==
               RowsOf(v, base, u)
    decreases KidsSize(Kids(f.node.fields)), 2 + |Kids(f.node.fields)|
  {
    WalkKidsIsTable(v, base, t, Kids(f.node.fields), i, v.below(f, base + Rank(t, i)));
  }

  lemma {:induction false} WalkKidsIsTable(v: Visitor, base: int, t: seq<Entry>, kids: seq<Kid>, up: nat, ctx: Context)
    requires Linked(t) && up < |t| && ctx == v.below(FrameAt(v, base, t, up), base + Rank(t, up))
    ensures var u := FlatKids(t, kids, up);
            && Linked(u) && |t| <= |u| && u[..|t|] == t
            && WalkKids(v, base, kids, t[up].node, ctx, RowsOf(v, base, t)) == RowsOf(v, base, u)
    decreases KidsSize(kids), 1 + |kids|
  {
    if kids == [] {
      assert t[..|t|] == t;
    } else {
      var f := FrameFor(kids[0], t[up].node, ctx);
      WalkIsTable(v, base, t, f, Some(up));
      var u := Flat(t, f.node, f.slot, Some(up));
      assert u[..|t|][up] == u[up];
      FrameIsLocal(v, base, t, u, up);
      RankIsLocal(t, u, up);
      WalkKidsIsTable(v, base, u, kids[1..], up, ctx);
      var w := FlatKids(u, kids[1..], up);
      PrefixOfPrefix(t, u, w);
    }
  }

  // ---- what the lookups are ----

  /** The nearest function around the node at `i`. */
  function Enclosing(t: seq<Entry>, i: nat): (r: Option<nat>)
    requires Linked(t) && i < |t|
    ensures r.Some? ==> r.value < i && IsFunction(t[r.value])
  {
    match t[i].up
    case None => None
    case Some(j) => if IsFunction(t[j]) then Some(j) else Enclosing(t, j)
  }

  /** Inside these nodes `this` means something else than around them. */
  predicate BindsThis(kind: Kind) { IsClassType(kind) || (IsFunctionType(kind) && kind != ArrowFunctionExpression) }

  /** The nearest node around `i` that has a `this` of its own. */
  function NearestBinder(t: seq<Entry>, i: nat): (r: Option<nat>)
    requires Linked(t) && i < |t|
    ensures r.Some? ==> r.value < i && BindsThis(t[r.value].node.kind)
  {
    match t[i].up
    case None => None
    case Some(j) => if BindsThis(t[j].node.kind) then Some(j) else NearestBinder(t, j)
  }

  /**
   * What is written within a class and evaluated where the class is: a decorator, a
   * computed key of a member, and of the class itself all but its body.
   */
  predicate EvaluatedOutside(e: Entry, parent: Node) {
    || e.node.kind.Decorator?
    || (e.slot == Some(AtKey) && GetFlag(parent, AtComputed) && !parent.kind.Property?)
    || (IsClassType(parent.kind) && !e.node.kind.ClassBody?)
  }

  /**
   * Whose `this` it is at `i` by the scopes of JavaScript. With `outside` the climb is
   * on its way out of the class around it, to where the class is.
   */
  function ThisBinder(t: seq<Entry>, i: nat, outside: bool): (r: Option<nat>)
    requires Linked(t) && i < |t|
    ensures r.Some? ==> r.value < i && BindsThis(t[r.value].node.kind)
  {
    match t[i].up
    case None => None
    case Some(j) =>
      var leaving := outside || EvaluatedOutside(t[i], t[j].node);
      if BindsThis(t[j].node.kind) && !leaving then Some(j)
      else ThisBinder(t, j, leaving && !IsClassType(t[j].node.kind))
  }

  /** Between `i` and the nearest node with a `this` is something that is evaluated outside a class. */
  predicate InHead(t: seq<Entry>, i: nat): (r: bool)
    requires Linked(t) && i < |t|
    ensures r ==> NearestBinder(t, i).Some?
  {
    match t[i].up
    case None => false
    case Some(j) =>
      || (EvaluatedOutside(t[i], t[j].node) && (BindsThis(t[j].node.kind) || NearestBinder(t, j).Some?))
      || (!BindsThis(t[j].node.kind) && InHead(t, j))
  }

  lemma {:induction false} OutsideGoesFurther(t: seq<Entry>, i: nat)
    requires Linked(t) && i < |t|
    ensures var near, far := NearestBinder(t, i), ThisBinder(t, i, true);
            if near.None? then far == None else far.None? || far.value < near.value
    decreases i
  {
    if t[i].up.Some? && !BindsThis(t[t[i].up.value].node.kind) { OutsideGoesFurther(t, t[i].up.value); }
  }

  /** The nearest binder is the right one exactly when nothing between them is evaluated outside a class. */
  lemma {:induction false} NearestUnlessInHead(t: seq<Entry>, i: nat)
    requires Linked(t) && i < |t|
    ensures ThisBinder(t, i, false) == NearestBinder(t, i) <==> !InHead(t, i)
    decreases i
  {
    if t[i].up.Some? {
      var j := t[i].up.value;
      if !BindsThis(t[j].node.kind) {
        NearestUnlessInHead(t, j);
        OutsideGoesFurther(t, j);
      }
    }
  }

  /**
   * A node's rows name the function it was told, and only a function tells its
   * children anything else: its own id.
   */
  ghost predicate Scoped(v: Visitor) {
    && (forall f, id :: v.below(f, id).fnId == if IsFunctionType(f.node.kind) then Some(id) else f.ctx.fnId)
    && (forall f, id :: v.function_(f, id).id == id && v.function_(f, id).parentId == f.ctx.fnId)
    && (forall f, s :: s in v.strings(f) ==> s.fnId == f.ctx.fnId)
    && (forall f, s :: s in v.calls(f) ==> s.fnId == f.ctx.fnId)
  }

  lemma OnlyFunctionsScope(f: Frame, id: int)
    ensures ContextBelow(f, id).fnId == if IsFunctionType(f.node.kind) then Some(id) else f.ctx.fnId
  {
  }

  lemma IndexingIsScoped()
    ensures Scoped(INDEXING)
  {
    forall f, id ensures INDEXING.below(f, id).fnId == if IsFunctionType(f.node.kind) then Some(id) else f.ctx.fnId {
      OnlyFunctionsScope(f, id);
    }
  }

  /** The function handed down is the nearest enclosing one, by the id its row has. */
  lemma {:induction false} FunctionIsEnclosing(v: Visitor, base: int, t: seq<Entry>, i: nat)
    requires Scoped(v) && Linked(t) && i < |t|
    ensures FrameAt(v, base, t, i).ctx.fnId ==
            if Enclosing(t, i).Some? then Some(base + Rank(t, Enclosing(t, i).value)) else None
    decreases i
  {
    if t[i].up.Some? {
      FunctionIsEnclosing(v, base, t, t[i].up.value);
    }
  }

  function OwnerIn(f: Frame): Option<string> {
    if IsClassType(f.node.kind) then ClassName(f) else if IsMember(f) then f.ctx.container else None
  }

  /** Only what binds `this` tells its children another owner. */
  ghost predicate BindsLexically(v: Visitor) {
    forall f, id :: v.below(f, id).thisOwner == if BindsThis(f.node.kind) then OwnerIn(f) else f.ctx.thisOwner
  }

  lemma OnlyBindersOwn(f: Frame, id: int)
    ensures ContextBelow(f, id).thisOwner == if BindsThis(f.node.kind) then OwnerIn(f) else f.ctx.thisOwner
  {
  }

  lemma IndexingBindsLexically()
    ensures BindsLexically(INDEXING)
  {
    forall f, id
      ensures INDEXING.below(f, id).thisOwner == if BindsThis(f.node.kind) then OwnerIn(f) else f.ctx.thisOwner
    {
      OnlyBindersOwn(f, id);
    }
  }

  function OwnerFrom(v: Visitor, base: int, t: seq<Entry>, binder: Option<nat>): Option<string>
    requires Linked(t) && (binder.Some? ==> binder.value < |t|)
  {
    if binder.Some? then OwnerIn(FrameAt(v, base, t, binder.value)) else None
  }

  /** Handed down is what the nearest binder is called. */
  lemma {:induction false} OwnerIsNearest(v: Visitor, base: int, t: seq<Entry>, i: nat)
    requires BindsLexically(v) && Linked(t) && i < |t|
    ensures FrameAt(v, base, t, i).ctx.thisOwner ==
            OwnerFrom(v, base, t, NearestBinder(t, i))
    decreases i
  {
    if t[i].up.Some? {
      OwnerIsNearest(v, base, t, t[i].up.value);
    }
  }

  /** The owner of `this` at `i` by the scopes of JavaScript. */
  function LexicalOwner(base: int, t: seq<Entry>, i: nat): Option<string>
    requires Linked(t) && i < |t|
  {
    OwnerFrom(INDEXING, base, t, ThisBinder(t, i, false))
  }

  /**
   * The owner handed down is the lexical one, through arrows and blocks, wherever `i` is
   * not in what a class evaluates outside itself. There it is taken from another node,
   * and is the lexical one exactly when that node and the lexical one give one name.
   */
  lemma ThisIsLexical(base: int, t: seq<Entry>, i: nat)
    requires Linked(t) && i < |t|
    ensures !InHead(t, i) ==> FrameAt(INDEXING, base, t, i).ctx.thisOwner == LexicalOwner(base, t, i)
    ensures InHead(t, i) ==>
              var near, far := NearestBinder(t, i), ThisBinder(t, i, false);
              && near.Some? && near != far
              && (FrameAt(INDEXING, base, t, i).ctx.thisOwner == LexicalOwner(base, t, i) <==>
                  OwnerIn(FrameAt(INDEXING, base, t, near.value)) ==
                  if far.Some? then OwnerIn(FrameAt(INDEXING, base, t, far.value)) else None)
  {
    IndexingBindsLexically();
    OwnerIsNearest(INDEXING, base, t, i);
    NearestUnlessInHead(t, i);
  }

  /** In the head of an outermost class the class is handed down, and `this` is nobody's. */
  lemma HeadOfOutermostClass(base: int, t: seq<Entry>, i: nat)
    requires Linked(t) && 0 < i < |t| && t[0].up == None && t[i].up == Some(0)
    requires IsClassType(t[0].node.kind) && !t[i].node.kind.ClassBody?
    ensures FrameAt(INDEXING, base, t, i).ctx.thisOwner == ClassName(FrameAt(INDEXING, base, t, 0))
    ensures LexicalOwner(base, t, i) == None
  {
    ThisIsLexical(base, t, i);
    IndexingBindsLexically();
    OwnerIsNearest(INDEXING, base, t, i);
  }

  function Leaf(kind: Kind, start: nat, end: nat, name: string): Node {
    Node(kind, start, end, [Field(AtName, Words(name))])
  }

  function CallOnThis(): Node {
    var access := Node(MemberExpression, 16, 25,
                       [Field(AtObject, One(Node(ThisExpression, 16, 20, []))),
                        Field(AtProperty, One(Leaf(Identifier, 21, 25, "base")))]);
    Node(CallExpression, 16, 27, [Field(AtCallee, One(access)), Field(AtArguments, Many([]))])
  }

  /** `class A extends this.base() {}` */
  function ClassExtendingThis(): Node {
    Node(ClassDeclaration, 0, 30, [Field(AtId, One(Leaf(Identifier, 6, 7, "A"))),
                                   Field(AtOther("superClass"), One(CallOnThis())),
                                   Field(AtOther("body"), One(Node(ClassBody, 28, 30, [])))])
  }

  lemma LeafIsOneEntry(t: seq<Entry>, node: Node, slot: Option<Key>, up: Option<nat>)
    requires !Skipped(node.kind) && Kids(node.fields) == []
    ensures Flat(t, node, slot, up) == t + [Entry(node, slot, up)]
  {
  }

  lemma {:induction false} KidsOfName(name: string)
    ensures Kids([Field(AtName, Words(name))]) == []
  {
    assert Kids([]) == [];
  }

  lemma {:induction false} FlatKeeps(t: seq<Entry>, node: Node, slot: Option<Key>, up: Option<nat>)
    ensures t <= Flat(t, node, slot, up)
    decreases Size(node), 0
  {
    if !Skipped(node.kind) {
      KidsAreSmaller(node.fields);
      FlatKidsKeeps(t + [Entry(node, slot, up)], Kids(node.fields), |t|);
    }
  }

  lemma {:induction false} FlatKidsKeeps(t: seq<Entry>, kids: seq<Kid>, up: nat)
    ensures t <= FlatKids(t, kids, up)
    decreases KidsSize(kids), 1 + |kids|
  {
    if kids != [] {
      FlatKeeps(t, kids[0].node, kids[0].slot, Some(up));
      FlatKidsKeeps(Flat(t, kids[0].node, kids[0].slot, Some(up)), kids[1..], up);
    }
  }

  /** A class whose first two children are a leaf and a call: the call is the third entry. */
  lemma {:induction false} ThirdEntry(class_: Node, id: Kid, call: Kid, rest: seq<Kid>)
    requires !Skipped(class_.kind) && !Skipped(id.node.kind) && !Skipped(call.node.kind)
    requires Kids(class_.fields) == [id] + ([call] + rest) && Kids(id.node.fields) == []
    ensures [Entry(class_, None, None), Entry(id.node, id.slot, Some(0)), Entry(call.node, call.slot, Some(0))] <=
            TableOf(class_)
  {
    var first := [Entry(class_, None, None)];
    var second := first + [Entry(id.node, id.slot, Some(0))];
    var kids := Kids(class_.fields);
    assert [] + first == first;
    assert kids[1..] == [call] + rest && kids[1..][0] == call && kids[1..][1..] == rest;
    LeafIsOneEntry(first, id.node, id.slot, Some(0));
    assert TableOf(class_) == FlatKids(first, kids, 0) == FlatKids(second, kids[1..], 0);
    var third := second + [Entry(call.node, call.slot, Some(0))];
    FlatKidsKeeps(third, Kids(call.node.fields), 2);
    FlatKidsKeeps(Flat(second, call.node, call.slot, Some(0)), rest, 0);
  }

  lemma {:induction false} KidsOfThree(f: seq<Field>)
    requires |f| == 3 && forall i :: 0 <= i < 3 ==> f[i].value.One? && !SkippedKey(f[i].key)
    ensures Kids(f) == [Kid(f[0].value.node, Some(f[0].key))] +
                       ([Kid(f[1].value.node, Some(f[1].key))] + [Kid(f[2].value.node, Some(f[2].key))])
  {
    var two, one := f[1..], f[1..][1..];
    assert two[0] == f[1] && one[0] == f[2] && one[1..] == [];
    assert Kids(one[1..]) == [];
    assert Kids(one) == [Kid(f[2].value.node, Some(f[2].key))];
    assert Kids(two) == [Kid(f[1].value.node, Some(f[1].key))] + Kids(one);
  }

  /** A class that is the whole program, with a name, a heritage that is walked and a body. */
  predicate HasHeritage(class_: Node) {
    var f := class_.fields;
    && class_.kind.ClassDeclaration? && |f| == 3
    && (forall i :: 0 <= i < 3 ==> f[i].value.One? && !SkippedKey(f[i].key) && !Skipped(f[i].value.node.kind))
    && f[0].key == AtId && Kids(f[0].value.node.fields) == [] && NameOf(Some(f[0].value.node)).Some?
    && !f[1].value.node.kind.ClassBody?
  }

  lemma EntriesOfClass(class_: Node)
    requires HasHeritage(class_)
    ensures var t := TableOf(class_);
            |t| > 2 && t[0] == Entry(class_, None, None) &&
            t[2] == Entry(class_.fields[1].value.node, Some(class_.fields[1].key), Some(0))
  {
    var f := class_.fields;
    KidsOfThree(f);
    ThirdEntry(class_, Kid(f[0].value.node, Some(f[0].key)), Kid(f[1].value.node, Some(f[1].key)),
               [Kid(f[2].value.node, Some(f[2].key))]);
  }

  /** What is written as the heritage is given the class, and its `this` is nobody's. */
  lemma HeritageIsGivenTheClass(base: int, class_: Node)
    requires HasHeritage(class_)
    ensures var t := TableOf(class_);
            && Linked(t) && |t| > 2 && t[2].node == class_.fields[1].value.node && InHead(t, 2)
            && FrameAt(INDEXING, base, t, 2).ctx.thisOwner == NameOf(Get(class_, AtId))
            && LexicalOwner(base, t, 2) == None != NameOf(Get(class_, AtId))
    ensures forall s :: s in CallsOf(FrameAt(INDEXING, base, TableOf(class_), 2)) && OnThis(s.callee) ==>
              s.owner == NameOf(Get(class_, AtId))
  {
    EntriesOfClass(class_);
    ProgramRows(base, class_);
    HeadOfOutermostClass(base, TableOf(class_), 2);
    CallsOnThisAreOwned(FrameAt(INDEXING, base, TableOf(class_), 2));
  }

  lemma CallsOnThisAreOwned(f: Frame)
    ensures forall s :: s in CallsOf(f) && OnThis(s.callee) ==> s.owner == f.ctx.thisOwner
  {
    assert "import"[4] != '.';
  }

  /** `class A extends this.base() {}` */
  lemma CallInHeritage()
    ensures HasHeritage(ClassExtendingThis())
  {
    KidsOfName("A");
  }

  lemma {:induction false} RankGrows(t: seq<Entry>, m: nat, n: nat)
    requires m < n <= |t|
    ensures Rank(t, m) <= Rank(t, n) && (IsFunction(t[m]) ==> Rank(t, m) < Rank(t, n))
    decreases n
  {
    if m < n - 1 { RankGrows(t, m, n - 1); }
  }

  /** The row of each function: its id is its place among the functions, its parent the function around it. */
  lemma {:induction false} FunctionRowIs(v: Visitor, base: int, t: seq<Entry>, i: nat)
    requires Linked(t) && i < |t| && IsFunction(t[i])
    ensures Rank(t, i) < |RowsOf(v, base, t).functions|
    ensures RowsOf(v, base, t).functions[Rank(t, i)] == v.function_(FrameAt(v, base, t, i), base + Rank(t, i))
    decreases |t|
  {
    var n := |t| - 1;
    assert Linked(t[..n]) by { assert forall k :: 0 <= k < n ==> t[..n][k] == t[k]; }
    RowsCountFunctions(v, base, t[..n]);
    RankIsLocal(t[..n], t, n);
    if i < n {
      FunctionRowIs(v, base, t[..n], i);
      RankIsLocal(t[..n], t, i);
      FrameIsLocal(v, base, t[..n], t, i);
    }
  }

  /** Every function row is the row of some function of the table. */
  lemma {:induction false} FunctionOfRow(v: Visitor, base: int, t: seq<Entry>, k: nat) returns (i: nat)
    requires Linked(t) && k < |RowsOf(v, base, t).functions|
    ensures i < |t| && IsFunction(t[i]) && Rank(t, i) == k
    decreases |t|
  {
    var n := |t| - 1;
    assert Linked(t[..n]) by { assert forall j :: 0 <= j < n ==> t[..n][j] == t[j]; }
    RowsCountFunctions(v, base, t);
    RowsCountFunctions(v, base, t[..n]);
    RankIsLocal(t[..n], t, n);
    if k < Rank(t, n) {
      i := FunctionOfRow(v, base, t[..n], k);
      RankIsLocal(t[..n], t, i);
    } else {
      i := n;
    }
  }

  /** The literal is recorded at some node of the table. */
  ghost predicate StringFrom(v: Visitor, base: int, t: seq<Entry>, s: StringRow)
    requires Linked(t)
  {
    exists i: nat :: i < |t| && s in v.strings(FrameAt(v, base, t, i))
  }

  ghost predicate CallFrom(v: Visitor, base: int, t: seq<Entry>, s: CallRow)
    requires Linked(t)
  {
    exists i: nat :: i < |t| && s in v.calls(FrameAt(v, base, t, i))
  }

  lemma {:induction false} StringHasNode(v: Visitor, base: int, t: seq<Entry>, s: StringRow)
    requires Linked(t) && s in RowsOf(v, base, t).strings
    ensures StringFrom(v, base, t, s)
    decreases |t|
  {
    var n := |t| - 1;
    var u := t[..n];
    assert Linked(u) by { assert forall k :: 0 <= k < n ==> u[k] == t[k]; }
    if s in RowsOf(v, base, u).strings {
      StringHasNode(v, base, u, s);
      var i: nat :| i < n && s in v.strings(FrameAt(v, base, u, i));
      FrameIsLocal(v, base, u, t, i);
    } else {
      assert s in v.strings(FrameAt(v, base, t, n));
    }
  }

  lemma {:induction false} CallHasNode(v: Visitor, base: int, t: seq<Entry>, s: CallRow)
    requires Linked(t) && s in RowsOf(v, base, t).calls
    ensures CallFrom(v, base, t, s)
    decreases |t|
  {
    var n := |t| - 1;
    var u := t[..n];
    assert Linked(u) by { assert forall k :: 0 <= k < n ==> u[k] == t[k]; }
    if s in RowsOf(v, base, u).calls {
      CallHasNode(v, base, u, s);
      var i: nat :| i < n && s in v.calls(FrameAt(v, base, u, i));
      FrameIsLocal(v, base, u, t, i);
    } else {
      assert s in v.calls(FrameAt(v, base, t, n));
    }
  }

  // ---- the rows of a program ----

  /** An id of one of `n` functions numbered from `base`, or none. */
  predicate IdWithin(base: int, n: nat, id: Option<int>) {
    id.Some? ==> base <= id.value < base + n
  }

  ghost predicate FunctionsNumbered(base: int, functions: seq<FunctionRow>) {
    forall k: nat :: k < |functions| ==> Numbered(base, k, functions[k])
  }

  predicate Numbered(base: int, k: nat, row: FunctionRow) {
    row.id == base + k && IdWithin(base, k, row.parentId)
  }

  ghost predicate StringsRefer(base: int, n: nat, strings: seq<StringRow>) {
    forall s :: s in strings ==> IdWithin(base, n, s.fnId)
  }

  ghost predicate CallsRefer(base: int, n: nat, calls: seq<CallRow>) {
    forall s :: s in calls ==> IdWithin(base, n, s.fnId)
  }

  /** Ids follow one another, parents come first, and every reference is to a function of the same rows. */
  ghost predicate WellNumbered(base: int, rows: Rows) {
    && FunctionsNumbered(base, rows.functions)
    && StringsRefer(base, |rows.functions|, rows.strings)
    && CallsRefer(base, |rows.functions|, rows.calls)
  }

  lemma FunctionIsNumbered(v: Visitor, base: int, t: seq<Entry>, k: nat)
    requires Scoped(v) && Linked(t) && k < |RowsOf(v, base, t).functions|
    ensures Numbered(base, k, RowsOf(v, base, t).functions[k])
  {
    var i := FunctionOfRow(v, base, t, k);
    FunctionRowIs(v, base, t, i);
    FunctionIsEnclosing(v, base, t, i);
    if Enclosing(t, i).Some? { RankGrows(t, Enclosing(t, i).value, i); }
  }

  lemma EnclosingIsWithin(v: Visitor, base: int, t: seq<Entry>, i: nat)
    requires Scoped(v) && Linked(t) && i < |t|
    ensures IdWithin(base, |RowsOf(v, base, t).functions|, FrameAt(v, base, t, i).ctx.fnId)
  {
    RowsCountFunctions(v, base, t);
    FunctionIsEnclosing(v, base, t, i);
    if Enclosing(t, i).Some? { RankGrows(t, Enclosing(t, i).value, |t|); }
  }

  lemma StringRefers(v: Visitor, base: int, t: seq<Entry>, s: StringRow)
    requires Scoped(v) && Linked(t) && s in RowsOf(v, base, t).strings
    ensures IdWithin(base, |RowsOf(v, base, t).functions|, s.fnId)
  {
    StringHasNode(v, base, t, s);
    var i: nat :| i < |t| && s in v.strings(FrameAt(v, base, t, i));
    EnclosingIsWithin(v, base, t, i);
  }

  lemma CallRefers(v: Visitor, base: int, t: seq<Entry>, s: CallRow)
    requires Scoped(v) && Linked(t) && s in RowsOf(v, base, t).calls
    ensures IdWithin(base, |RowsOf(v, base, t).functions|, s.fnId)
  {
    CallHasNode(v, base, t, s);
    var i: nat :| i < |t| && s in v.calls(FrameAt(v, base, t, i));
    EnclosingIsWithin(v, base, t, i);
  }

  lemma RowsAreWellNumbered(v: Visitor, base: int, t: seq<Entry>)
    requires Scoped(v) && Linked(t)
    ensures WellNumbered(base, RowsOf(v, base, t))
  {
    var rows := RowsOf(v, base, t);
    forall k: nat | k < |rows.functions| ensures Numbered(base, k, rows.functions[k]) {
      FunctionIsNumbered(v, base, t, k);
    }
    forall s | s in rows.strings ensures IdWithin(base, |rows.functions|, s.fnId) {
      StringRefers(v, base, t, s);
    }
    forall s | s in rows.calls ensures IdWithin(base, |rows.functions|, s.fnId) {
      CallRefers(v, base, t, s);
    }
  }

  /** The row of the function at `i`: numbered in preorder, under the nearest function around it. */
  lemma FunctionByPosition(base: int, t: seq<Entry>, i: nat)
    requires Linked(t) && i < |t| && IsFunction(t[i])
    ensures Rank(t, i) < |RowsOf(INDEXING, base, t).functions|
    ensures var row := RowsOf(INDEXING, base, t).functions[Rank(t, i)];
            && row.id == base + Rank(t, i)
            && row.parentId ==
               (if Enclosing(t, i).Some? then Some(base + Rank(t, Enclosing(t, i).value)) else None)
  {
    FunctionRowIs(INDEXING, base, t, i);
    IndexingIsScoped();
    FunctionIsEnclosing(INDEXING, base, t, i);
  }

  /**
   * The rows of a program are those of its table: in preorder, with every function
   * numbered in that order and every reference found by climbing the tree.
   */
  lemma ProgramRows(base: int, program: Node)
    ensures var t := TableOf(program);
            && Linked(t)
            && Walk(INDEXING, base, RootFrame(program), NO_ROWS) == RowsOf(INDEXING, base, t)
            && WellNumbered(base, RowsOf(INDEXING, base, t))
  {
    WalkIsTable(INDEXING, base, [], RootFrame(program), None);
    IndexingIsScoped();
    RowsAreWellNumbered(INDEXING, base, TableOf(program));
  }
}
