/** What a callee's text says of the expression: what it begins with is what the call stands on. */
module CalleeNames {
  import opened Common
  import opened SyntaxTree
  import opened SyntaxWalk

  predicate HasInner(n: Node) {
    n.kind == MemberExpression || n.kind == CallExpression || Unwraps(n.kind) ||
    (n.kind == SequenceExpression && GetList(n, AtExpressions) != [])
  }

  /** The expression that an access, a call or a wrapper is of. */
  function Inner(n: Node): (r: Option<Node>)
    requires HasInner(n)
    ensures r.Some? ==> Size(r.value) < Size(n)
  {
    if n.kind == MemberExpression then Get(n, AtObject)
    else if n.kind == CallExpression then Get(n, AtCallee)
    else if n.kind == SequenceExpression then
      var list := GetList(n, AtExpressions);
      MemberIsSmaller(list, |list| - 1);
      Some(list[|list| - 1])
    else Get(n, AtExpression)
  }

  /** What it adds to the text. */
  function Added(n: Node): string {
    if n.kind == MemberExpression then MemberSuffix(n) else if n.kind == CallExpression then "()" else ""
  }

  lemma TextOfMember(n: Node)
    requires n.kind == MemberExpression
    ensures CalleeText(Some(n)) == CalleeText(Get(n, AtObject)) + MemberSuffix(n)
  {
  }

  lemma TextOfCall(n: Node)
    requires n.kind == CallExpression
    ensures CalleeText(Some(n)) == CalleeText(Get(n, AtCallee)) + "()"
  {
  }

  lemma TextOfWrapper(n: Node)
    requires Unwraps(n.kind)
    ensures CalleeText(Some(n)) == CalleeText(Get(n, AtExpression))
  {
  }

  lemma TextOfSequence(n: Node)
    requires n.kind == SequenceExpression && GetList(n, AtExpressions) != []
    ensures var list := GetList(n, AtExpressions); CalleeText(Some(n)) == CalleeText(Some(list[|list| - 1]))
  {
  }

  lemma TextOfInner(n: Node)
    requires HasInner(n)
    ensures CalleeText(Some(n)) == CalleeText(Inner(n)) + Added(n)
  {
    if n.kind == MemberExpression {
      TextOfMember(n);
    } else if n.kind == CallExpression {
      TextOfCall(n);
    } else {
      if n.kind == SequenceExpression { TextOfSequence(n); } else { TextOfWrapper(n); }
      assert CalleeText(Inner(n)) + "" == CalleeText(Inner(n));
    }
  }

  /** The expression that a chain of accesses, calls and wrappers starts from. */
  function Base(node: Option<Node>): Option<Node>
    decreases if node.Some? then 1 + Size(node.value) else 0
  {
    if node.None? || !HasInner(node.value) then node else Base(Inner(node.value))
  }

  /** The text is that of its base, or goes on behind it with an access or a call. */
  predicate Continues(text: string, base: string) {
    base <= text && (|base| < |text| ==> text[|base|] == '.' || text[|base|] == '[' || text[|base|] == '(')
  }

  lemma AddedContinues(text: string, n: Node, base: string)
    requires Continues(text, base)
    ensures Continues(text + Added(n), base)
  {
    var added := Added(n);
    assert added != "" ==> added[0] == '.' || added[0] == '[' || added[0] == '(';
    assert text <= text + added;
    if |text| == |base| {
      assert added != "" ==> (text + added)[|base|] == added[0];
    } else {
      assert (text + added)[|base|] == text[|base|];
    }
  }

  lemma {:induction false} TextStandsOnBase(node: Option<Node>)
    ensures Continues(CalleeText(node), CalleeText(Base(node)))
    decreases if node.Some? then 1 + Size(node.value) else 0
  {
    if node.Some? && HasInner(node.value) {
      var n := node.value;
      TextOfInner(n);
      TextStandsOnBase(Inner(n));
      AddedContinues(CalleeText(Inner(n)), n, CalleeText(Base(node)));
    }
  }

  /**
   * A callee is taken for one on `this`, and its call given an owner, only when `this`
   * is what it stands on: no name that merely begins like it is mistaken for it.
   */
  lemma ThisIsTheBase(node: Option<Node>)
    requires OnThis(CalleeText(node)) && '.' !in CalleeText(Base(node))
    ensures CalleeText(Base(node)) == "this"
  {
    TextStandsOnBase(node);
    BeginsLikeThis(CalleeText(node), CalleeText(Base(node)));
  }

  lemma BeginsLikeThis(text: string, base: string)
    requires OnThis(text) && Continues(text, base) && '.' !in base
    ensures base == "this"
  {
    assert text[..5] == "this.";
    assert text[..4] == "this" && text[4] == '.';
    assert forall i :: 0 <= i < 4 ==> text[i] == "this"[i];
    NotPastTheDot(text, base, 4);
    assert base == text[..|base|];
  }

  lemma NotPastTheDot(text: string, base: string, dot: nat)
    requires base <= text && '.' !in base && dot < |text| && text[dot] == '.'
    ensures |base| <= dot
  {
    if dot < |base| { assert false; }
  }
}
