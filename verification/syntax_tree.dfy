/** Syntax trees as the walker reads them: nodes with a type and named fields, in order. */
module SyntaxTree {
  import opened Common
  import opened Text

  /** The node types that are told apart; any other is carried by its name. */
  datatype Kind =
    | TSInterfaceDeclaration | TSTypeAliasDeclaration | TSTypeAnnotation | TSTypeParameterDeclaration
    | TSTypeParameterInstantiation | TSLiteralType | TSImportType | TSIndexSignature | TSTypeQuery
    | TSDeclareFunction | TSEmptyBodyFunctionExpression | FunctionDeclaration | FunctionExpression
    | ArrowFunctionExpression | ClassDeclaration | ClassExpression | ClassBody | MethodDefinition
    | PropertyDefinition | AccessorProperty | StaticBlock | Decorator | Property | VariableDeclarator | AssignmentExpression
    | AssignmentPattern | ExportDefaultDeclaration | ChainExpression | ParenthesizedExpression
    | TSNonNullExpression | TSAsExpression | TSSatisfiesExpression | TSTypeAssertion | Literal | TemplateElement
    | ImportDeclaration | ExportAllDeclaration | ExportNamedDeclaration | CallExpression | NewExpression
    | TaggedTemplateExpression | ImportExpression | ObjectExpression | Identifier | PrivateIdentifier | Super
    | Import | ThisExpression | MemberExpression | SequenceExpression | Other(name: string)

  datatype Node = Node(kind: Kind, start: nat, end: nat, fields: seq<Field>)

  /** The fields that are told apart, by name; any other is carried by its name. */
  datatype Key =
    | AtId | AtKey | AtComputed | AtKind | AtMethod | AtName | AtValue | AtCooked | AtRaw | AtCallee
    | AtArguments | AtTag | AtQuasi | AtExpressions | AtExpression | AtObject | AtProperty | AtLeft | AtSource
    | AtTypeAnnotation | AtReturnType | AtTypeParameters | AtTypeArguments | AtSuperTypeArguments
    | AtSuperTypeParameters | AtImplements | AtComments | AtTokens | AtErrors | AtOther(name: string)

  datatype Field = Field(key: Key, value: Value)

  datatype Value =
    | One(node: Node)
    | Many(nodes: seq<Node>)  // the nodes of an array; holes and anything else in it are left out
    | Words(text: string)
    | Flag(flag: bool)
    | Nothing

  // ---- sizes, on which every recursion here goes down ----

  function Size(n: Node): nat
    decreases n, 1
  {
    1 + FieldsSize(n.fields)
  }

  function FieldsSize(fields: seq<Field>): nat
    decreases fields, 0
  {
    if fields == [] then 0
    else
      var field := fields[0];
      assert field.value < field;
      ValueSize(field.value) + FieldsSize(fields[1..])
  }

  function ValueSize(v: Value): nat
    decreases v, 0
  {
    match v
    case One(n) => Size(n)
    case Many(nodes) => NodesSize(nodes)
    case _ => 0
  }

  function NodesSize(nodes: seq<Node>): nat
    decreases nodes, 0
  {
    if nodes == [] then 0
    else Size(nodes[0]) + NodesSize(nodes[1..])
  }

  lemma {:induction false} MemberIsSmaller(nodes: seq<Node>, i: nat)
    requires i < |nodes|
    ensures Size(nodes[i]) <= NodesSize(nodes)
  {
    if i > 0 { MemberIsSmaller(nodes[1..], i - 1); }
  }

  // ---- reading a field ----

  /** The value of a field; a field that is not there reads as `Nothing`. */
  function Read(fields: seq<Field>, key: Key): (v: Value)
    ensures ValueSize(v) <= FieldsSize(fields)
  {
    if fields == [] then Nothing
    else if fields[0].key == key then fields[0].value
    else Read(fields[1..], key)
  }

  /** The single node in a field. */
  function Get(n: Node, key: Key): (r: Option<Node>)
    ensures r.Some? ==> Size(r.value) < Size(n)
  {
    var v := Read(n.fields, key);
    if v.One? then Some(v.node) else None
  }

  function GetList(n: Node, key: Key): (r: seq<Node>)
    ensures NodesSize(r) < Size(n)
  {
    var v := Read(n.fields, key);
    if v.Many? then v.nodes else []
  }

  function GetText(n: Node, key: Key): Option<string> {
    var v := Read(n.fields, key);
    if v.Words? then Some(v.text) else None
  }

  predicate GetFlag(n: Node, key: Key) { Read(n.fields, key) == Flag(true) }

  predicate Is(n: Option<Node>, kind: Kind) { n.Some? && n.value.kind == kind }

  function NameOf(n: Option<Node>): Option<string> { if n.Some? then GetText(n.value, AtName) else None }

  // ---- names ----

  predicate Unwraps(k: Kind) {
    k.ChainExpression? || k.ParenthesizedExpression? || k.TSNonNullExpression? || k.TSAsExpression? ||
    k.TSSatisfiesExpression? || k.TSTypeAssertion?
  }

  /** How a callee is written down: a chain of names, with `()`, `[]` and `?` where there is no name. */
  function CalleeText(node: Option<Node>): string
    decreases if node.Some? then 1 + Size(node.value) else 0
  {
    if node.None? then "?"
    else
      var n := node.value;
      if n.kind.Identifier? then GetText(n, AtName).GetOr("")
      else if n.kind.Super? then "super"
      else if n.kind.Import? then "import"
      else if n.kind.ThisExpression? then "this"
      else if n.kind.MemberExpression? then
        CalleeText(Get(n, AtObject)) + MemberSuffix(n)
      else if n.kind.SequenceExpression? then
        var list := GetList(n, AtExpressions);
        if list == [] then "?"
        else
          MemberIsSmaller(list, |list| - 1);
          CalleeText(Some(list[|list| - 1]))
      else if Unwraps(n.kind) then CalleeText(Get(n, AtExpression))
      else if n.kind.FunctionExpression? || n.kind.ArrowFunctionExpression? then "(iife)"
      else if n.kind.CallExpression? then CalleeText(Get(n, AtCallee)) + "()"
      else "?"
  }

  /** What a member access adds to its object's text: a private name keeps its sigil. */
  function MemberSuffix(n: Node): string {
    var key := Get(n, AtProperty);
    if !GetFlag(n, AtComputed) && key.Some? then
      "." + (if key.value.kind == PrivateIdentifier then "#" else "") +
      GetText(key.value, AtName).GetOr(GetText(key.value, AtValue).GetOr("?"))
    else if GetFlag(n, AtComputed) && Is(key, Literal) && GetText(key.value, AtValue).Some? then
      "." + GetText(key.value, AtValue).value
    else "[]"
  }

  const CALL_VIA := {"call", "apply", "bind"}

  predicate WrapsCallee(k: Kind) {
    k.ChainExpression? || k.ParenthesizedExpression? || k.TSNonNullExpression?
  }

  function UnwrapCallee(node: Option<Node>): Option<Node>
    decreases if node.Some? then 1 + Size(node.value) else 0
  {
    if node.Some? && WrapsCallee(node.value.kind) then UnwrapCallee(Get(node.value, AtExpression)) else node
  }

  /** The text of the function that a call through `call`, `apply` or `bind` reaches, when it has one. */
  function CallViaTarget(callee: Option<Node>): Option<string> {
    var node := UnwrapCallee(callee);
    if !Is(node, MemberExpression) then None
    else
      var key := Get(node.value, AtProperty);
      var name :=
        if GetFlag(node.value, AtComputed) then
          (if Is(key, Literal) then GetText(key.value, AtValue) else None)
        else NameOf(key);
      if name.None? || name.value !in CALL_VIA then None
      else
        var target := CalleeText(Get(node.value, AtObject));
        if target == "?" then None else Some(target)
  }

  function KeyName(key: Option<Node>, computed: bool): Option<string> {
    if key.None? || computed then None
    else if key.value.kind == PrivateIdentifier && NameOf(key).Some? then Some("#" + NameOf(key).value)
    else if NameOf(key).Some? then NameOf(key)
    else GetText(key.value, AtValue)
  }

  predicate IsKeyed(k: Kind) {
    k.Property? || k.PropertyDefinition? || k.AccessorProperty? || k.MethodDefinition?
  }

  function IdentifierName(n: Option<Node>): Option<string> {
    if Is(n, Identifier) then NameOf(n) else None
  }

  /** What a function is called: by its own identifier or, without one, by what its parent puts it in. */
  function InferName(node: Node, parent: Option<Node>): Option<string> {
    var own := NameOf(Get(node, AtId));
    if own.Some? && own.value != "" then own
    else if parent.None? then None
    else
      var p := parent.value;
      if p.kind == VariableDeclarator then IdentifierName(Get(p, AtId))
      else if p.kind == AssignmentExpression then
        (if Is(Get(p, AtLeft), Identifier) then NameOf(Get(p, AtLeft)) else Some(CalleeText(Get(p, AtLeft))))
      else if IsKeyed(p.kind) then KeyName(Get(p, AtKey), GetFlag(p, AtComputed))
      else if p.kind == AssignmentPattern then IdentifierName(Get(p, AtLeft))
      else None
  }

  datatype FunctionKind = Declaration | Expression | Arrow | Method | Constructor | Getter | Setter

  /** The range a function is reported with, and its kind: a method's is its definition's. */
  datatype Owner = Owner(node: Node, member: bool, kind: FunctionKind)

  function RangeOwner(node: Node, parent: Option<Node>, slot: Option<Key>): Owner {
    var as_ := if parent.Some? then GetText(parent.value, AtKind).GetOr("") else "";
    if Is(parent, MethodDefinition) && slot == Some(AtValue) then
      Owner(parent.value, true,
            if as_ == "constructor" then Constructor else if as_ == "get" then Getter
            else if as_ == "set" then Setter else Method)
    else if Is(parent, Property) && slot == Some(AtValue) &&
            (GetFlag(parent.value, AtMethod) || as_ == "get" || as_ == "set") then
      Owner(parent.value, true,
            if as_ == "get" then Getter else if as_ == "set" then Setter else Method)
    else
      Owner(node, false,
            if node.kind == FunctionDeclaration then Declaration
            else if node.kind == ArrowFunctionExpression then Arrow else Expression)
  }

  /** What a class or an object that is assigned to `left` is called. */
  function TargetName(left: Option<Node>): Option<string> {
    if left.None? then None
    else if left.value.kind == Identifier then NameOf(left)
    else
      var text := CalleeText(left);
      if text == "?" || Contains(text, "[]") || Contains(text, "()") then None else Some(text)
  }
}
