/** The already-parsed syntax tree the formatter walks, and the options it reads. */
module Syntax {
  import opened Strings

  /** The node kinds `format_node` tells apart, one constructor per tag of the
      grammar that the formatter names: `SourceFile` is `source_file`, `ActorKw` the
      `actor` keyword, `Arrow` the `=>` token, `Error` the `ERROR` tag, and so on.
      Every other tag is `Other(tag)`. */
  datatype Kind =
    | SourceFile | BlockComment | LineComment | UseStatement | StringLiteral
    | ActorDefinition | ClassDefinition | TraitDefinition | PrimitiveDefinition
    | TypeDefinition | TypeAlias | UnionType | Members | Field | FieldDefinition
    | Method | Constructor | FunctionDefinition | Parameters | BaseType | Capability
    | Block | IfStatement | IfBlock | ThenBlock
    | CallExpression | MemberExpression | Arguments
    | AssignmentExpression | VariableDeclaration | Assignment
    | Identifier | Number | Boolean
    | ActorKw | ClassKw | TraitKw | PrimitiveKw | NewKw | FunKw | BeKw
    | LetKw | VarKw | EmbedKw | IsKw | IfKw | ThenKw | EndKw
    | ValCap | RefCap | IsoCap | TrnCap | BoxCap | TagCap
    | Colon | Arrow | Equals | Semicolon | LParen | RParen
    | Error
    | Other(name: string)

  /** A tree-sitter node: its kind, the span it covers in the source, and its children
      in source order. Offsets index the source as a sequence of characters. */
  datatype Node = Node(kind: Kind, startByte: nat, endByte: nat, children: seq<Node>)

  predicate SpanIn(n: Node, len: nat) {
    n.startByte <= n.endByte <= len
  }

  /** Every span of the tree lies inside a source of length `len`. */
  predicate WellFormed(n: Node, len: nat) {
    SpanIn(n, len)
    && forall i :: 0 <= i < |n.children| ==> SpanIn(n.children[i], len) && WellFormed(n.children[i], len)
  }

  /** No node of the tree is an `ERROR` node. */
  predicate NoError(n: Node) {
    n.kind != Error && forall i :: 0 <= i < |n.children| ==> NoError(n.children[i])
  }

  /** `FormatOptions`: only the indent width affects the text produced. */
  datatype FormatOptions = FormatOptions(indentWidth: nat)

  const DefaultOptions := FormatOptions(2)

  /** `node_text`: the source text a node spans. */
  function NodeText(n: Node, source: string): (r: string)
    requires SpanIn(n, |source|)
    ensures |r| == n.endByte - n.startByte
  {
    source[n.startByte..n.endByte]
  }

  /** The index of the first child of the given kind, if any. */
  function FirstOfKind(cs: seq<Node>, kind: Kind): (r: Option<nat>)
    ensures r.Some? ==> r.value < |cs| && cs[r.value].kind == kind
    ensures forall j :: 0 <= j < |cs| && (r.None? || j < r.value) ==> cs[j].kind != kind
  {
    if |cs| == 0 then None
    else if cs[0].kind == kind then Some(0)
    else match FirstOfKind(cs[1..], kind)
      case None => None
      case Some(j) => Some(j + 1)
  }
}
