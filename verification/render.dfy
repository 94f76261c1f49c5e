/** The reference meaning of `format_node`: what each node kind writes, as functions
    from the state before to the state after. `FormatNode` dispatches on the kind,
    `Fold` runs one of the source's child loops over the children from index `i` on,
    and `Step` is one iteration of that loop. */
module Render {
  import opened Strings
  import opened Syntax
  import opened Emit
  import opened Rules

  /** The child loops of `format_node`, `format_if_block` and `format_then_block`. */
  datatype Loop =
    | TopLevel          // source_file
    | DefinitionParts   // actor_definition, class_definition
    | TraitParts        // trait_definition
    | PrimitiveParts    // primitive_definition
    | TypeAliasParts    // type_alias
    | FieldParts        // field, field_definition
    | MethodParts       // method
    | ConstructorParts  // constructor, function_definition
    | IfParts           // if_statement
    | IfBlockParts      // format_if_block
    | ThenBlockParts    // format_then_block
    | EachChild         // members, general blocks, unknown kinds
    | AssignmentRun     // a block of simple assignments kept on one line
    | CallParts         // call_expression
    | AssignmentParts   // assignment_expression

  /** `format_node` on `n`, whose parent has kind `parent` and grandparent `grand`
      (`None` above the root). Output is only ever appended to, and a subtree without
      `ERROR` nodes leaves the indent level where it found it. */
  function FormatNode(n: Node, parent: Option<Kind>, grand: Option<Kind>,
                      source: string, opts: FormatOptions, s: Layout): (r: Layout)
    requires WellFormed(n, |source|)
    ensures s.output <= r.output
    ensures NoError(n) ==> r.indentLevel == s.indentLevel
    decreases n, 2, 0
  {
    var w := opts.indentWidth;
    var k := n.kind;
    if k.SourceFile? then Fold(TopLevel, n, parent, 0, source, opts, s)
    else if k.BlockComment? || k.LineComment? then
      WriteNewline(WriteText(WriteIndent(s, w), NodeText(n, source)))
    else if k.UseStatement? then
      WriteNewline(UseTarget(n, source, WriteText(WriteIndent(s, w), "use ")))
    else if IsDefinition(k) then FormatDefinition(n, parent, source, opts, s)
    else if k.Members? then Fold(EachChild, n, parent, 0, source, opts, s)
    else if IsMember(k) then FormatMember(n, parent, source, opts, s)
    else if k.IfStatement? then Fold(IfParts, n, parent, 0, source, opts, WriteIndent(s, w))
    else if k.Block? then
      if IsSimpleAssignmentBlock(n.children) then
        WriteNewline(Fold(AssignmentRun, n, parent, 0, source, opts, WriteIndent(s, w)))
      else
        Fold(EachChild, n, parent, 0, source, opts, s)
    else if k.CallExpression? then
      var standalone := IsStandalone(parent, grand);
      var s1 := Fold(CallParts, n, parent, 0, source, opts, if standalone then WriteIndent(s, w) else s);
      if standalone then WriteNewline(s1) else s1
    else if k.AssignmentExpression? then
      WriteNewline(Fold(AssignmentParts, n, parent, 0, source, opts, WriteIndent(s, w)))
    else if k.VariableDeclaration? then s
    else if k.Assignment? then WriteNewline(WriteText(WriteIndent(s, w), NodeText(n, source)))
    else if HandledByParent(k) then s
    else if k.Error? then FormatError(NodeText(n, source), w, s)
    else if k.StringLiteral? then WriteText(s, NodeText(n, source))
    else Fold(EachChild, n, parent, 0, source, opts, s)
  }

  /** Kinds `format_node` sends to the declaration arms. */
  predicate IsDefinition(k: Kind) {
    k.ActorDefinition? || k.ClassDefinition? || k.TraitDefinition? || k.PrimitiveDefinition?
    || k.TypeDefinition? || k.TypeAlias?
  }

  /** Kinds `format_node` sends to the member arms. */
  predicate IsMember(k: Kind) {
    k.Field? || k.FieldDefinition? || k.Method? || k.Constructor? || k.FunctionDefinition?
  }

  /** Keywords, names and punctuation that write nothing by themselves: their parents'
      arms write them. */
  predicate HandledByParent(k: Kind) {
    k.ActorKw? || k.ClassKw? || k.TraitKw? || k.PrimitiveKw? || k.NewKw? || k.FunKw? || k.BeKw?
    || k.LetKw? || k.VarKw? || k.EmbedKw? || k.Identifier? || k.Parameters? || k.Colon?
    || k.Arrow? || k.ValCap? || k.RefCap? || k.IsoCap? || k.TrnCap? || k.BoxCap? || k.TagCap?
    || k.LParen? || k.RParen? || k.Equals? || k.IfKw? || k.ThenKw? || k.EndKw? || k.IsKw?
    || k.Capability?
  }

  /** The type-level declarations: actors, classes, traits, primitives and type names. */
  function FormatDefinition(n: Node, parent: Option<Kind>,
                            source: string, opts: FormatOptions, s: Layout): (r: Layout)
    requires WellFormed(n, |source|)
    ensures s.output <= r.output
    ensures NoError(n) ==> r.indentLevel == s.indentLevel
    decreases n, 1, |n.children| + 1
  {
    var w := opts.indentWidth;
    var k := n.kind;
    if k.TraitDefinition? then Fold(TraitParts, n, parent, 0, source, opts, WriteIndent(s, w))
    else if k.PrimitiveDefinition? then
      WriteNewline(Fold(PrimitiveParts, n, parent, 0, source, opts, WriteIndent(s, w)))
    else if k.TypeDefinition? then
      WriteNewline(TypeDefinitionParts(n, source, WriteText(WriteIndent(s, w), "type ")))
    else if k.TypeAlias? then
      WriteNewline(Fold(TypeAliasParts, n, parent, 0, source, opts, WriteText(WriteIndent(s, w), "type ")))
    // actor_definition and class_definition
    else Fold(DefinitionParts, n, parent, 0, source, opts, WriteIndent(s, w))
  }

  /** The members of a type: fields, methods, constructors and functions. */
  function FormatMember(n: Node, parent: Option<Kind>,
                        source: string, opts: FormatOptions, s: Layout): (r: Layout)
    requires WellFormed(n, |source|)
    ensures s.output <= r.output
    ensures NoError(n) ==> r.indentLevel == s.indentLevel
    decreases n, 1, |n.children| + 1
  {
    var w := opts.indentWidth;
    var k := n.kind;
    if k.Field? || k.FieldDefinition? then
      WriteNewline(Fold(FieldParts, n, parent, 0, source, opts, WriteIndent(s, w)))
    else if k.Method? then WriteNewline(Fold(MethodParts, n, parent, 0, source, opts, WriteIndent(s, w)))
    // constructor and function_definition
    else Fold(ConstructorParts, n, parent, 0, source, opts, WriteIndent(s, w))
  }

  /** Loop `loop` over the children `i..` of `n`; `parent` is the kind of `n`'s parent. */
  function Fold(loop: Loop, n: Node, parent: Option<Kind>, i: nat,
                source: string, opts: FormatOptions, s: Layout): (r: Layout)
    requires WellFormed(n, |source|) && i <= |n.children|
    ensures s.output <= r.output
    ensures NoError(n) ==> r.indentLevel == s.indentLevel
    decreases n, 1, |n.children| - i
  {
    if i == |n.children| then s
    else Fold(loop, n, parent, i + 1, source, opts, Step(loop, n, parent, i, source, opts, s))
  }

  /** A nested body: a new line, the body one level deeper, then the level restored. */
  function Nested(c: Node, parent: Option<Kind>, grand: Option<Kind>,
                  source: string, opts: FormatOptions, s: Layout): (r: Layout)
    requires WellFormed(c, |source|)
    ensures s.output <= r.output
    ensures NoError(c) ==> r.indentLevel == s.indentLevel
    decreases c, 3, 0
  {
    DecreaseIndent(FormatNode(c, parent, grand, source, opts, IncreaseIndent(WriteNewline(s))))
  }

  /** Child `i` of `n` written as its own text followed by one space. */
  function Spaced(s: Layout, text: string): (r: Layout)
    ensures s.output <= r.output && r.output[|s.output|..] == text + " "
    ensures r.indentLevel == s.indentLevel
  {
    WriteText(WriteText(s, text), " ")
  }

  /** One iteration of loop `loop` over `n`, on child `i`. */
  function Step(loop: Loop, n: Node, parent: Option<Kind>, i: nat,
                source: string, opts: FormatOptions, s: Layout): (r: Layout)
    requires WellFormed(n, |source|) && i < |n.children|
    ensures s.output <= r.output
    ensures NoError(n) ==> r.indentLevel == s.indentLevel
    decreases n, 0, 1
  {
    var c := n.children[i];
    assert NoError(n) ==> NoError(c);
    match loop
    case TopLevel =>
      var s1 := if i > 0 && NeedsBlankLine(n.children[i - 1].kind, c.kind) then WriteBlankLine(s) else s;
      FormatNode(c, Some(n.kind), parent, source, opts, s1)
    case EachChild => FormatNode(c, Some(n.kind), parent, source, opts, s)
    case DefinitionParts =>
      if c.kind == Members then Nested(c, Some(n.kind), parent, source, opts, s)
      else DefinitionToken(c, source, s)
    case TraitParts =>
      if c.kind == Members then Nested(c, Some(n.kind), parent, source, opts, s)
      else TraitToken(c, source, s)
    case PrimitiveParts => PrimitiveToken(c, source, s)
    case TypeAliasParts => TypeAliasToken(c, source, s)
    case FieldParts => FieldToken(c, source, s)
    case MethodParts => MethodStep(n, parent, i, source, opts, s)
    case ConstructorParts =>
      if c.kind == Block then Nested(c, Some(n.kind), parent, source, opts, s)
      else ConstructorToken(c, source, s)
    case IfParts => IfStep(n, parent, i, source, opts, s)
    case IfBlockParts => IfBlockToken(c, source, s)
    case ThenBlockParts => ThenStep(n, parent, i, source, opts, s)
    case AssignmentRun => AssignmentRunToken(n.children, i, source, s)
    case CallParts => CallStep(n, parent, i, source, opts, s)
    case AssignmentParts => AssignmentStep(n, parent, i, source, opts, s)
  }

  /** A child of a method: a body that is not one short line is nested, everything else
      is a token of the signature line. */
  function MethodStep(n: Node, parent: Option<Kind>, i: nat,
                      source: string, opts: FormatOptions, s: Layout): (r: Layout)
    requires WellFormed(n, |source|) && i < |n.children|
    ensures s.output <= r.output
    ensures NoError(n) ==> r.indentLevel == s.indentLevel
    decreases n, 0, 0
  {
    var c := n.children[i];
    assert NoError(n) ==> NoError(c);
    if c.kind.Block? && !InlineBody(NodeText(c, source)) then Nested(c, Some(n.kind), parent, source, opts, s)
    else MethodToken(c, source, s)
  }

  /** A child of an `if` statement. */
  function IfStep(n: Node, parent: Option<Kind>, i: nat,
                  source: string, opts: FormatOptions, s: Layout): (r: Layout)
    requires WellFormed(n, |source|) && i < |n.children|
    ensures s.output <= r.output
    ensures NoError(n) ==> r.indentLevel == s.indentLevel
    decreases n, 0, 0
  {
    var c := n.children[i];
    assert NoError(n) ==> NoError(c);
    if c.kind.IfBlock? then Fold(IfBlockParts, c, Some(n.kind), 0, source, opts, s)
    else if c.kind.ThenBlock? then Fold(ThenBlockParts, c, Some(n.kind), 0, source, opts, s)
    else if c.kind.EndKw? then WriteNewline(WriteText(WriteIndent(s, opts.indentWidth), "end"))
    else s
  }

  /** A child of an `if_block`: the keyword, then the condition written as it stands. */
  function IfBlockToken(c: Node, source: string, s: Layout): (r: Layout)
    requires SpanIn(c, |source|)
    ensures s.output <= r.output && r.indentLevel == s.indentLevel
  {
    if c.kind.IfKw? then WriteText(s, "if ")
    else if c.kind.Block? then Spaced(s, NodeText(c, source))
    else s
  }

  /** A child of a `then_block`: `then` ends the line, the body goes one level deeper. */
  function ThenStep(n: Node, parent: Option<Kind>, i: nat,
                    source: string, opts: FormatOptions, s: Layout): (r: Layout)
    requires WellFormed(n, |source|) && i < |n.children|
    ensures s.output <= r.output
    ensures NoError(n) ==> r.indentLevel == s.indentLevel
    decreases n, 0, 0
  {
    var c := n.children[i];
    assert NoError(n) ==> NoError(c);
    if c.kind.ThenKw? then WriteNewline(WriteText(s, "then"))
    else if c.kind.Block? then DecreaseIndent(FormatNode(c, Some(n.kind), parent, source, opts, IncreaseIndent(s)))
    else s
  }

  /** A child of a block of simple assignments: a space before every assignment but
      the first, each `;` written as it is. */
  function AssignmentRunToken(cs: seq<Node>, i: nat, source: string, s: Layout): (r: Layout)
    requires i < |cs| && SpanIn(cs[i], |source|)
    ensures s.output <= r.output && r.indentLevel == s.indentLevel
  {
    if cs[i].kind.AssignmentExpression? then
      WriteText(if NoAssignmentBefore(cs, i) then s else WriteText(s, " "), NodeText(cs[i], source))
    else if cs[i].kind.Semicolon? then WriteText(s, ";")
    else s
  }

  /** A child of a call expression. */
  function CallStep(n: Node, parent: Option<Kind>, i: nat,
                    source: string, opts: FormatOptions, s: Layout): (r: Layout)
    requires WellFormed(n, |source|) && i < |n.children|
    ensures s.output <= r.output
    ensures NoError(n) ==> r.indentLevel == s.indentLevel
    decreases n, 0, 0
  {
    var c := n.children[i];
    assert NoError(n) ==> NoError(c);
    if c.kind.MemberExpression? || c.kind.Identifier? then WriteText(s, NodeText(c, source))
    else if c.kind.Arguments? then WriteText(s, FlatArgumentList(NodeText(c, source)))
    else FormatNode(c, Some(n.kind), parent, source, opts, s)
  }

  /** A child of an assignment expression. */
  function AssignmentStep(n: Node, parent: Option<Kind>, i: nat,
                          source: string, opts: FormatOptions, s: Layout): (r: Layout)
    requires WellFormed(n, |source|) && i < |n.children|
    ensures s.output <= r.output
    ensures NoError(n) ==> r.indentLevel == s.indentLevel
    decreases n, 0, 0
  {
    var c := n.children[i];
    assert NoError(n) ==> NoError(c);
    if c.kind.VariableDeclaration? then WriteText(s, NodeText(c, source))
    else if c.kind.Identifier? then WriteText(if i > 0 then WriteText(s, " ") else s, NodeText(c, source))
    else if c.kind.Equals? then WriteText(s, " = ")
    else if c.kind.Block? then
      assert WellFormed(c, |source|);
      if IsSimpleValueBlock(c) then WriteText(s, NodeText(c.children[0], source))
      else Fold(EachChild, c, Some(n.kind), 0, source, opts, s)
    else FormatNode(c, Some(n.kind), parent, source, opts, s)
  }

  /** An assignment's value block holding a single identifier, number, string or boolean. */
  predicate IsSimpleValueBlock(c: Node) {
    |c.children| == 1 && c.children[0].kind in {Identifier, Number, StringLiteral, Boolean}
  }

  /** A child of an actor or class definition other than its `members`. */
  function DefinitionToken(c: Node, source: string, s: Layout): (r: Layout)
    requires SpanIn(c, |source|)
    ensures s.output <= r.output && r.indentLevel == s.indentLevel
  {
    var k := c.kind;
    if k.ActorKw? || k.ClassKw? || k.Capability? then Spaced(s, NodeText(c, source))
    else if k.Identifier? || k.BaseType? then WriteText(s, NodeText(c, source))
    else if k.IsKw? then WriteText(s, " is ")
    else s
  }

  /** A child of a trait definition other than its `members`. */
  function TraitToken(c: Node, source: string, s: Layout): (r: Layout)
    requires SpanIn(c, |source|)
    ensures s.output <= r.output && r.indentLevel == s.indentLevel
  {
    var k := c.kind;
    if k.TraitKw? || k.Capability? then Spaced(s, NodeText(c, source))
    else if k.Identifier? then WriteText(s, NodeText(c, source))
    else s
  }

  /** A child of a primitive definition. */
  function PrimitiveToken(c: Node, source: string, s: Layout): (r: Layout)
    requires SpanIn(c, |source|)
    ensures s.output <= r.output && r.indentLevel == s.indentLevel
  {
    var k := c.kind;
    if k.PrimitiveKw? then Spaced(s, NodeText(c, source))
    else if k.Identifier? then WriteText(s, NodeText(c, source))
    else s
  }

  /** A child of a type alias. */
  function TypeAliasToken(c: Node, source: string, s: Layout): (r: Layout)
    requires SpanIn(c, |source|)
    ensures s.output <= r.output && r.indentLevel == s.indentLevel
  {
    var k := c.kind;
    if k.Identifier? || k.UnionType? then WriteText(s, NodeText(c, source))
    else if k.IsKw? then WriteText(s, " is ")
    else s
  }

  /** A child of a field: keywords get a space, `:` and `=` get spacing, and the name,
      type and default value are written as they stand. */
  function FieldToken(c: Node, source: string, s: Layout): (r: Layout)
    requires SpanIn(c, |source|)
    ensures s.output <= r.output && r.indentLevel == s.indentLevel
  {
    var k := c.kind;
    if k.LetKw? || k.VarKw? || k.EmbedKw? then Spaced(s, NodeText(c, source))
    else if k.Colon? then WriteText(s, ": ")
    else if k.Equals? then WriteText(s, " = ")
    else WriteText(s, NodeText(c, source))
  }

  /** A child of a method; a block reaching here is the one-line body kept on the
      signature's line. */
  function MethodToken(c: Node, source: string, s: Layout): (r: Layout)
    requires SpanIn(c, |source|)
    ensures s.output <= r.output && r.indentLevel == s.indentLevel
  {
    var k := c.kind;
    if k.FunKw? then Spaced(s, NodeText(c, source))
    else if k.Identifier? || k.Parameters? || k.BaseType? then WriteText(s, NodeText(c, source))
    else if k.Colon? then WriteText(s, ": ")
    else if k.Arrow? then WriteText(s, " =>")
    else if k.Block? then WriteText(WriteText(s, " "), Trim(NodeText(c, source)))
    else s
  }

  /** A child of a constructor or function definition other than its body. */
  function ConstructorToken(c: Node, source: string, s: Layout): (r: Layout)
    requires SpanIn(c, |source|)
    ensures s.output <= r.output && r.indentLevel == s.indentLevel
  {
    var k := c.kind;
    if k.NewKw? || k.FunKw? || k.BeKw? || k.Capability? then Spaced(s, NodeText(c, source))
    else if k.ValCap? || k.RefCap? || k.IsoCap? || k.TrnCap? || k.BoxCap? || k.TagCap? then s
    else if k.Identifier? || k.Parameters? then WriteText(s, NodeText(c, source))
    else if k.Colon? then WriteText(s, ": ")
    else if k.Arrow? then WriteText(s, " =>")
    // return type annotations and anything else
    else WriteText(s, NodeText(c, source))
  }

  /** `use_statement`: the first string child, written as it stands. */
  function UseTarget(n: Node, source: string, s: Layout): (r: Layout)
    requires WellFormed(n, |source|)
    ensures s.output <= r.output && r.indentLevel == s.indentLevel
  {
    match FirstOfKind(n.children, StringLiteral)
    case Some(j) => WriteText(s, NodeText(n.children[j], source))
    case None => s
  }

  /** `type_definition`: the first identifier, then ` is ` and the node after the first `is`. */
  function TypeDefinitionParts(n: Node, source: string, s: Layout): (r: Layout)
    requires WellFormed(n, |source|)
    ensures s.output <= r.output && r.indentLevel == s.indentLevel
  {
    TypeDefinitionUnion(n, source, TypeDefinitionName(n, source, s))
  }

  /** The first identifier child of a `type_definition`, if there is one. */
  function TypeDefinitionName(n: Node, source: string, s: Layout): (r: Layout)
    requires WellFormed(n, |source|)
    ensures s.output <= r.output && r.indentLevel == s.indentLevel
  {
    var j := FirstOfKind(n.children, Identifier);
    if j.Some? then WriteText(s, NodeText(n.children[j.value], source)) else s
  }

  /** ` is ` and the sibling after the first `is` of a `type_definition`, if there is one. */
  function TypeDefinitionUnion(n: Node, source: string, s: Layout): (r: Layout)
    requires WellFormed(n, |source|)
    ensures s.output <= r.output && r.indentLevel == s.indentLevel
  {
    var j := FirstOfKind(n.children, IsKw);
    if j.None? then s
    else if j.value + 1 < |n.children| then WriteText(WriteText(s, " is "), NodeText(n.children[j.value + 1], source))
    else WriteText(s, " is ")
  }

  /** The indent level an `ERROR` node of shape `shape` leaves behind. */
  function ErrorIndent(shape: ErrorShape, level: nat): nat {
    match shape
    case IfHead(_, _) => level + 1
    case EndTail(_) => if level == 0 then 0 else level - 1
    case Verbatim => level
  }

  /** An `ERROR` node, from its text alone. The `if` reading leaves the indent one level
      deeper, the `end` reading one level shallower (never below zero), and verbatim
      text leaves it alone. */
  function FormatError(text: string, width: nat, s: Layout): (r: Layout)
    ensures s.output <= r.output
    ensures r.indentLevel == ErrorIndent(ClassifyError(text), s.indentLevel)
  {
    match ClassifyError(text)
    case IfHead(condition, body) => ErrorIfHead(condition, body, width, s)
    case EndTail(before) => ErrorEndTail(before, width, s)
    case Verbatim => WriteNewline(WriteText(WriteIndent(s, width), text))
  }

  /** `if <condition> then` on a line of its own, then the body (if any) one level deeper,
      the level left raised for the `end` that closes it. */
  function ErrorIfHead(condition: string, body: string, width: nat, s: Layout): (r: Layout)
    ensures s.output <= r.output
    ensures r.output == s.output + Indentation(s, width) + condition + " then\n"
                        + (if body != [] then Spaces(r.indentLevel * width) + body else "")
    ensures r.indentLevel == s.indentLevel + 1
    ensures r.lineHasContent <==> body != []
  {
    var s1 := IncreaseIndent(WriteNewline(WriteText(WriteIndent(s, width), condition + " then")));
    IfHeadLine(condition, width, s);
    if body != [] then
      IndentedText(s1, width, body);
      WriteText(WriteIndent(s1, width), body)
    else
      assert s1.output + "" == s1.output;
      s1
  }

  lemma IndentedText(s: Layout, width: nat, text: string)
    requires !s.lineHasContent
    ensures WriteText(WriteIndent(s, width), text).output == s.output + (Spaces(s.indentLevel * width) + text)
  {
  }

  lemma IfHeadLine(condition: string, width: nat, s: Layout)
    ensures IncreaseIndent(WriteNewline(WriteText(WriteIndent(s, width), condition + " then"))).output
         == s.output + Indentation(s, width) + condition + " then\n"
  {
    IndentationWritten(s, width);
  }

  /** What came before `end` on a line of its own, then `end` one level shallower. */
  function ErrorEndTail(before: string, width: nat, s: Layout): (r: Layout)
    ensures s.output <= r.output
    ensures var level := if s.indentLevel == 0 then 0 else s.indentLevel - 1;
      && r.indentLevel == level && !r.lineHasContent
      && r.output == (if before != [] then s.output + before + "\n" else s.output)
                     + (if before == [] && s.lineHasContent then "" else Spaces(level * width))
                     + "end\n"
  {
    var s1 := if before != [] then WriteNewline(WriteText(s, before)) else s;
    var s2 := DecreaseIndent(s1);
    IndentationWritten(s2, width);
    WriteNewline(WriteText(WriteIndent(s2, width), "end"))
  }

  /** `format_source` once the tree is parsed: a fresh state, the root formatted. */
  function FormatSource(root: Node, source: string, opts: FormatOptions): (out: string)
    requires WellFormed(root, |source|)
    ensures NoError(root) ==> FormatNode(root, None, None, source, opts, Fresh).indentLevel == 0
  {
    FormatNode(root, None, None, source, opts, Fresh).output
  }

  /** One more iteration of a child loop. */
  lemma FoldNext(loop: Loop, n: Node, parent: Option<Kind>, i: nat,
                 source: string, opts: FormatOptions, s: Layout)
    requires WellFormed(n, |source|) && i < |n.children|
    ensures Fold(loop, n, parent, i, source, opts, s)
         == Fold(loop, n, parent, i + 1, source, opts, Step(loop, n, parent, i, source, opts, s))
  {
  }

  /** A child loop past the last child changes nothing. */
  lemma FoldDone(loop: Loop, n: Node, parent: Option<Kind>,
                 source: string, opts: FormatOptions, s: Layout)
    requires WellFormed(n, |source|)
    ensures Fold(loop, n, parent, |n.children|, source, opts, s) == s
  {
  }
}
