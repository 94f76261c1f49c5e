/** The formatter as the source runs it: a `FormatterState` object whose methods append
    to its output in place, and `format_node` walking the tree with cursor loops over
    each node's children. Every method is proved to leave the state that the matching
    `Render` function computes from the state before. */
module Formatter {
  import opened Strings
  import opened Syntax
  import opened Emit
  import opened Rules
  import Render

  class FormatterState {
    var output: string
    var indentLevel: nat
    var currentLineHasContent: bool

    /** The state as a value. */
    function Snapshot(): Layout
      reads this
    {
      Layout(output, indentLevel, currentLineHasContent)
    }

    constructor ()
      ensures Snapshot() == Fresh
    {
      output := "";
      indentLevel := 0;
      currentLineHasContent := false;
    }

    /** At the start of a line, one space at a time, `indentLevel * indentWidth` of them. */
    method WriteIndent(opts: FormatOptions)
      modifies this
      ensures output == old(output) + (if old(currentLineHasContent) then "" else Spaces(indentLevel * opts.indentWidth))
      ensures indentLevel == old(indentLevel) && currentLineHasContent == old(currentLineHasContent)
      ensures Snapshot() == Emit.WriteIndent(old(Snapshot()), opts.indentWidth)
    {
      if !currentLineHasContent {
        var count := indentLevel * opts.indentWidth;
        var k := 0;
        while k < count
          invariant 0 <= k <= count
          invariant output == old(output) + Spaces(k)
          invariant indentLevel == old(indentLevel) && currentLineHasContent == old(currentLineHasContent)
        {
          output := output + " ";
          k := k + 1;
        }
      }
    }

    method WriteText(text: string)
      modifies this
      ensures output == old(output) + text
      ensures currentLineHasContent && indentLevel == old(indentLevel)
      ensures Snapshot() == Emit.WriteText(old(Snapshot()), text)
    {
      output := output + text;
      currentLineHasContent := true;
    }

    method WriteNewline()
      modifies this
      ensures output == old(output) + "\n"
      ensures !currentLineHasContent && indentLevel == old(indentLevel)
      ensures Snapshot() == Emit.WriteNewline(old(Snapshot()))
    {
      output := output + "\n";
      currentLineHasContent := false;
    }

    /** Ends a line that has text, then writes one empty line. */
    method WriteBlankLine()
      modifies this
      ensures output == old(output) + (if old(currentLineHasContent) then "\n\n" else "\n")
      ensures !currentLineHasContent && indentLevel == old(indentLevel)
      ensures Snapshot() == Emit.WriteBlankLine(old(Snapshot()))
    {
      if currentLineHasContent {
        WriteNewline();
      }
      WriteNewline();
    }

    method IncreaseIndent()
      modifies this
      ensures indentLevel == old(indentLevel) + 1
      ensures output == old(output) && currentLineHasContent == old(currentLineHasContent)
      ensures Snapshot() == Emit.IncreaseIndent(old(Snapshot()))
    {
      indentLevel := indentLevel + 1;
    }

    /** Saturates at zero. */
    method DecreaseIndent()
      modifies this
      ensures indentLevel == if old(indentLevel) > 0 then old(indentLevel) - 1 else 0
      ensures output == old(output) && currentLineHasContent == old(currentLineHasContent)
      ensures Snapshot() == Emit.DecreaseIndent(old(Snapshot()))
    {
      if indentLevel > 0 {
        indentLevel := indentLevel - 1;
      }
    }
  }

  /** `format_source` on an already-parsed tree: a fresh state, the root formatted, the
      output returned. */
  method FormatSource(root: Node, source: string, opts: FormatOptions) returns (out: string)
    requires WellFormed(root, |source|)
    ensures out == Render.FormatSource(root, source, opts)
  {
    var state := new FormatterState();
    FormatNode(root, None, None, source, state, opts);
    out := state.output;
  }

  /** `format_arguments`: each argument trimmed, blank ones dropped, the rest joined by
      `, ` between parentheses. */
  method FormatArguments(node: Node, source: string, state: FormatterState)
    requires SpanIn(node, |source|)
    modifies state
    ensures state.output == old(state.output) + FlatArgumentList(NodeText(node, source))
    ensures state.currentLineHasContent && state.indentLevel == old(state.indentLevel)
  {
    var fullText := NodeText(node, source);
    var args := SplitArguments(fullText);
    WriteArgumentList(args, state);
  }

  /** The cleaned-up arguments written between parentheses. */
  method WriteArgumentList(args: seq<string>, state: FormatterState)
    modifies state
    ensures state.output == old(state.output) + ("(" + Join(args, ", ") + ")")
    ensures state.currentLineHasContent && state.indentLevel == old(state.indentLevel)
  {
    state.WriteText("(");
    WriteJoined(args, state);
    state.WriteText(")");
  }

  /** The loop of `format_arguments`: `, ` before every argument but the first. */
  method WriteJoined(args: seq<string>, state: FormatterState)
    modifies state
    ensures state.output == old(state.output) + Join(args, ", ")
    ensures state.indentLevel == old(state.indentLevel)
    ensures state.currentLineHasContent == (old(state.currentLineHasContent) || |args| > 0)
  {
    var i := 0;
    while i < |args|
      invariant 0 <= i <= |args|
      invariant state.output == old(state.output) + Join(args[..i], ", ")
      invariant state.indentLevel == old(state.indentLevel)
      invariant state.currentLineHasContent == (old(state.currentLineHasContent) || i > 0)
    {
      JoinSnoc(args[..i], ", ", args[i]);
      assert args[..i + 1] == args[..i] + [args[i]];
      if i > 0 {
        state.WriteText(", ");
      }
      state.WriteText(args[i]);
      i := i + 1;
    }
    assert args[..|args|] == args;
  }

  /** `format_node`, dispatching on the node's kind. */
  method FormatNode(node: Node, parent: Option<Kind>, grand: Option<Kind>,
                    source: string, state: FormatterState, opts: FormatOptions)
    requires WellFormed(node, |source|)
    modifies state
    ensures state.Snapshot() == Render.FormatNode(node, parent, grand, source, opts, old(state.Snapshot()))
    decreases node, 2, 0
  {
    var k := node.kind;
    if k.SourceFile? {
      RunLoop(Render.TopLevel, node, parent, source, state, opts);
    } else if k.BlockComment? || k.LineComment? {
      var text := NodeText(node, source);
      state.WriteIndent(opts);
      state.WriteText(text);
      state.WriteNewline();
    } else if k.UseStatement? {
      state.WriteIndent(opts);
      state.WriteText("use ");
      WriteUseTarget(node, source, state);
      state.WriteNewline();
    } else if Render.IsDefinition(k) {
      FormatDefinition(node, parent, source, state, opts);
    } else if k.Members? {
      RunLoop(Render.EachChild, node, parent, source, state, opts);
    } else if Render.IsMember(k) {
      FormatMember(node, parent, source, state, opts);
    } else if k.IfStatement? {
      state.WriteIndent(opts);
      RunLoop(Render.IfParts, node, parent, source, state, opts);
    } else if k.Block? {
      if IsSimpleAssignmentBlock(node.children) {
        state.WriteIndent(opts);
        RunLoop(Render.AssignmentRun, node, parent, source, state, opts);
        state.WriteNewline();
      } else {
        RunLoop(Render.EachChild, node, parent, source, state, opts);
      }
    } else if k.CallExpression? {
      var isStandalone := IsStandalone(parent, grand);
      if isStandalone {
        state.WriteIndent(opts);
      }
      RunLoop(Render.CallParts, node, parent, source, state, opts);
      if isStandalone {
        state.WriteNewline();
      }
    } else if k.AssignmentExpression? {
      state.WriteIndent(opts);
      RunLoop(Render.AssignmentParts, node, parent, source, state, opts);
      state.WriteNewline();
    } else if k.VariableDeclaration? {
    } else if k.Assignment? {
      state.WriteIndent(opts);
      state.WriteText(NodeText(node, source));
      state.WriteNewline();
    } else if Render.HandledByParent(k) {
    } else if k.Error? {
      FormatError(NodeText(node, source), state, opts);
    } else if k.StringLiteral? {
      state.WriteText(NodeText(node, source));
    } else {
      RunLoop(Render.EachChild, node, parent, source, state, opts);
    }
  }

  /** The arms for actors, classes, traits, primitives, type definitions and aliases. */
  method FormatDefinition(node: Node, parent: Option<Kind>,
                          source: string, state: FormatterState, opts: FormatOptions)
    requires WellFormed(node, |source|)
    modifies state
    ensures state.Snapshot() == Render.FormatDefinition(node, parent, source, opts, old(state.Snapshot()))
    decreases node, 1, 1
  {
    var k := node.kind;
    state.WriteIndent(opts);
    if k.TraitDefinition? {
      RunLoop(Render.TraitParts, node, parent, source, state, opts);
    } else if k.PrimitiveDefinition? {
      RunLoop(Render.PrimitiveParts, node, parent, source, state, opts);
      state.WriteNewline();
    } else if k.TypeDefinition? {
      state.WriteText("type ");
      WriteTypeDefinitionParts(node, source, state);
      state.WriteNewline();
    } else if k.TypeAlias? {
      state.WriteText("type ");
      RunLoop(Render.TypeAliasParts, node, parent, source, state, opts);
      state.WriteNewline();
    } else {
      RunLoop(Render.DefinitionParts, node, parent, source, state, opts);
    }
  }

  /** The arms for fields, methods, constructors and function definitions. */
  method FormatMember(node: Node, parent: Option<Kind>,
                      source: string, state: FormatterState, opts: FormatOptions)
    requires WellFormed(node, |source|)
    modifies state
    ensures state.Snapshot() == Render.FormatMember(node, parent, source, opts, old(state.Snapshot()))
    decreases node, 1, 1
  {
    var k := node.kind;
    state.WriteIndent(opts);
    if k.Field? || k.FieldDefinition? {
      RunLoop(Render.FieldParts, node, parent, source, state, opts);
      state.WriteNewline();
    } else if k.Method? {
      RunLoop(Render.MethodParts, node, parent, source, state, opts);
      state.WriteNewline();
    } else {
      RunLoop(Render.ConstructorParts, node, parent, source, state, opts);
    }
  }

  /** The cursor loop of an arm: every child in order, each handled by the arm's step. */
  method RunLoop(loop: Render.Loop, node: Node, parent: Option<Kind>,
                 source: string, state: FormatterState, opts: FormatOptions)
    requires WellFormed(node, |source|)
    modifies state
    ensures state.Snapshot() == Render.Fold(loop, node, parent, 0, source, opts, old(state.Snapshot()))
    decreases node, 1, 0
  {
    ghost var s0 := old(state.Snapshot());
    var i := 0;
    while i < |node.children|
      invariant 0 <= i <= |node.children|
      invariant Render.Fold(loop, node, parent, i, source, opts, state.Snapshot())
                == Render.Fold(loop, node, parent, 0, source, opts, s0)
    {
      RunStep(loop, node, parent, i, source, state, opts);
      i := i + 1;
    }
  }

  /** One pass of an arm's loop body, on child `i`. */
  method RunStep(loop: Render.Loop, node: Node, parent: Option<Kind>, i: nat,
                 source: string, state: FormatterState, opts: FormatOptions)
    requires WellFormed(node, |source|) && i < |node.children|
    modifies state
    ensures state.Snapshot() == Render.Step(loop, node, parent, i, source, opts, old(state.Snapshot()))
    decreases node, 0, 1
  {
    var child := node.children[i];
    var here := Some(node.kind);
    match loop
    case TopLevel =>
      if i > 0 && NeedsBlankLine(node.children[i - 1].kind, child.kind) {
        state.WriteBlankLine();
      }
      FormatNode(child, here, parent, source, state, opts);
    case EachChild =>
      FormatNode(child, here, parent, source, state, opts);
    case DefinitionParts =>
      if child.kind.Members? {
        FormatNested(child, here, parent, source, state, opts);
      } else {
        WriteDefinitionToken(child, source, state);
      }
    case TraitParts =>
      if child.kind.Members? {
        FormatNested(child, here, parent, source, state, opts);
      } else {
        WriteTraitToken(child, source, state);
      }
    case PrimitiveParts => WritePrimitiveToken(child, source, state);
    case TypeAliasParts => WriteTypeAliasToken(child, source, state);
    case FieldParts => WriteFieldToken(child, source, state);
    case MethodParts => MethodStep(node, parent, i, source, state, opts);
    case ConstructorParts =>
      if child.kind.Block? {
        FormatNested(child, here, parent, source, state, opts);
      } else {
        WriteConstructorToken(child, source, state);
      }
    case IfParts => IfStatementStep(node, parent, i, source, state, opts);
    case IfBlockParts => WriteIfBlockToken(child, source, state);
    case ThenBlockParts => ThenBlockStep(node, parent, i, source, state, opts);
    case AssignmentRun => WriteAssignmentRunToken(node.children, i, source, state);
    case CallParts => CallStep(node, parent, i, source, state, opts);
    case AssignmentParts => AssignmentStep(node, parent, i, source, state, opts);
  }

  /** A body on a new line, one level deeper, and the level put back afterwards. */
  method FormatNested(child: Node, parent: Option<Kind>, grand: Option<Kind>,
                      source: string, state: FormatterState, opts: FormatOptions)
    requires WellFormed(child, |source|)
    modifies state
    ensures state.Snapshot() == Render.Nested(child, parent, grand, source, opts, old(state.Snapshot()))
    decreases child, 3, 0
  {
    state.WriteNewline();
    state.IncreaseIndent();
    FormatNode(child, parent, grand, source, state, opts);
    state.DecreaseIndent();
  }

  /** A child of a method: the body nested unless it is one short line. */
  method MethodStep(node: Node, parent: Option<Kind>, i: nat,
                    source: string, state: FormatterState, opts: FormatOptions)
    requires WellFormed(node, |source|) && i < |node.children|
    modifies state
    ensures state.Snapshot() == Render.MethodStep(node, parent, i, source, opts, old(state.Snapshot()))
    decreases node, 0, 0
  {
    var child := node.children[i];
    if child.kind.Block? && !InlineBody(NodeText(child, source)) {
      FormatNested(child, Some(node.kind), parent, source, state, opts);
    } else {
      WriteMethodToken(child, source, state);
    }
  }

  /** `if_statement`: `format_if_block`, `format_then_block`, and the closing `end`. */
  method IfStatementStep(node: Node, parent: Option<Kind>, i: nat,
                         source: string, state: FormatterState, opts: FormatOptions)
    requires WellFormed(node, |source|) && i < |node.children|
    modifies state
    ensures state.Snapshot() == Render.IfStep(node, parent, i, source, opts, old(state.Snapshot()))
    decreases node, 0, 0
  {
    var child := node.children[i];
    if child.kind.IfBlock? {
      RunLoop(Render.IfBlockParts, child, Some(node.kind), source, state, opts);
    } else if child.kind.ThenBlock? {
      RunLoop(Render.ThenBlockParts, child, Some(node.kind), source, state, opts);
    } else if child.kind.EndKw? {
      state.WriteIndent(opts);
      state.WriteText("end");
      state.WriteNewline();
    }
  }

  /** `format_then_block`'s loop body. */
  method ThenBlockStep(node: Node, parent: Option<Kind>, i: nat,
                       source: string, state: FormatterState, opts: FormatOptions)
    requires WellFormed(node, |source|) && i < |node.children|
    modifies state
    ensures state.Snapshot() == Render.ThenStep(node, parent, i, source, opts, old(state.Snapshot()))
    decreases node, 0, 0
  {
    var child := node.children[i];
    if child.kind.ThenKw? {
      state.WriteText("then");
      state.WriteNewline();
    } else if child.kind.Block? {
      state.IncreaseIndent();
      FormatNode(child, Some(node.kind), parent, source, state, opts);
      state.DecreaseIndent();
    }
  }

  /** The `call_expression` loop body. */
  method CallStep(node: Node, parent: Option<Kind>, i: nat,
                  source: string, state: FormatterState, opts: FormatOptions)
    requires WellFormed(node, |source|) && i < |node.children|
    modifies state
    ensures state.Snapshot() == Render.CallStep(node, parent, i, source, opts, old(state.Snapshot()))
    decreases node, 0, 0
  {
    var child := node.children[i];
    if child.kind.MemberExpression? || child.kind.Identifier? {
      state.WriteText(NodeText(child, source));
    } else if child.kind.Arguments? {
      FormatArguments(child, source, state);
      assert state.Snapshot() == WriteText(old(state.Snapshot()), FlatArgumentList(NodeText(child, source)));
    } else {
      FormatNode(child, Some(node.kind), parent, source, state, opts);
    }
  }

  /** The `assignment_expression` loop body. Its `first` flag is false from the second
      child on, since every arm clears it. */
  method AssignmentStep(node: Node, parent: Option<Kind>, i: nat,
                        source: string, state: FormatterState, opts: FormatOptions)
    requires WellFormed(node, |source|) && i < |node.children|
    modifies state
    ensures state.Snapshot() == Render.AssignmentStep(node, parent, i, source, opts, old(state.Snapshot()))
    decreases node, 0, 0
  {
    var child := node.children[i];
    var first := i == 0;
    if child.kind.VariableDeclaration? {
      state.WriteText(NodeText(child, source));
    } else if child.kind.Identifier? {
      if !first {
        state.WriteText(" ");
      }
      state.WriteText(NodeText(child, source));
    } else if child.kind.Equals? {
      state.WriteText(" = ");
    } else if child.kind.Block? {
      assert WellFormed(child, |source|);
      if Render.IsSimpleValueBlock(child) {
        state.WriteText(NodeText(child.children[0], source));
      } else {
        RunLoop(Render.EachChild, child, Some(node.kind), source, state, opts);
      }
    } else {
      FormatNode(child, Some(node.kind), parent, source, state, opts);
    }
  }

  /** Error nodes, from their text alone. */
  method FormatError(text: string, state: FormatterState, opts: FormatOptions)
    modifies state
    ensures state.Snapshot() == Render.FormatError(text, opts.indentWidth, old(state.Snapshot()))
  {
    if StartsWith(text, "if ") && Contains(text, "then") {
      state.WriteIndent(opts);
      var k := Find(text, "then").value;
      var head, rest := text[..k], text[k + 4..];
      state.WriteText(Trim(head) + " then");
      state.WriteNewline();
      state.IncreaseIndent();
      if Trim(rest) != [] {
        state.WriteIndent(opts);
        state.WriteText(Trim(rest));
      }
    } else if Trim(text) == "end" || EndsWith(text, "end") {
      if Trim(text) != "end" {
        var content := Trim(TrimEndMatches(text, "end"));
        if content != [] {
          state.WriteText(content);
          state.WriteNewline();
        }
      }
      state.DecreaseIndent();
      state.WriteIndent(opts);
      state.WriteText("end");
      state.WriteNewline();
    } else {
      state.WriteIndent(opts);
      state.WriteText(text);
      state.WriteNewline();
    }
  }

  // ------------------------------------------------- arm bodies that write tokens only

  method WriteUseTarget(node: Node, source: string, state: FormatterState)
    requires WellFormed(node, |source|)
    modifies state
    ensures state.Snapshot() == Render.UseTarget(node, source, old(state.Snapshot()))
  {
    var i := 0;
    while i < |node.children|
      invariant 0 <= i <= |node.children|
      invariant forall j :: 0 <= j < i ==> !node.children[j].kind.StringLiteral?
      invariant state.Snapshot() == old(state.Snapshot())
    {
      if node.children[i].kind.StringLiteral? {
        state.WriteText(NodeText(node.children[i], source));
        return;
      }
      i := i + 1;
    }
  }

  /** The two cursor loops of the `type_definition` arm. */
  method WriteTypeDefinitionParts(node: Node, source: string, state: FormatterState)
    requires WellFormed(node, |source|)
    modifies state
    ensures state.Snapshot() == Render.TypeDefinitionParts(node, source, old(state.Snapshot()))
  {
    WriteTypeDefinitionName(node, source, state);
    WriteTypeDefinitionUnion(node, source, state);
  }

  /** The first loop: stop at the first identifier and write it. */
  method WriteTypeDefinitionName(node: Node, source: string, state: FormatterState)
    requires WellFormed(node, |source|)
    modifies state
    ensures state.Snapshot() == Render.TypeDefinitionName(node, source, old(state.Snapshot()))
  {
    var cs := node.children;
    var i := 0;
    while i < |cs| && !cs[i].kind.Identifier?
      invariant 0 <= i <= |cs|
      invariant forall j :: 0 <= j < i ==> !cs[j].kind.Identifier?
    {
      i := i + 1;
    }
    if i < |cs| {
      state.WriteText(NodeText(cs[i], source));
    }
  }

  /** The second loop: stop at the first `is`, write ` is ` and the sibling after it. */
  method WriteTypeDefinitionUnion(node: Node, source: string, state: FormatterState)
    requires WellFormed(node, |source|)
    modifies state
    ensures state.Snapshot() == Render.TypeDefinitionUnion(node, source, old(state.Snapshot()))
  {
    var cs := node.children;
    var i := 0;
    while i < |cs| && !cs[i].kind.IsKw?
      invariant 0 <= i <= |cs|
      invariant forall j :: 0 <= j < i ==> !cs[j].kind.IsKw?
    {
      i := i + 1;
    }
    if i < |cs| {
      state.WriteText(" is ");
      if i + 1 < |cs| {
        state.WriteText(NodeText(cs[i + 1], source));
      }
    }
  }

  method WriteDefinitionToken(child: Node, source: string, state: FormatterState)
    requires SpanIn(child, |source|)
    modifies state
    ensures state.Snapshot() == Render.DefinitionToken(child, source, old(state.Snapshot()))
  {
    var k := child.kind;
    if k.ActorKw? || k.ClassKw? || k.Capability? {
      state.WriteText(NodeText(child, source));
      state.WriteText(" ");
    } else if k.Identifier? || k.BaseType? {
      state.WriteText(NodeText(child, source));
    } else if k.IsKw? {
      state.WriteText(" is ");
    }
  }

  method WriteTraitToken(child: Node, source: string, state: FormatterState)
    requires SpanIn(child, |source|)
    modifies state
    ensures state.Snapshot() == Render.TraitToken(child, source, old(state.Snapshot()))
  {
    var k := child.kind;
    if k.TraitKw? || k.Capability? {
      state.WriteText(NodeText(child, source));
      state.WriteText(" ");
    } else if k.Identifier? {
      state.WriteText(NodeText(child, source));
    }
  }

  method WritePrimitiveToken(child: Node, source: string, state: FormatterState)
    requires SpanIn(child, |source|)
    modifies state
    ensures state.Snapshot() == Render.PrimitiveToken(child, source, old(state.Snapshot()))
  {
    var k := child.kind;
    if k.PrimitiveKw? {
      state.WriteText(NodeText(child, source));
      state.WriteText(" ");
    } else if k.Identifier? {
      state.WriteText(NodeText(child, source));
    }
  }

  method WriteTypeAliasToken(child: Node, source: string, state: FormatterState)
    requires SpanIn(child, |source|)
    modifies state
    ensures state.Snapshot() == Render.TypeAliasToken(child, source, old(state.Snapshot()))
  {
    var k := child.kind;
    if k.Identifier? || k.UnionType? {
      state.WriteText(NodeText(child, source));
    } else if k.IsKw? {
      state.WriteText(" is ");
    }
  }

  method WriteFieldToken(child: Node, source: string, state: FormatterState)
    requires SpanIn(child, |source|)
    modifies state
    ensures state.Snapshot() == Render.FieldToken(child, source, old(state.Snapshot()))
  {
    var k := child.kind;
    if k.LetKw? || k.VarKw? || k.EmbedKw? {
      state.WriteText(NodeText(child, source));
      state.WriteText(" ");
    } else if k.Colon? {
      state.WriteText(": ");
    } else if k.Equals? {
      state.WriteText(" = ");
    } else {
      state.WriteText(NodeText(child, source));
    }
  }

  method WriteMethodToken(child: Node, source: string, state: FormatterState)
    requires SpanIn(child, |source|)
    modifies state
    ensures state.Snapshot() == Render.MethodToken(child, source, old(state.Snapshot()))
  {
    var k := child.kind;
    if k.FunKw? {
      state.WriteText(NodeText(child, source));
      state.WriteText(" ");
    } else if k.Identifier? || k.Parameters? || k.BaseType? {
      state.WriteText(NodeText(child, source));
    } else if k.Colon? {
      state.WriteText(": ");
    } else if k.Arrow? {
      state.WriteText(" =>");
    } else if k.Block? {
      var trimmed := Trim(NodeText(child, source));
      state.WriteText(" ");
      state.WriteText(trimmed);
    }
  }

  method WriteConstructorToken(child: Node, source: string, state: FormatterState)
    requires SpanIn(child, |source|)
    modifies state
    ensures state.Snapshot() == Render.ConstructorToken(child, source, old(state.Snapshot()))
  {
    var k := child.kind;
    if k.NewKw? || k.FunKw? || k.BeKw? || k.Capability? {
      state.WriteText(NodeText(child, source));
      state.WriteText(" ");
    } else if k.ValCap? || k.RefCap? || k.IsoCap? || k.TrnCap? || k.BoxCap? || k.TagCap? {
    } else if k.Identifier? || k.Parameters? {
      state.WriteText(NodeText(child, source));
    } else if k.Colon? {
      state.WriteText(": ");
    } else if k.Arrow? {
      state.WriteText(" =>");
    } else {
      state.WriteText(NodeText(child, source));
    }
  }

  method WriteIfBlockToken(child: Node, source: string, state: FormatterState)
    requires SpanIn(child, |source|)
    modifies state
    ensures state.Snapshot() == Render.IfBlockToken(child, source, old(state.Snapshot()))
  {
    if child.kind.IfKw? {
      state.WriteText("if ");
    } else if child.kind.Block? {
      state.WriteText(NodeText(child, source));
      state.WriteText(" ");
    }
  }

  /** The simple-assignment loop body; `NoAssignmentBefore` is the source's `first` flag. */
  method WriteAssignmentRunToken(cs: seq<Node>, i: nat, source: string, state: FormatterState)
    requires i < |cs| && SpanIn(cs[i], |source|)
    modifies state
    ensures state.Snapshot() == Render.AssignmentRunToken(cs, i, source, old(state.Snapshot()))
  {
    if cs[i].kind.AssignmentExpression? {
      if !NoAssignmentBefore(cs, i) {
        state.WriteText(" ");
      }
      state.WriteText(NodeText(cs[i], source));
    } else if cs[i].kind.Semicolon? {
      state.WriteText(";");
    }
  }
}
