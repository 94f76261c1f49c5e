/** The two layouts the formatter's own tests spell out, an actor with a constructor and
    an `if` statement, worked through on hand-built syntax trees made of the node kinds the
    formatter's arms read (that the parser yields exactly these trees is not shown here). The
    walk is taken one arm and one loop iteration at a time, so the general lemmas come
    first: each says what one arm or one iteration writes. */
module Scenarios {
  import opened Strings
  import opened Syntax
  import opened Emit
  import opened Rules
  import opened Render
  import Arguments

  // ------------------------------------------------------------ loops and arms

  /** The root's loop formats its first child as it stands. */
  lemma TopLevelFirst(n: Node, parent: Option<Kind>, source: string, opts: FormatOptions, s: Layout)
    requires WellFormed(n, |source|) && 0 < |n.children|
    ensures Step(TopLevel, n, parent, 0, source, opts, s)
         == FormatNode(n.children[0], Some(n.kind), parent, source, opts, s)
  {
  }

  /** The loop of blocks, `members` and unknown kinds formats each child in turn. */
  lemma EachChildStep(n: Node, parent: Option<Kind>, i: nat,
                      source: string, opts: FormatOptions, s: Layout)
    requires WellFormed(n, |source|) && i < |n.children|
    ensures Step(EachChild, n, parent, i, source, opts, s)
         == FormatNode(n.children[i], Some(n.kind), parent, source, opts, s)
  {
  }

  /** `source_file` runs the top-level loop on the state as it is. */
  lemma SourceFileArm(n: Node, parent: Option<Kind>, grand: Option<Kind>,
                      source: string, opts: FormatOptions, s: Layout)
    requires WellFormed(n, |source|) && n.kind == SourceFile
    ensures FormatNode(n, parent, grand, source, opts, s) == Fold(TopLevel, n, parent, 0, source, opts, s)
  {
  }

  /** A block that is not a run of simple assignments formats each child in turn. */
  lemma BlockArm(n: Node, parent: Option<Kind>, grand: Option<Kind>,
                 source: string, opts: FormatOptions, s: Layout)
    requires WellFormed(n, |source|) && n.kind == Block && !IsSimpleAssignmentBlock(n.children)
    ensures FormatNode(n, parent, grand, source, opts, s) == Fold(EachChild, n, parent, 0, source, opts, s)
  {
  }

  /** `members` formats each member in turn. */
  lemma MembersArm(n: Node, parent: Option<Kind>, grand: Option<Kind>,
                   source: string, opts: FormatOptions, s: Layout)
    requires WellFormed(n, |source|) && n.kind == Members
    ensures FormatNode(n, parent, grand, source, opts, s) == Fold(EachChild, n, parent, 0, source, opts, s)
  {
  }

  // ------------------------------------------------------------ calls

  lemma CallPartsStep(n: Node, parent: Option<Kind>, i: nat,
                      source: string, opts: FormatOptions, s: Layout)
    requires WellFormed(n, |source|) && i < |n.children|
    ensures Step(CallParts, n, parent, i, source, opts, s) == CallStep(n, parent, i, source, opts, s)
  {
  }

  /** The callee is written as it stands, the argument list normalised. */
  lemma CallStepTexts(n: Node, parent: Option<Kind>, i: nat,
                      source: string, opts: FormatOptions, s: Layout)
    requires WellFormed(n, |source|) && i < |n.children|
    requires n.children[i].kind == MemberExpression || n.children[i].kind == Arguments
    ensures CallStep(n, parent, i, source, opts, s)
         == WriteText(s, if n.children[i].kind == Arguments then FlatArgumentList(NodeText(n.children[i], source))
                         else NodeText(n.children[i], source))
  {
  }

  lemma StandaloneCallStart(n: Node, parent: Option<Kind>, grand: Option<Kind>,
                            source: string, opts: FormatOptions, s: Layout)
    requires WellFormed(n, |source|) && n.kind == CallExpression && IsStandalone(parent, grand)
    ensures FormatNode(n, parent, grand, source, opts, s)
         == WriteNewline(Fold(CallParts, n, parent, 0, source, opts, WriteIndent(s, opts.indentWidth)))
  {
  }

  /** A call whose callee is a member expression and which has an argument list. */
  predicate MemberCall(n: Node) {
    && n.kind == CallExpression && |n.children| == 2
    && n.children[0].kind == MemberExpression && n.children[1].kind == Arguments
  }

  /** What a standalone call writes: the callee as it stands, then the argument list
      normalised. */
  function CallText(n: Node, source: string): string
    requires WellFormed(n, |source|) && |n.children| == 2
  {
    NodeText(n.children[0], source) + FlatArgumentList(NodeText(n.children[1], source))
  }

  /** A standalone call gets a line of its own: the indent, the callee as written, the
      normalised argument list, then a line break. */
  lemma StandaloneCallLine(n: Node, parent: Option<Kind>, grand: Option<Kind>,
                           source: string, opts: FormatOptions, s: Layout)
    requires WellFormed(n, |source|) && MemberCall(n) && IsStandalone(parent, grand)
    ensures FormatNode(n, parent, grand, source, opts, s)
         == WriteNewline(WriteText(WriteIndent(s, opts.indentWidth), CallText(n, source)))
  {
    var s0 := WriteIndent(s, opts.indentWidth);
    StandaloneCallStart(n, parent, grand, source, opts, s);
    FoldNext(CallParts, n, parent, 0, source, opts, s0);
    CallPartsStep(n, parent, 0, source, opts, s0);
    CallStepTexts(n, parent, 0, source, opts, s0);
    var s1 := WriteText(s0, NodeText(n.children[0], source));
    FoldNext(CallParts, n, parent, 1, source, opts, s1);
    CallPartsStep(n, parent, 1, source, opts, s1);
    CallStepTexts(n, parent, 1, source, opts, s1);
    var s2 := WriteText(s1, FlatArgumentList(NodeText(n.children[1], source)));
    FoldDone(CallParts, n, parent, source, opts, s2);
    WriteTextTwice(s0, NodeText(n.children[0], source), FlatArgumentList(NodeText(n.children[1], source)));
  }

  /** A block holding only such a call, inside a construct other than an assignment,
      puts the call on a line of its own. */
  lemma CallBlockLine(n: Node, parent: Option<Kind>, grand: Option<Kind>,
                      source: string, opts: FormatOptions, s: Layout)
    requires WellFormed(n, |source|) && n.kind == Block && |n.children| == 1 && MemberCall(n.children[0])
    requires parent.Some? && parent.value != AssignmentExpression
    ensures FormatNode(n, parent, grand, source, opts, s)
         == FormatNode(n.children[0], Some(Block), parent, source, opts, s)
  {
    BlockArm(n, parent, grand, source, opts, s);
    FoldNext(EachChild, n, parent, 0, source, opts, s);
    EachChildStep(n, parent, 0, source, opts, s);
    FoldDone(EachChild, n, parent, source, opts, FormatNode(n.children[0], Some(Block), parent, source, opts, s));
  }

  // ------------------------------------------------------------ if statements

  lemma IfArm(n: Node, parent: Option<Kind>, grand: Option<Kind>,
              source: string, opts: FormatOptions, s: Layout)
    requires WellFormed(n, |source|) && n.kind == IfStatement
    ensures FormatNode(n, parent, grand, source, opts, s)
         == Fold(IfParts, n, parent, 0, source, opts, WriteIndent(s, opts.indentWidth))
  {
  }

  lemma IfPartsStep(n: Node, parent: Option<Kind>, i: nat,
                    source: string, opts: FormatOptions, s: Layout)
    requires WellFormed(n, |source|) && i < |n.children|
    ensures Step(IfParts, n, parent, i, source, opts, s) == IfStep(n, parent, i, source, opts, s)
  {
  }

  lemma IfBlockPartsStep(n: Node, parent: Option<Kind>, i: nat,
                         source: string, opts: FormatOptions, s: Layout)
    requires WellFormed(n, |source|) && i < |n.children|
    ensures Step(IfBlockParts, n, parent, i, source, opts, s) == IfBlockToken(n.children[i], source, s)
  {
  }

  lemma ThenBlockPartsStep(n: Node, parent: Option<Kind>, i: nat,
                           source: string, opts: FormatOptions, s: Layout)
    requires WellFormed(n, |source|) && i < |n.children|
    ensures Step(ThenBlockParts, n, parent, i, source, opts, s) == ThenStep(n, parent, i, source, opts, s)
  {
  }

  /** `if_block` children `if` and a condition block: `if `, the condition, a space. */
  predicate IfBlockShape(n: Node) {
    n.kind == IfBlock && |n.children| == 2 && n.children[0].kind == IfKw && n.children[1].kind == Block
  }

  /** `then_block` children `then` and a body block. */
  predicate ThenBlockShape(n: Node) {
    n.kind == ThenBlock && |n.children| == 2 && n.children[0].kind == ThenKw && n.children[1].kind == Block
  }

  /** An `if_statement` of an `if_block`, a `then_block` and `end`. */
  predicate IfThenShape(n: Node) {
    && n.kind == IfStatement && |n.children| == 3
    && IfBlockShape(n.children[0]) && ThenBlockShape(n.children[1]) && n.children[2].kind == EndKw
  }

  /** The head of an `if`: `if `, the condition as written, one space. */
  lemma IfHeadText(n: Node, parent: Option<Kind>, i: nat,
                   source: string, opts: FormatOptions, s: Layout)
    requires WellFormed(n, |source|) && i < |n.children| && IfBlockShape(n.children[i])
    requires WellFormed(n.children[i], |source|)
    ensures IfStep(n, parent, i, source, opts, s)
         == Spaced(WriteText(s, "if "), NodeText(n.children[i].children[1], source))
  {
    var c := n.children[i];
    assert IfStep(n, parent, i, source, opts, s) == Fold(IfBlockParts, c, Some(n.kind), 0, source, opts, s);
    FoldNext(IfBlockParts, c, Some(n.kind), 0, source, opts, s);
    IfBlockPartsStep(c, Some(n.kind), 0, source, opts, s);
    var s1 := WriteText(s, "if ");
    FoldNext(IfBlockParts, c, Some(n.kind), 1, source, opts, s1);
    IfBlockPartsStep(c, Some(n.kind), 1, source, opts, s1);
    FoldDone(IfBlockParts, c, Some(n.kind), source, opts, Spaced(s1, NodeText(c.children[1], source)));
  }

  /** The `then` part: `then` ends the line, and the body goes one level deeper. */
  lemma ThenPart(n: Node, parent: Option<Kind>, i: nat,
                 source: string, opts: FormatOptions, s: Layout)
    requires WellFormed(n, |source|) && i < |n.children| && ThenBlockShape(n.children[i])
    requires WellFormed(n.children[i], |source|)
    ensures IfStep(n, parent, i, source, opts, s)
         == DecreaseIndent(FormatNode(n.children[i].children[1], Some(ThenBlock), Some(n.kind), source, opts,
                                      IncreaseIndent(WriteNewline(WriteText(s, "then")))))
  {
    var c := n.children[i];
    assert IfStep(n, parent, i, source, opts, s) == Fold(ThenBlockParts, c, Some(n.kind), 0, source, opts, s);
    FoldNext(ThenBlockParts, c, Some(n.kind), 0, source, opts, s);
    ThenBlockPartsStep(c, Some(n.kind), 0, source, opts, s);
    var s1 := WriteNewline(WriteText(s, "then"));
    FoldNext(ThenBlockParts, c, Some(n.kind), 1, source, opts, s1);
    ThenBlockPartsStep(c, Some(n.kind), 1, source, opts, s1);
    var s2 := DecreaseIndent(FormatNode(c.children[1], Some(ThenBlock), Some(n.kind), source, opts, IncreaseIndent(s1)));
    FoldDone(ThenBlockParts, c, Some(n.kind), source, opts, s2);
  }

  /** The closing `end` on a line of its own. */
  lemma EndPart(n: Node, parent: Option<Kind>, i: nat,
                source: string, opts: FormatOptions, s: Layout)
    requires WellFormed(n, |source|) && i < |n.children| && n.children[i].kind == EndKw
    ensures IfStep(n, parent, i, source, opts, s)
         == WriteNewline(WriteText(WriteIndent(s, opts.indentWidth), "end"))
  {
  }

  /** An `if` statement: `if <condition> then` closes its line, the body is formatted
      one level deeper, and `end` sits on a line of its own at the level the body
      leaves. */
  lemma IfThenLayout(n: Node, parent: Option<Kind>, grand: Option<Kind>,
                     source: string, opts: FormatOptions, s: Layout)
    requires WellFormed(n, |source|) && IfThenShape(n)
    requires WellFormed(n.children[0], |source|) && WellFormed(n.children[1], |source|)
    ensures var w := opts.indentWidth;
      var head := Spaced(WriteText(WriteIndent(s, w), "if "), NodeText(n.children[0].children[1], source));
      var body := DecreaseIndent(FormatNode(n.children[1].children[1], Some(ThenBlock), Some(IfStatement), source, opts,
                                            IncreaseIndent(WriteNewline(WriteText(head, "then")))));
      FormatNode(n, parent, grand, source, opts, s) == WriteNewline(WriteText(WriteIndent(body, w), "end"))
  {
    var w := opts.indentWidth;
    var s0 := WriteIndent(s, w);
    IfArm(n, parent, grand, source, opts, s);
    FoldNext(IfParts, n, parent, 0, source, opts, s0);
    IfPartsStep(n, parent, 0, source, opts, s0);
    IfHeadText(n, parent, 0, source, opts, s0);
    var head := Spaced(WriteText(s0, "if "), NodeText(n.children[0].children[1], source));
    FoldNext(IfParts, n, parent, 1, source, opts, head);
    IfPartsStep(n, parent, 1, source, opts, head);
    ThenPart(n, parent, 1, source, opts, head);
    var body := DecreaseIndent(FormatNode(n.children[1].children[1], Some(ThenBlock), Some(IfStatement), source, opts,
                                          IncreaseIndent(WriteNewline(WriteText(head, "then")))));
    FoldNext(IfParts, n, parent, 2, source, opts, body);
    IfPartsStep(n, parent, 2, source, opts, body);
    EndPart(n, parent, 2, source, opts, body);
    FoldDone(IfParts, n, parent, source, opts, WriteNewline(WriteText(WriteIndent(body, w), "end")));
  }

  /** A block holding one call, as the body of a `then`: the call on a line of its own. */
  lemma ThenCallBody(b: Node, source: string, opts: FormatOptions, s: Layout)
    requires WellFormed(b, |source|) && b.kind == Block && |b.children| == 1 && MemberCall(b.children[0])
    requires WellFormed(b.children[0], |source|)
    ensures FormatNode(b, Some(ThenBlock), Some(IfStatement), source, opts, s)
         == WriteNewline(WriteText(WriteIndent(s, opts.indentWidth), CallText(b.children[0], source)))
  {
    CallBlockLine(b, Some(ThenBlock), Some(IfStatement), source, opts, s);
    StandaloneCallLine(b.children[0], Some(Block), Some(ThenBlock), source, opts, s);
  }

  /** An `if <condition> then <call> end` statement whose spans lie in a source of
      length `len`. */
  predicate IfCallShape(stmt: Node, len: nat) {
    && WellFormed(stmt, len) && IfThenShape(stmt)
    && WellFormed(stmt.children[0], len) && WellFormed(stmt.children[1], len)
    && SpanIn(stmt.children[0].children[1], len)
    && var b := stmt.children[1].children[1];
       && WellFormed(b, len) && |b.children| == 1 && MemberCall(b.children[0])
       && WellFormed(b.children[0], len)
  }

  /** Such a statement, started on an empty line: the head at the current indent, the
      call one level deeper, and `end` back at the head's indent. */
  lemma IfCallStatement(stmt: Node, parent: Option<Kind>, grand: Option<Kind>,
                        source: string, opts: FormatOptions, s: Layout)
    requires IfCallShape(stmt, |source|) && !s.lineHasContent
    ensures var w := opts.indentWidth;
      var pad := IndentOf(s.indentLevel, w);
      var r := FormatNode(stmt, parent, grand, source, opts, s);
      && r.output
        == s.output + pad + "if " + NodeText(stmt.children[0].children[1], source) + " " + "then" + "\n"
           + IndentOf(s.indentLevel + 1, w) + CallText(stmt.children[1].children[1].children[0], source) + "\n"
           + pad + "end" + "\n"
      && r.indentLevel == s.indentLevel && !r.lineHasContent
  {
    var w := opts.indentWidth;
    var b := stmt.children[1].children[1];
    var cond := NodeText(stmt.children[0].children[1], source);
    IfThenLayout(stmt, parent, grand, source, opts, s);
    var head := Spaced(WriteText(WriteIndent(s, w), "if "), cond);
    ThenCallBody(b, source, opts, IncreaseIndent(WriteNewline(WriteText(head, "then"))));
    IfCallText(s, w, cond, CallText(b.children[0], source));
  }

  /** The text of the statement above, state by state. */
  lemma IfCallText(s: Layout, w: nat, cond: string, call: string)
    requires !s.lineHasContent
    ensures var pad := IndentOf(s.indentLevel, w);
      var head := Spaced(WriteText(WriteIndent(s, w), "if "), cond);
      var open := IncreaseIndent(WriteNewline(WriteText(head, "then")));
      var body := DecreaseIndent(WriteNewline(WriteText(WriteIndent(open, w), call)));
      var r := WriteNewline(WriteText(WriteIndent(body, w), "end"));
      && r.output
        == s.output + pad + "if " + cond + " " + "then" + "\n" + IndentOf(s.indentLevel + 1, w) + call + "\n"
           + pad + "end" + "\n"
      && r.indentLevel == s.indentLevel && !r.lineHasContent
  {
  }

  /** A source file whose only child is formatted on the fresh state. */
  lemma SingleTopLevel(root: Node, source: string, opts: FormatOptions)
    requires WellFormed(root, |source|) && root.kind == SourceFile && |root.children| == 1
    ensures FormatSource(root, source, opts)
         == FormatNode(root.children[0], Some(SourceFile), None, source, opts, Fresh).output
  {
    var r := FormatNode(root.children[0], Some(SourceFile), None, source, opts, Fresh);
    SourceFileArm(root, None, None, source, opts, Fresh);
    FoldNext(TopLevel, root, None, 0, source, opts, Fresh);
    TopLevelFirst(root, None, source, opts, Fresh);
    FoldDone(TopLevel, root, None, source, opts, r);
  }

  // ------------------------------------------------------------ constructors and actors

  /** A constructor or function runs the constructor loop from the indent. */
  lemma ConstructorArm(n: Node, parent: Option<Kind>, grand: Option<Kind>,
                       source: string, opts: FormatOptions, s: Layout)
    requires WellFormed(n, |source|) && n.kind == Constructor
    ensures FormatNode(n, parent, grand, source, opts, s)
         == Fold(ConstructorParts, n, parent, 0, source, opts, WriteIndent(s, opts.indentWidth))
  {
  }

  /** In the constructor loop every child but the body is a token of the signature. */
  lemma ConstructorTokenFold(n: Node, parent: Option<Kind>, i: nat,
                             source: string, opts: FormatOptions, s: Layout)
    requires WellFormed(n, |source|) && i < |n.children| && n.children[i].kind != Block
    ensures Fold(ConstructorParts, n, parent, i, source, opts, s)
         == Fold(ConstructorParts, n, parent, i + 1, source, opts, ConstructorToken(n.children[i], source, s))
  {
    FoldNext(ConstructorParts, n, parent, i, source, opts, s);
  }

  /** In the constructor loop the body is nested. */
  lemma ConstructorBlockStep(n: Node, parent: Option<Kind>, i: nat,
                             source: string, opts: FormatOptions, s: Layout)
    requires WellFormed(n, |source|) && i < |n.children| && n.children[i].kind == Block
    ensures Step(ConstructorParts, n, parent, i, source, opts, s)
         == Nested(n.children[i], Some(n.kind), parent, source, opts, s)
  {
  }

  /** `new <name><parameters> =>` followed by a block holding one call. */
  predicate ConstructorCallShape(n: Node, len: nat) {
    && WellFormed(n, len) && n.kind == Constructor && |n.children| == 5
    && n.children[0].kind == NewKw && n.children[1].kind == Identifier
    && n.children[2].kind == Parameters && n.children[3].kind == Arrow
    && SpanIn(n.children[0], len) && SpanIn(n.children[1], len) && SpanIn(n.children[2], len)
    && var b := n.children[4];
       && b.kind == Block && WellFormed(b, len) && |b.children| == 1 && MemberCall(b.children[0])
       && WellFormed(b.children[0], len)
  }

  /** The signature such a constructor writes: keyword, one space, name, parameters, ` =>`. */
  function SignatureText(n: Node, source: string): string
    requires WellFormed(n, |source|) && |n.children| >= 3
  {
    NodeText(n.children[0], source) + " " + NodeText(n.children[1], source) + NodeText(n.children[2], source) + " =>"
  }

  /** The four tokens of the signature, written in turn. */
  lemma ConstructorSignature(n: Node, parent: Option<Kind>, source: string, opts: FormatOptions, s: Layout)
    requires ConstructorCallShape(n, |source|)
    ensures Fold(ConstructorParts, n, parent, 0, source, opts, s)
         == Fold(ConstructorParts, n, parent, 4, source, opts, WriteText(s, SignatureText(n, source)))
  {
    var t0, t1, t2 := NodeText(n.children[0], source), NodeText(n.children[1], source), NodeText(n.children[2], source);
    var s1 := Spaced(s, t0);
    var s2 := WriteText(s1, t1);
    var s3 := WriteText(s2, t2);
    var s4 := WriteText(s3, " =>");
    assert ConstructorToken(n.children[0], source, s) == s1;
    assert ConstructorToken(n.children[1], source, s1) == s2;
    assert ConstructorToken(n.children[2], source, s2) == s3;
    assert ConstructorToken(n.children[3], source, s3) == s4;
    ConstructorTokenFold(n, parent, 0, source, opts, s);
    ConstructorTokenFold(n, parent, 1, source, opts, s1);
    ConstructorTokenFold(n, parent, 2, source, opts, s2);
    ConstructorTokenFold(n, parent, 3, source, opts, s3);
    Group6(s.output, t0, " ", t1, t2, " =>");
  }

  /** Such a constructor takes two lines: its signature at the current level, then the
      call one level deeper; the level is given back after the body. */
  lemma ConstructorCallLines(n: Node, parent: Option<Kind>, grand: Option<Kind>,
                             source: string, opts: FormatOptions, s: Layout)
    requires ConstructorCallShape(n, |source|) && parent.Some? && !s.lineHasContent
    ensures var w := opts.indentWidth;
      FormatNode(n, parent, grand, source, opts, s)
        == Layout(s.output + IndentOf(s.indentLevel, w) + SignatureText(n, source) + "\n"
                  + IndentOf(s.indentLevel + 1, w) + CallText(n.children[4].children[0], source) + "\n",
                  s.indentLevel, false)
  {
    var w := opts.indentWidth;
    var b := n.children[4];
    var call := b.children[0];
    var s0 := WriteIndent(s, w);
    var s4 := WriteText(s0, SignatureText(n, source));
    ConstructorArm(n, parent, grand, source, opts, s);
    ConstructorSignature(n, parent, source, opts, s0);
    FoldNext(ConstructorParts, n, parent, 4, source, opts, s4);
    ConstructorBlockStep(n, parent, 4, source, opts, s4);
    var inner := IncreaseIndent(WriteNewline(s4));
    CallBlockLine(b, Some(Constructor), parent, source, opts, inner);
    StandaloneCallLine(call, Some(Block), Some(Constructor), source, opts, inner);
    var s5 := DecreaseIndent(WriteNewline(WriteText(WriteIndent(inner, w), CallText(call, source))));
    FoldDone(ConstructorParts, n, parent, source, opts, s5);
    ConstructorText(s, w, SignatureText(n, source), CallText(call, source));
  }

  /** The text of the constructor above, state by state. */
  lemma ConstructorText(s: Layout, w: nat, signature: string, call: string)
    requires !s.lineHasContent
    ensures var inner := IncreaseIndent(WriteNewline(WriteText(WriteIndent(s, w), signature)));
      DecreaseIndent(WriteNewline(WriteText(WriteIndent(inner, w), call)))
        == Layout(s.output + IndentOf(s.indentLevel, w) + signature + "\n"
                  + IndentOf(s.indentLevel + 1, w) + call + "\n", s.indentLevel, false)
  {
  }

  /** An actor or class runs the definition loop from the indent. */
  lemma DefinitionArm(n: Node, parent: Option<Kind>, grand: Option<Kind>,
                      source: string, opts: FormatOptions, s: Layout)
    requires WellFormed(n, |source|) && (n.kind == ActorDefinition || n.kind == ClassDefinition)
    ensures FormatNode(n, parent, grand, source, opts, s)
         == Fold(DefinitionParts, n, parent, 0, source, opts, WriteIndent(s, opts.indentWidth))
  {
  }

  /** In the definition loop every child but the members is a token of the head line. */
  lemma DefinitionTokenFold(n: Node, parent: Option<Kind>, i: nat,
                            source: string, opts: FormatOptions, s: Layout)
    requires WellFormed(n, |source|) && i < |n.children| && n.children[i].kind != Members
    ensures Fold(DefinitionParts, n, parent, i, source, opts, s)
         == Fold(DefinitionParts, n, parent, i + 1, source, opts, DefinitionToken(n.children[i], source, s))
  {
    FoldNext(DefinitionParts, n, parent, i, source, opts, s);
  }

  /** In the definition loop the members are nested. */
  lemma DefinitionMembersStep(n: Node, parent: Option<Kind>, i: nat,
                              source: string, opts: FormatOptions, s: Layout)
    requires WellFormed(n, |source|) && i < |n.children| && n.children[i].kind == Members
    ensures Step(DefinitionParts, n, parent, i, source, opts, s)
         == Nested(n.children[i], Some(n.kind), parent, source, opts, s)
  {
  }

  /** `actor <name>` with one member, a constructor of the shape above. */
  predicate ActorShape(n: Node, len: nat) {
    ActorHeadShape(n, len) && ConstructorCallShape(n.children[2].children[0], len)
  }

  /** `actor <name>` with one member, whatever that member is. */
  predicate ActorHeadShape(n: Node, len: nat) {
    && WellFormed(n, len) && n.kind == ActorDefinition && |n.children| == 3
    && n.children[0].kind == ActorKw && n.children[1].kind == Identifier
    && SpanIn(n.children[0], len) && SpanIn(n.children[1], len)
    && var m := n.children[2];
       && m.kind == Members && WellFormed(m, len) && |m.children| == 1
  }

  /** The head line such an actor writes: keyword, one space, name. */
  function HeadText(n: Node, source: string): string
    requires WellFormed(n, |source|) && |n.children| >= 2
  {
    NodeText(n.children[0], source) + " " + NodeText(n.children[1], source)
  }

  /** The two tokens of the head, written in turn. */
  lemma ActorHead(n: Node, parent: Option<Kind>, source: string, opts: FormatOptions, s: Layout)
    requires ActorHeadShape(n, |source|)
    ensures Fold(DefinitionParts, n, parent, 0, source, opts, s)
         == Fold(DefinitionParts, n, parent, 2, source, opts, WriteText(s, HeadText(n, source)))
  {
    var t0, t1 := NodeText(n.children[0], source), NodeText(n.children[1], source);
    var s1 := Spaced(s, t0);
    assert DefinitionToken(n.children[0], source, s) == s1;
    assert DefinitionToken(n.children[1], source, s1) == WriteText(s1, t1);
    DefinitionTokenFold(n, parent, 0, source, opts, s);
    DefinitionTokenFold(n, parent, 1, source, opts, s1);
    Group4(s.output, t0, " ", t1);
  }

  /** The `members` of an actor with one member: that member, nested below the head. */
  lemma SingleMemberNested(m: Node, parent: Option<Kind>, source: string, opts: FormatOptions, s: Layout)
    requires WellFormed(m, |source|) && m.kind == Members && |m.children| == 1
    ensures Nested(m, Some(ActorDefinition), parent, source, opts, s)
         == DecreaseIndent(FormatNode(m.children[0], Some(Members), Some(ActorDefinition), source, opts,
                                      IncreaseIndent(WriteNewline(s))))
  {
    var inner := IncreaseIndent(WriteNewline(s));
    var r := FormatNode(m.children[0], Some(Members), Some(ActorDefinition), source, opts, inner);
    MembersArm(m, Some(ActorDefinition), parent, source, opts, inner);
    FoldNext(EachChild, m, Some(ActorDefinition), 0, source, opts, inner);
    EachChildStep(m, Some(ActorDefinition), 0, source, opts, inner);
    FoldDone(EachChild, m, Some(ActorDefinition), source, opts, r);
  }

  /** Such an actor writes its head, then its one member nested below it. */
  lemma ActorHeadThenMember(n: Node, parent: Option<Kind>, grand: Option<Kind>,
                            source: string, opts: FormatOptions, s: Layout)
    requires ActorHeadShape(n, |source|)
    ensures var head := WriteText(WriteIndent(s, opts.indentWidth), HeadText(n, source));
      FormatNode(n, parent, grand, source, opts, s)
        == DecreaseIndent(FormatNode(n.children[2].children[0], Some(Members), Some(ActorDefinition), source, opts,
                                     IncreaseIndent(WriteNewline(head))))
  {
    var m := n.children[2];
    var s0 := WriteIndent(s, opts.indentWidth);
    var s2 := WriteText(s0, HeadText(n, source));
    DefinitionArm(n, parent, grand, source, opts, s);
    ActorHead(n, parent, source, opts, s0);
    FoldNext(DefinitionParts, n, parent, 2, source, opts, s2);
    DefinitionMembersStep(n, parent, 2, source, opts, s2);
    FoldDone(DefinitionParts, n, parent, source, opts, Nested(m, Some(ActorDefinition), parent, source, opts, s2));
    SingleMemberNested(m, parent, source, opts, s2);
  }

  /** Such an actor: `actor <name>` on its own line, the constructor's signature one level
      deeper, and the call in its body two levels deeper. */
  lemma ActorConstructorLines(n: Node, parent: Option<Kind>, grand: Option<Kind>,
                              source: string, opts: FormatOptions, s: Layout)
    requires ActorShape(n, |source|) && !s.lineHasContent
    ensures var w := opts.indentWidth;
      var c := n.children[2].children[0];
      FormatNode(n, parent, grand, source, opts, s)
        == Layout(s.output + IndentOf(s.indentLevel, w) + HeadText(n, source) + "\n"
                  + IndentOf(s.indentLevel + 1, w) + SignatureText(c, source) + "\n"
                  + IndentOf(s.indentLevel + 2, w) + CallText(c.children[4].children[0], source) + "\n",
                  s.indentLevel, false)
  {
    var w := opts.indentWidth;
    var inner := IncreaseIndent(WriteNewline(WriteText(WriteIndent(s, w), HeadText(n, source))));
    var c := n.children[2].children[0];
    var body := FormatNode(c, Some(Members), Some(ActorDefinition), source, opts, inner);
    assert FormatNode(n, parent, grand, source, opts, s) == DecreaseIndent(body) by {
      ActorHeadThenMember(n, parent, grand, source, opts, s);
    }
    var head := HeadText(n, source);
    var call := CallText(c.children[4].children[0], source);
    HeadLine(s, w, head);
    ConstructorCallLines(c, Some(Members), Some(ActorDefinition), source, opts, inner);
    ActorText(FormatNode(n, parent, grand, source, opts, s), body, inner, s, w, head, SignatureText(c, source), call);
  }

  /** The actor's lines put together: the head line, then the constructor's two lines
      formatted one level deeper, after which the level is given back. */
  lemma ActorText(r: Layout, body: Layout, inner: Layout, s: Layout, w: nat,
                  head: string, signature: string, call: string)
    requires inner == Layout(s.output + IndentOf(s.indentLevel, w) + head + "\n", s.indentLevel + 1, false)
    requires body == Layout(inner.output + IndentOf(inner.indentLevel, w) + signature + "\n"
                            + IndentOf(inner.indentLevel + 1, w) + call + "\n", inner.indentLevel, false)
    requires r == DecreaseIndent(body)
    ensures r == Layout(s.output + IndentOf(s.indentLevel, w) + head + "\n"
                        + IndentOf(s.indentLevel + 1, w) + signature + "\n"
                        + IndentOf(s.indentLevel + 2, w) + call + "\n", s.indentLevel, false)
  {
  }

  /** A line of text written from the indent, after which the level goes one deeper. */
  lemma HeadLine(s: Layout, w: nat, text: string)
    requires !s.lineHasContent
    ensures IncreaseIndent(WriteNewline(WriteText(WriteIndent(s, w), text)))
         == Layout(s.output + IndentOf(s.indentLevel, w) + text + "\n", s.indentLevel + 1, false)
  {
  }

  // ------------------------------------------------------------ one-argument calls

  /** A call with a single argument that is already trimmed and has no comma is written
      exactly as it stands. */
  lemma OneArgumentCall(call: Node, source: string, callee: string, arg: string)
    requires WellFormed(call, |source|) && |call.children| == 2
    requires NodeText(call.children[0], source) == callee
    requires NodeText(call.children[1], source) == "(" + arg + ")"
    requires arg != [] && Trimmed(arg) && ',' !in arg
    ensures CallText(call, source) == callee + "(" + arg + ")"
  {
    Arguments.SingleArgument(arg);
  }

  /** No indent at level zero. */
  lemma IndentZero(w: nat)
    ensures IndentOf(0, w) == ""
  {
  }

  /** Level one with the default width is two spaces. */
  lemma IndentOne()
    ensures IndentOf(1, 2) == "  "
  {
  }

  /** Level two with the default width is four spaces. */
  lemma IndentTwo()
    ensures IndentOf(2, 2) == "    "
  {
    assert Spaces(4) == Spaces(3) + " ";
  }

  // ------------------------------------------------------------ conditional_formatting

  /** The input of `conditional_formatting`, one line at a time; the last line has no
      line break. */
  const IfSource := "if true then\n" + "env.out.print(\"yes\")\n" + "end"

  /** `env.out.print("yes")` */
  const IfCall := Node(CallExpression, 13, 33, [Node(MemberExpression, 13, 26, []), Node(Arguments, 26, 33, [])])

  const IfBody := Node(Block, 13, 33, [IfCall])

  const IfHead := Node(IfBlock, 0, 7, [Node(IfKw, 0, 2, []), Node(Block, 3, 7, [Node(Boolean, 3, 7, [])])])

  const IfThen := Node(ThenBlock, 8, 33, [Node(ThenKw, 8, 12, []), IfBody])

  const IfStmt := Node(IfStatement, 0, 37, [IfHead, IfThen, Node(EndKw, 34, 37, [])])

  /** A hand-built tree for the input, of the node kinds the `if` arms read. */
  const IfTree := Node(SourceFile, 0, 37, [IfStmt])

  lemma IfBranchesWellFormed()
    ensures WellFormed(IfHead, 37) && WellFormed(IfThen, 37)
  {
    assert WellFormed(IfCall, 37);
    assert WellFormed(IfBody, 37);
  }

  lemma IfTreeShape()
    ensures |IfSource| == 37 && WellFormed(IfTree, 37) && IfCallShape(IfStmt, 37)
  {
    IfBranchesWellFormed();
    assert WellFormed(IfStmt, 37);
  }

  lemma IfCondText()
    ensures |IfSource| == 37 && IfSource[3..7] == "true"
  {
    SliceLeft("if true then\n", "env.out.print(\"yes\")\n" + "end", 3, 7);
  }

  lemma IfCalleeText()
    ensures |IfSource| == 37 && IfSource[13..26] == "env.out.print"
  {
    SliceRight("if true then\n", "env.out.print(\"yes\")\n" + "end", 0, 13);
    SliceLeft("env.out.print(\"yes\")\n", "end", 0, 13);
  }

  lemma IfArgumentsText()
    ensures |IfSource| == 37 && IfSource[26..33] == "(\"yes\")"
  {
    SliceRight("if true then\n", "env.out.print(\"yes\")\n" + "end", 13, 20);
    SliceLeft("env.out.print(\"yes\")\n", "end", 13, 20);
  }

  lemma IfExampleCall()
    ensures |IfSource| == 37 && WellFormed(IfCall, 37)
    ensures CallText(IfCall, IfSource) == "env.out.print" + "(" + "\"yes\"" + ")"
  {
    IfCalleeText();
    IfArgumentsText();
    assert WellFormed(IfCall, 37);
    OneArgumentCall(IfCall, IfSource, "env.out.print", "\"yes\"");
  }

  /** `conditional_formatting`: the body of the `if` is indented by one level and `end`
      closes the statement on a line of its own, followed by a line break the input did
      not have. */
  lemma ConditionalFormatting()
    ensures WellFormed(IfTree, |IfSource|)
    ensures FormatSource(IfTree, IfSource, DefaultOptions)
         == "if true then\n" + "  env.out.print(\"yes\")\n" + "end\n"
  {
    IfTreeShape();
    IfCondText();
    IfExampleCall();
    SingleTopLevel(IfTree, IfSource, DefaultOptions);
    IfCallStatement(IfStmt, Some(SourceFile), None, IfSource, DefaultOptions, Fresh);
    IndentZero(2);
    IndentOne();
    ConditionalText("env.out.print" + "(" + "\"yes\"" + ")");
  }

  /** The example's lines, piece by piece. */
  lemma ConditionalText(call: string)
    requires call == "env.out.print" + "(" + "\"yes\"" + ")"
    ensures "" + "" + "if " + "true" + " " + "then" + "\n" + "  " + call + "\n" + "" + "end" + "\n"
         == "if true then\n" + "  env.out.print(\"yes\")\n" + "end\n"
  {
    assert "" + "" + "if " + "true" + " " + "then" + "\n" == "if true then\n";
    assert "  " + call + "\n" == "  env.out.print(\"yes\")\n";
    assert "" + "end" + "\n" == "end\n";
  }

  // ------------------------------------------------------------ basic_actor_formatting

  const ActorLine1 := "actor Main\n"
  const ActorLine2 := "new create(env: Env) =>\n"
  const ActorLine3 := "env.out.print(\"Hi\")\n"

  /** The input of `basic_actor_formatting`, one line at a time. */
  const ActorSource := ActorLine1 + ActorLine2 + ActorLine3

  /** `env.out.print("Hi")` */
  const ActorCall := Node(CallExpression, 35, 54, [Node(MemberExpression, 35, 48, []), Node(Arguments, 48, 54, [])])

  const ActorBody := Node(Block, 35, 54, [ActorCall])

  /** `new create(env: Env) =>` and its body. */
  const ActorCtor := Node(Constructor, 11, 54, [Node(NewKw, 11, 14, []), Node(Identifier, 15, 21, []),
                                                Node(Parameters, 21, 31, []), Node(Arrow, 32, 34, []), ActorBody])

  const ActorMembers := Node(Members, 11, 54, [ActorCtor])

  const ActorDef := Node(ActorDefinition, 0, 54, [Node(ActorKw, 0, 5, []), Node(Identifier, 6, 10, []), ActorMembers])

  /** A hand-built tree for the input, of the node kinds the actor arms read. */
  const ActorTree := Node(SourceFile, 0, 55, [ActorDef])

  lemma ActorCallWellFormed()
    ensures WellFormed(ActorCall, 55) && WellFormed(ActorBody, 55)
  {
    assert WellFormed(ActorCall, 55);
  }

  lemma ActorCtorShape()
    ensures WellFormed(ActorCtor, 55) && ConstructorCallShape(ActorCtor, 55)
  {
    ActorCallWellFormed();
    assert WellFormed(ActorCtor, 55);
  }

  lemma ActorTreeShape()
    ensures |ActorSource| == 55 && WellFormed(ActorTree, 55) && ActorShape(ActorDef, 55)
  {
    ActorCtorShape();
    assert WellFormed(ActorMembers, 55);
    assert WellFormed(ActorDef, 55);
  }

  /** A slice of the first line of the input. */
  lemma InFirstLine(i: nat, j: nat)
    requires i <= j <= |ActorLine1|
    ensures ActorSource[i..j] == ActorLine1[i..j]
  {
    SliceLeft(ActorLine1 + ActorLine2, ActorLine3, i, j);
    SliceLeft(ActorLine1, ActorLine2, i, j);
  }

  /** A slice of the second line of the input. */
  lemma InSecondLine(i: nat, j: nat)
    requires i <= j <= |ActorLine2|
    ensures ActorSource[11 + i..11 + j] == ActorLine2[i..j]
  {
    SliceLeft(ActorLine1 + ActorLine2, ActorLine3, 11 + i, 11 + j);
    SliceRight(ActorLine1, ActorLine2, i, j);
  }

  /** A slice of the third line of the input. */
  lemma InThirdLine(i: nat, j: nat)
    requires i <= j <= |ActorLine3|
    ensures ActorSource[35 + i..35 + j] == ActorLine3[i..j]
  {
    SliceRight(ActorLine1 + ActorLine2, ActorLine3, i, j);
  }

  lemma ActorHeadWords()
    ensures |ActorSource| == 55 && ActorSource[0..5] == "actor" && ActorSource[6..10] == "Main"
  {
    InFirstLine(0, 5);
    InFirstLine(6, 10);
  }

  lemma ActorHeadLine()
    ensures |ActorSource| == 55 && WellFormed(ActorDef, 55)
    ensures HeadText(ActorDef, ActorSource) == "actor" + " " + "Main"
  {
    ActorTreeShape();
    ActorHeadWords();
  }

  lemma SignatureWords()
    ensures |ActorSource| == 55
    ensures ActorSource[11..14] == "new" && ActorSource[15..21] == "create" && ActorSource[21..31] == "(env: Env)"
  {
    InSecondLine(0, 3);
    InSecondLine(4, 10);
    InSecondLine(10, 20);
    SignatureSlices();
  }

  lemma SignatureSlices()
    ensures ActorLine2[0..3] == "new" && ActorLine2[4..10] == "create" && ActorLine2[10..20] == "(env: Env)"
  {
    assert ActorLine2[..20] == "new create(env: Env)";
  }

  lemma ActorSignatureLine()
    ensures |ActorSource| == 55 && WellFormed(ActorCtor, 55)
    ensures SignatureText(ActorCtor, ActorSource) == "new" + " " + "create" + "(env: Env)" + " =>"
  {
    ActorCtorShape();
    SignatureWords();
  }

  lemma ActorCallWords()
    ensures |ActorSource| == 55 && ActorSource[35..48] == "env.out.print" && ActorSource[48..54] == "(\"Hi\")"
  {
    InThirdLine(0, 13);
    InThirdLine(13, 19);
  }

  lemma ActorCallLine()
    ensures |ActorSource| == 55 && WellFormed(ActorCall, 55)
    ensures CallText(ActorCall, ActorSource) == "env.out.print" + "(" + "\"Hi\"" + ")"
  {
    ActorCallWellFormed();
    ActorCallWords();
    OneArgumentCall(ActorCall, ActorSource, "env.out.print", "\"Hi\"");
  }

  /** `basic_actor_formatting`: the constructor is indented one level inside the actor
      and its body a further level. */
  lemma BasicActorFormatting()
    ensures WellFormed(ActorTree, |ActorSource|)
    ensures FormatSource(ActorTree, ActorSource, DefaultOptions)
         == "actor Main\n" + "  new create(env: Env) =>\n" + "    env.out.print(\"Hi\")\n"
  {
    ActorTreeShape();
    ActorHeadLine();
    ActorSignatureLine();
    ActorCallLine();
    SingleTopLevel(ActorTree, ActorSource, DefaultOptions);
    ActorConstructorLines(ActorDef, Some(SourceFile), None, ActorSource, DefaultOptions, Fresh);
    IndentZero(2);
    IndentOne();
    IndentTwo();
    BasicActorText("actor" + " " + "Main", "new" + " " + "create" + "(env: Env)" + " =>",
                   "env.out.print" + "(" + "\"Hi\"" + ")");
  }

  /** The example's lines, piece by piece. */
  lemma BasicActorText(head: string, signature: string, call: string)
    requires head == "actor" + " " + "Main"
    requires signature == "new" + " " + "create" + "(env: Env)" + " =>"
    requires call == "env.out.print" + "(" + "\"Hi\"" + ")"
    ensures "" + "" + head + "\n" + "  " + signature + "\n" + "    " + call + "\n"
         == "actor Main\n" + "  new create(env: Env) =>\n" + "    env.out.print(\"Hi\")\n"
  {
    ActorHeadLineText(head);
    SignatureLineText(signature);
    CallLineText(call);
    Group4("" + "" + head + "\n", "  ", signature, "\n");
    Group4("" + "" + head + "\n" + "  " + signature + "\n", "    ", call, "\n");
  }

  lemma ActorHeadLineText(head: string)
    requires head == "actor" + " " + "Main"
    ensures "" + "" + head + "\n" == "actor Main\n"
  {
  }

  lemma SignatureLineText(signature: string)
    requires signature == "new" + " " + "create" + "(env: Env)" + " =>"
    ensures "  " + signature + "\n" == "  new create(env: Env) =>\n"
  {
  }

  lemma CallLineText(call: string)
    requires call == "env.out.print" + "(" + "\"Hi\"" + ")"
    ensures "    " + call + "\n" == "    env.out.print(\"Hi\")\n"
  {
  }

  // ------------------------------------------------------------ sequences

  /** The indent `write_indent` writes at `level` with indent width `width`. */
  function IndentOf(level: nat, width: nat): string {
    Spaces(level * width)
  }

  /** Concatenation regrouped. */
  lemma Group4(a: string, b: string, c: string, d: string)
    ensures a + b + c + d == a + (b + c + d)
  {
  }

  /** Concatenation regrouped. */
  lemma Group6(a: string, b: string, c: string, d: string, e: string, f: string)
    ensures a + b + c + d + e + f == a + (b + c + d + e + f)
  {
  }

  /** A slice inside the left operand of a concatenation. */
  lemma SliceLeft(a: string, b: string, i: nat, j: nat)
    requires i <= j <= |a|
    ensures (a + b)[i..j] == a[i..j]
  {
  }

  /** A slice inside the right operand of a concatenation. */
  lemma SliceRight(a: string, b: string, i: nat, j: nat)
    requires i <= j <= |b|
    ensures (a + b)[|a| + i..|a| + j] == b[i..j]
  {
    assert (a + b)[|a|..] == b;
  }
}
