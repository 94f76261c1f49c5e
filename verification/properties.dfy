/** What `format_node` promises about layout: where blank lines go, which bodies are
    nested one level deeper, when a method body stays on its signature's line, and how
    the `ERROR` readings move the indent level. */
module Properties {
  import opened Strings
  import opened Syntax
  import opened Emit
  import opened Rules
  import opened Render

  /** The blank-line table is consulted only between two top-level children: the first
      child of a `source_file` is formatted on the state as it was handed over. */
  lemma FirstTopLevelChildUnseparated(n: Node, parent: Option<Kind>, source: string,
                                      opts: FormatOptions, s: Layout)
    requires WellFormed(n, |source|) && n.kind == SourceFile && |n.children| > 0
    ensures FormatNode(n, parent, None, source, opts, s)
         == Fold(TopLevel, n, parent, 1, source, opts,
                 FormatNode(n.children[0], Some(SourceFile), parent, source, opts, s))
  {
    assert FormatNode(n, parent, None, source, opts, s) == Fold(TopLevel, n, parent, 0, source, opts, s);
    assert Step(TopLevel, n, parent, 0, source, opts, s)
        == FormatNode(n.children[0], Some(SourceFile), parent, source, opts, s);
  }

  /** Between two top-level children the table decides alone: when it asks for a
      separation, the next child starts after an empty line and never on a line that
      still holds text. */
  lemma TopLevelSeparation(n: Node, parent: Option<Kind>, i: nat, source: string,
                           opts: FormatOptions, s: Layout)
    requires WellFormed(n, |source|) && 0 < i < |n.children|
    ensures var c := n.children[i];
      var sep := WriteBlankLine(s);
      && (NeedsBlankLine(n.children[i - 1].kind, c.kind) ==>
            Step(TopLevel, n, parent, i, source, opts, s)
              == FormatNode(c, Some(n.kind), parent, source, opts, sep)
            && sep.output == s.output + (if s.lineHasContent then "\n\n" else "\n")
            && !sep.lineHasContent)
      && (!NeedsBlankLine(n.children[i - 1].kind, c.kind) ==>
            Step(TopLevel, n, parent, i, source, opts, s)
              == FormatNode(c, Some(n.kind), parent, source, opts, s))
  {
  }

  /** The method loop's iteration is `MethodStep`. */
  lemma MethodPartsStep(n: Node, parent: Option<Kind>, i: nat, source: string,
                        opts: FormatOptions, s: Layout)
    requires WellFormed(n, |source|) && i < |n.children|
    ensures Step(MethodParts, n, parent, i, source, opts, s) == MethodStep(n, parent, i, source, opts, s)
  {
  }

  /** The `block` arm of the method loop when the body fits on the signature's line. */
  lemma MethodBlockInlineStep(n: Node, parent: Option<Kind>, i: nat, source: string,
                              opts: FormatOptions, s: Layout)
    requires WellFormed(n, |source|) && i < |n.children| && n.children[i].kind == Block
    requires InlineBody(NodeText(n.children[i], source))
    ensures Step(MethodParts, n, parent, i, source, opts, s)
         == WriteText(WriteText(s, " "), Trim(NodeText(n.children[i], source)))
  {
    MethodPartsStep(n, parent, i, source, opts, s);
    assert MethodStep(n, parent, i, source, opts, s) == MethodToken(n.children[i], source, s);
  }

  /** The `block` arm of the method loop when the body does not fit. */
  lemma MethodBlockNestedStep(n: Node, parent: Option<Kind>, i: nat, source: string,
                              opts: FormatOptions, s: Layout)
    requires WellFormed(n, |source|) && i < |n.children| && n.children[i].kind == Block
    requires !InlineBody(NodeText(n.children[i], source))
    ensures Step(MethodParts, n, parent, i, source, opts, s)
         == Nested(n.children[i], Some(n.kind), parent, source, opts, s)
  {
    MethodPartsStep(n, parent, i, source, opts, s);
  }

  /** A method body whose trimmed text is one line of fewer than 50 bytes stays on the
      signature's line: one space, then that text, and no line break. */
  lemma MethodBodyInline(n: Node, parent: Option<Kind>, i: nat, source: string,
                         opts: FormatOptions, s: Layout)
    requires WellFormed(n, |source|) && i < |n.children|
    requires n.children[i].kind == Block && InlineBody(NodeText(n.children[i], source))
    ensures var r := Step(MethodParts, n, parent, i, source, opts, s);
      var body := Trim(NodeText(n.children[i], source));
      && r.output == s.output + " " + body
      && '\n' !in r.output[|s.output|..]
      && Utf8Len(body) < 50
      && r.lineHasContent && r.indentLevel == s.indentLevel
  {
    var body := Trim(NodeText(n.children[i], source));
    assert '\n' !in body && Utf8Len(body) < 50;
    MethodBlockInlineStep(n, parent, i, source, opts, s);
    SpacedLine(s, body);
  }

  /** One space and a text without line breaks, appended to the current line. */
  lemma SpacedLine(s: Layout, body: string)
    requires '\n' !in body
    ensures var r := WriteText(WriteText(s, " "), body);
      && r.output == s.output + " " + body
      && '\n' !in r.output[|s.output|..]
      && r.lineHasContent && r.indentLevel == s.indentLevel
  {
    var r := WriteText(WriteText(s, " "), body);
    assert r.output[|s.output|..] == " " + body;
  }

  /** The state a nested body is formatted on: a fresh line, one level deeper. */
  function BodyStart(s: Layout): (r: Layout)
    ensures r.indentLevel == s.indentLevel + 1 && !r.lineHasContent
    ensures r.output == s.output + "\n"
  {
    IncreaseIndent(WriteNewline(s))
  }

  /** A nested body starts a new line, is formatted one level deeper, and a body without
      `ERROR` nodes gives the level back. */
  lemma NestedBody(c: Node, parent: Option<Kind>, grand: Option<Kind>, source: string,
                   opts: FormatOptions, s: Layout)
    requires WellFormed(c, |source|)
    ensures var r := Nested(c, parent, grand, source, opts, s);
      && r == DecreaseIndent(FormatNode(c, parent, grand, source, opts, BodyStart(s)))
      && |r.output| > |s.output| && r.output[|s.output|] == '\n'
      && (NoError(c) ==> r.indentLevel == s.indentLevel)
  {
    var inner := FormatNode(c, parent, grand, source, opts, BodyStart(s));
    assert (s.output + "\n")[|s.output|] == '\n';
    assert inner.output[|s.output|] == '\n';
  }

  /** A method body that does not fit on the signature's line is formatted on a fresh
      line one level deeper, and the level is restored after it. */
  lemma MethodBodyNested(n: Node, parent: Option<Kind>, i: nat, source: string,
                         opts: FormatOptions, s: Layout)
    requires WellFormed(n, |source|) && i < |n.children|
    requires n.children[i].kind == Block && !InlineBody(NodeText(n.children[i], source))
    ensures var c := n.children[i];
      var r := Step(MethodParts, n, parent, i, source, opts, s);
      && r == DecreaseIndent(FormatNode(c, Some(n.kind), parent, source, opts, BodyStart(s)))
      && |r.output| > |s.output| && r.output[|s.output|] == '\n'
      && (NoError(c) ==> r.indentLevel == s.indentLevel)
  {
    MethodBlockNestedStep(n, parent, i, source, opts, s);
    NestedBody(n.children[i], Some(n.kind), parent, source, opts, s);
  }

  /** A constructor or function body is always nested, however short it is. */
  lemma ConstructorBodyNested(n: Node, parent: Option<Kind>, i: nat, source: string,
                              opts: FormatOptions, s: Layout)
    requires WellFormed(n, |source|) && i < |n.children| && n.children[i].kind == Block
    ensures var c := n.children[i];
      var r := Step(ConstructorParts, n, parent, i, source, opts, s);
      && r == DecreaseIndent(FormatNode(c, Some(n.kind), parent, source, opts, BodyStart(s)))
      && |r.output| > |s.output| && r.output[|s.output|] == '\n'
      && (NoError(c) ==> r.indentLevel == s.indentLevel)
  {
    assert Step(ConstructorParts, n, parent, i, source, opts, s)
        == Nested(n.children[i], Some(n.kind), parent, source, opts, s);
    NestedBody(n.children[i], Some(n.kind), parent, source, opts, s);
  }

  /** In a `then_block`, `then` ends its line, and the body is formatted one level
      deeper from the start of the next line; a body without `ERROR` nodes gives the
      level back. Other children write nothing. */
  lemma ThenBodyNested(n: Node, parent: Option<Kind>, i: nat, source: string,
                       opts: FormatOptions, s: Layout)
    requires WellFormed(n, |source|) && i < |n.children|
    ensures var c := n.children[i];
      var r := Step(ThenBlockParts, n, parent, i, source, opts, s);
      && (c.kind == ThenKw ==>
            r.output == s.output + "then\n" && !r.lineHasContent && r.indentLevel == s.indentLevel)
      && (c.kind == Block ==>
            r == DecreaseIndent(FormatNode(c, Some(n.kind), parent, source, opts, IncreaseIndent(s)))
            && (NoError(c) ==> r.indentLevel == s.indentLevel))
      && (c.kind != ThenKw && c.kind != Block ==> r == s)
  {
    assert Step(ThenBlockParts, n, parent, i, source, opts, s) == ThenStep(n, parent, i, source, opts, s);
    assert s.output + "then" + "\n" == s.output + "then\n";
  }

  /** The `members` of an actor, class or trait are nested the same way. */
  lemma MembersNested(n: Node, parent: Option<Kind>, i: nat, source: string,
                      opts: FormatOptions, s: Layout)
    requires WellFormed(n, |source|) && i < |n.children| && n.children[i].kind == Members
    ensures var c := n.children[i];
      var r := Step(DefinitionParts, n, parent, i, source, opts, s);
      && r == Step(TraitParts, n, parent, i, source, opts, s)
      && r == DecreaseIndent(FormatNode(c, Some(n.kind), parent, source, opts, BodyStart(s)))
      && |r.output| > |s.output| && r.output[|s.output|] == '\n'
      && (NoError(c) ==> r.indentLevel == s.indentLevel)
  {
    assert Step(DefinitionParts, n, parent, i, source, opts, s)
        == Nested(n.children[i], Some(n.kind), parent, source, opts, s);
    assert Step(TraitParts, n, parent, i, source, opts, s)
        == Nested(n.children[i], Some(n.kind), parent, source, opts, s);
    NestedBody(n.children[i], Some(n.kind), parent, source, opts, s);
  }

  /** An `ERROR` node read as the head of an `if` followed by one read as its `end`
      brings the indent level back to where it was. */
  lemma ErrorIfThenEndBalance(head: string, tail: string, width: nat, s: Layout)
    requires ClassifyError(head).IfHead? && ClassifyError(tail).EndTail?
    ensures FormatError(tail, width, FormatError(head, width, s)).indentLevel == s.indentLevel
  {
  }

  /** An `if` head whose `end` is missing: the condition line, then the body one level
      deeper, and no `end` is made up. */
  lemma ErrorIfWithoutEnd(text: string)
    requires text == "if cond then\nbody"
    ensures FormatError(text, 2, Fresh).output == "if cond then\n  body"
    ensures FormatError(text, 2, Fresh).indentLevel == 1
  {
    IfCondThenBody(text);
    var r := ErrorIfHead("if cond", "body", 2, Fresh);
    assert FormatError(text, 2, Fresh) == r;
    assert Indentation(Fresh, 2) == "" && Spaces(1 * 2) == "  ";
    IfHeadLines(r.output, "if cond", "body");
  }

  lemma IfHeadLines(out: string, condition: string, body: string)
    requires condition == "if cond" && body == "body"
    requires out == "" + "" + condition + " then\n" + ("  " + body)
    ensures out == "if cond then\n  body"
  {
  }

  /** How `if cond then\nbody` is read: condition `if cond`, body `body`. */
  lemma IfCondThenBody(text: string)
    requires text == "if cond then\nbody"
    ensures ClassifyError(text) == IfHead("if cond", "body")
  {
    ThenAtEight(text);
    TrimCondition(text[..8]);
    TrimBody(text[12..]);
  }

  lemma ThenAtEight(text: string)
    requires text == "if cond then\nbody"
    ensures Find(text, "then") == Some(8)
  {
    assert OccursAt(text, "then", 8);
    assert forall j: nat :: j < 8 ==> text[j] != 't';
    forall j: nat | j < 8 ensures !OccursAt(text, "then", j) {
      assert text[j..j + 4][0] == text[j];
    }
  }

  lemma TrimCondition(head: string)
    requires head == "if cond "
    ensures Trim(head) == "if cond"
  {
    assert LeadFrom(head, 0) == 0 && TrailFrom(head, 8) == 7;
  }

  lemma TrimBody(rest: string)
    requires rest == "\nbody"
    ensures Trim(rest) == "body"
  {
    assert LeadFrom(rest, 1) == 1;
    assert LeadFrom(rest, 0) == 1;
    assert TrailFrom(rest, 5) == 5;
  }

  /** The `end` reading always finishes with `end` on a line of its own. */
  lemma EndTailClosesLine(before: string, width: nat, s: Layout)
    ensures EndsWith(ErrorEndTail(before, width, s).output, "end\n")
  {
    var r := ErrorEndTail(before, width, s);
    assert r.output[|r.output| - 4..] == "end\n";
  }

  /** An `end` with no open `if` cannot push the level below zero. */
  lemma ErrorEndAtOutermost(tail: string, width: nat, s: Layout)
    requires ClassifyError(tail).EndTail? && s.indentLevel == 0
    ensures FormatError(tail, width, s).indentLevel == 0
    ensures EndsWith(FormatError(tail, width, s).output, "end\n")
  {
    EndTailClosesLine(ClassifyError(tail).before, width, s);
  }

  /** Text that is neither an `if` head nor an `end` is written on a line of its own,
      indented, exactly as it stands. */
  lemma ErrorVerbatim(text: string, width: nat, s: Layout)
    requires ClassifyError(text).Verbatim? && !s.lineHasContent
    ensures FormatError(text, width, s).output
         == s.output + Spaces(s.indentLevel * width) + text + "\n"
    ensures FormatError(text, width, s).indentLevel == s.indentLevel
  {
  }

  /** The `end` reading needs only the last three letters: a call such as `x.append`
      is taken for the close of an `if`, and what precedes the letters is kept. */
  lemma ErrorEndSuffix(text: string)
    requires text == "x.append"
    ensures ClassifyError(text) == EndTail("x.app")
  {
    assert text[0] == 'x';
    assert !StartsWith(text, "if ");
    assert EndsWith(text, "end");
    assert text[..|text| - 3] == "x.app";
    assert !EndsWith("x.app", "end");
    assert TrimEndMatches(text, "end") == "x.app";
    assert Trim(text) != "end" by {
      assert LeadFrom(text, 0) == 0;
      assert TrailFrom(text, |text|) == |text|;
    }
    var p := "x.app";
    assert LeadFrom(p, 0) == 0;
    assert TrailFrom(p, |p|) == |p|;
  }

  // ---------------------------------------------------------------- simple assignments

  /** What one child of a block of simple assignments adds to its line. */
  function Piece(c: Node, seen: bool, source: string): string
    requires SpanIn(c, |source|)
  {
    if c.kind.AssignmentExpression? then (if seen then " " else "") + NodeText(c, source)
    else if c.kind.Semicolon? then ";"
    else ""
  }

  /** The line a block of simple assignments becomes: each assignment's text, one space
      before every assignment that follows another, each `;` attached as it is.
      `seen` says whether an assignment came earlier. */
  function RunText(cs: seq<Node>, seen: bool, source: string): string
    requires forall k :: 0 <= k < |cs| ==> SpanIn(cs[k], |source|)
  {
    if |cs| == 0 then ""
    else Piece(cs[0], seen, source) + RunText(cs[1..], seen || cs[0].kind.AssignmentExpression?, source)
  }

  /** The simple-assignment loop from child `i` on appends exactly `RunText` of the
      remaining children and keeps the level. */
  lemma AssignmentRunWrites(n: Node, parent: Option<Kind>, i: nat, source: string,
                            opts: FormatOptions, s: Layout)
    requires WellFormed(n, |source|) && i <= |n.children|
    ensures var r := Fold(AssignmentRun, n, parent, i, source, opts, s);
      && r.output == s.output + RunText(n.children[i..], !NoAssignmentBefore(n.children, i), source)
      && r.indentLevel == s.indentLevel
  {
    AssignmentRunIsTokens(n, parent, i, source, opts, s);
    TokensWrite(n.children, i, source, s);
  }

  /** The simple-assignment loop, apart from the rest of `format_node`: the tokens of
      children `i..` written one after another. */
  function Tokens(cs: seq<Node>, i: nat, source: string, s: Layout): Layout
    requires i <= |cs| && forall k :: 0 <= k < |cs| ==> SpanIn(cs[k], |source|)
    decreases |cs| - i
  {
    if i == |cs| then s else Tokens(cs, i + 1, source, AssignmentRunToken(cs, i, source, s))
  }

  lemma {:induction false} AssignmentRunIsTokens(n: Node, parent: Option<Kind>, i: nat, source: string,
                                                 opts: FormatOptions, s: Layout)
    requires WellFormed(n, |source|) && i <= |n.children|
    ensures Fold(AssignmentRun, n, parent, i, source, opts, s) == Tokens(n.children, i, source, s)
    decreases |n.children| - i
  {
    if i < |n.children| {
      var tok := AssignmentRunToken(n.children, i, source, s);
      assert Step(AssignmentRun, n, parent, i, source, opts, s) == tok;
      AssignmentRunIsTokens(n, parent, i + 1, source, opts, tok);
    }
  }

  lemma {:induction false} TokensWrite(cs: seq<Node>, i: nat, source: string, s: Layout)
    requires i <= |cs| && forall k :: 0 <= k < |cs| ==> SpanIn(cs[k], |source|)
    ensures var r := Tokens(cs, i, source, s);
      && r.output == s.output + RunText(cs[i..], !NoAssignmentBefore(cs, i), source)
      && r.indentLevel == s.indentLevel
    decreases |cs| - i
  {
    if i == |cs| {
      assert s.output + "" == s.output;
    } else {
      var seen := !NoAssignmentBefore(cs, i);
      var t := AssignmentRunToken(cs, i, source, s);
      var piece := Piece(cs[i], seen, source);
      var tail := RunText(cs[i + 1..], seen || cs[i].kind.AssignmentExpression?, source);
      var r := Tokens(cs, i + 1, source, t);
      assert Tokens(cs, i, source, s) == r;
      assert t.output == s.output + piece && t.indentLevel == s.indentLevel
          && !NoAssignmentBefore(cs, i + 1) == (seen || cs[i].kind.AssignmentExpression?) by {
        AssignmentRunPiece(cs, i, source, s);
      }
      assert r.output == t.output + tail && r.indentLevel == t.indentLevel by {
        TokensWrite(cs, i + 1, source, t);
      }
      assert RunText(cs[i..], seen, source) == piece + tail by {
        assert cs[i..][0] == cs[i] && cs[i..][1..] == cs[i + 1..];
      }
      AppendTwice(s.output, piece, tail, t.output, r.output);
    }
  }

  lemma AppendTwice(a: string, b: string, c: string, ab: string, abc: string)
    requires ab == a + b && abc == ab + c
    ensures abc == a + (b + c)
  {
  }

  /** One child of the simple-assignment loop appends its `Piece`. */
  lemma AssignmentRunPiece(cs: seq<Node>, i: nat, source: string, s: Layout)
    requires i < |cs| && SpanIn(cs[i], |source|)
    ensures AssignmentRunToken(cs, i, source, s).output == s.output + Piece(cs[i], !NoAssignmentBefore(cs, i), source)
    ensures !NoAssignmentBefore(cs, i + 1) == (!NoAssignmentBefore(cs, i) || cs[i].kind.AssignmentExpression?)
  {
    if cs[i].kind.AssignmentExpression? && !NoAssignmentBefore(cs, i) {
      assert s.output + " " + NodeText(cs[i], source) == s.output + (" " + NodeText(cs[i], source));
    } else if !cs[i].kind.AssignmentExpression? && !cs[i].kind.Semicolon? {
      assert s.output + "" == s.output;
    }
  }

  /** When no assignment's text holds a line break, neither does the line they make. */
  lemma {:induction false} RunTextOneLine(cs: seq<Node>, seen: bool, source: string)
    requires forall k :: 0 <= k < |cs| ==> SpanIn(cs[k], |source|)
    requires forall k :: 0 <= k < |cs| && cs[k].kind == AssignmentExpression ==> '\n' !in NodeText(cs[k], source)
    ensures '\n' !in RunText(cs, seen, source)
  {
    if |cs| > 0 {
      RunTextOneLine(cs[1..], seen || cs[0].kind.AssignmentExpression?, source);
      assert '\n' !in Piece(cs[0], seen, source);
    }
  }

  /** A block of more than two children, all assignments or `;`, becomes one indented
      line: the assignments separated by one space, each `;` attached, then a single
      line break; the level is kept. */
  lemma SimpleAssignmentBlockLine(n: Node, parent: Option<Kind>, grand: Option<Kind>, source: string,
                                  opts: FormatOptions, s: Layout)
    requires WellFormed(n, |source|) && n.kind == Block && IsSimpleAssignmentBlock(n.children)
    requires forall k :: 0 <= k < |n.children| ==> SpanIn(n.children[k], |source|)
    ensures var r := FormatNode(n, parent, grand, source, opts, s);
      var line := RunText(n.children, false, source);
      && r.output == s.output + Indentation(s, opts.indentWidth) + line + "\n"
      && r.indentLevel == s.indentLevel && !r.lineHasContent
      && ((forall k :: 0 <= k < |n.children| && n.children[k].kind == AssignmentExpression
             ==> '\n' !in NodeText(n.children[k], source))
          ==> '\n' !in line)
  {
    var w := opts.indentWidth;
    var s0 := WriteIndent(s, w);
    IndentationWritten(s, w);
    assert FormatNode(n, parent, grand, source, opts, s)
        == WriteNewline(Fold(AssignmentRun, n, parent, 0, source, opts, s0));
    AssignmentRunWrites(n, parent, 0, source, opts, s0);
    assert n.children[0..] == n.children;
    if forall k :: 0 <= k < |n.children| && n.children[k].kind == AssignmentExpression
         ==> '\n' !in NodeText(n.children[k], source) {
      RunTextOneLine(n.children, false, source);
    }
  }

  // ---------------------------------------------------------------- ends of lines

  /** A child loop ends with the iteration on the last child. */
  lemma {:induction false} FoldEndsWithLast(loop: Loop, n: Node, parent: Option<Kind>, i: nat,
                                            source: string, opts: FormatOptions, s: Layout)
    returns (x: Layout)
    requires WellFormed(n, |source|) && i < |n.children|
    ensures Fold(loop, n, parent, i, source, opts, s) == Step(loop, n, parent, |n.children| - 1, source, opts, x)
    decreases |n.children| - i
  {
    var t := Step(loop, n, parent, i, source, opts, s);
    if i == |n.children| - 1 {
      x := s;
      assert Fold(loop, n, parent, i, source, opts, s) == t by {
        FoldNext(loop, n, parent, i, source, opts, s);
        FoldDone(loop, n, parent, source, opts, t);
      }
    } else {
      x := FoldEndsWithLast(loop, n, parent, i + 1, source, opts, t);
      assert Fold(loop, n, parent, i, source, opts, s) == Fold(loop, n, parent, i + 1, source, opts, t) by {
        FoldNext(loop, n, parent, i, source, opts, s);
      }
    }
  }

  /** A standalone call and an assignment each end their line. */
  lemma StatementEndsLine(d: Node, grand: Option<Kind>, source: string, opts: FormatOptions, y: Layout)
    requires WellFormed(d, |source|)
    requires d.kind == AssignmentExpression
          || (d.kind == CallExpression && grand.Some? && grand.value != AssignmentExpression)
    ensures var r := FormatNode(d, Some(Block), grand, source, opts, y);
      EndsWith(r.output, "\n") && !r.lineHasContent
  {
    var r := FormatNode(d, Some(Block), grand, source, opts, y);
    assert r.output[|r.output| - 1..] == "\n";
  }

  /** A block that is not a run of simple assignments ends the way its last child does. */
  lemma BlockEndsWithLast(c: Node, parent: Option<Kind>, grand: Option<Kind>, source: string,
                          opts: FormatOptions, b: Layout) returns (y: Layout)
    requires WellFormed(c, |source|) && c.kind == Block && |c.children| > 0
    requires !IsSimpleAssignmentBlock(c.children)
    ensures FormatNode(c, parent, grand, source, opts, b)
         == FormatNode(c.children[|c.children| - 1], Some(Block), parent, source, opts, y)
  {
    assert FormatNode(c, parent, grand, source, opts, b) == Fold(EachChild, c, parent, 0, source, opts, b);
    y := FoldEndsWithLast(EachChild, c, parent, 0, source, opts, b);
  }

  /** A block ends its line when it is a run of simple assignments, or when its last
      statement is an assignment or a call that is not an assignment's value. */
  lemma BlockEndsLine(c: Node, parent: Option<Kind>, grand: Option<Kind>, source: string,
                      opts: FormatOptions, b: Layout)
    requires WellFormed(c, |source|) && c.kind == Block && |c.children| > 0
    requires var d := c.children[|c.children| - 1];
      || IsSimpleAssignmentBlock(c.children)
      || d.kind == AssignmentExpression
      || (d.kind == CallExpression && parent.Some? && parent.value != AssignmentExpression)
    ensures var r := FormatNode(c, parent, grand, source, opts, b);
      EndsWith(r.output, "\n") && !r.lineHasContent
  {
    if IsSimpleAssignmentBlock(c.children) {
      assert forall k :: 0 <= k < |c.children| ==> SpanIn(c.children[k], |source|);
      SimpleAssignmentBlockLine(c, parent, grand, source, opts, b);
      var r := FormatNode(c, parent, grand, source, opts, b);
      assert r.output[|r.output| - 1..] == "\n";
    } else {
      var y := BlockEndsWithLast(c, parent, grand, source, opts, b);
      StatementEndsLine(c.children[|c.children| - 1], parent, source, opts, y);
    }
  }

  /** A method's output is its child loop's, then the line break that closes it. */
  lemma MethodLine(n: Node, parent: Option<Kind>, grand: Option<Kind>, source: string,
                   opts: FormatOptions, s: Layout)
    requires WellFormed(n, |source|) && n.kind == Method
    ensures FormatNode(n, parent, grand, source, opts, s)
         == WriteNewline(Fold(MethodParts, n, parent, 0, source, opts, WriteIndent(s, opts.indentWidth)))
  {
  }

  /** A method whose body is nested and ends its line is followed by an empty line:
      the body's last line break and the method's own one come in a row. */
  lemma MethodEndsWithEmptyLine(n: Node, parent: Option<Kind>, grand: Option<Kind>, source: string,
                                opts: FormatOptions, s: Layout)
    requires WellFormed(n, |source|) && n.kind == Method && |n.children| > 0
    requires var c := n.children[|n.children| - 1];
      && c.kind == Block && !InlineBody(NodeText(c, source)) && |c.children| > 0
      && var d := c.children[|c.children| - 1];
      (IsSimpleAssignmentBlock(c.children) || d.kind == AssignmentExpression || d.kind == CallExpression)
    ensures EndsWith(FormatNode(n, parent, grand, source, opts, s).output, "\n\n")
  {
    var c := n.children[|n.children| - 1];
    var s0 := WriteIndent(s, opts.indentWidth);
    var f := Fold(MethodParts, n, parent, 0, source, opts, s0);
    var r := FormatNode(n, parent, grand, source, opts, s);
    assert r.output == f.output + "\n" by {
      MethodLine(n, parent, grand, source, opts, s);
    }
    var x := FoldEndsWithLast(MethodParts, n, parent, 0, source, opts, s0);
    var b := FormatNode(c, Some(Method), parent, source, opts, BodyStart(x));
    assert f.output == b.output by {
      MethodBlockNestedStep(n, parent, |n.children| - 1, source, opts, x);
    }
    assert EndsWith(b.output, "\n") by {
      BlockEndsLine(c, Some(Method), parent, source, opts, BodyStart(x));
    }
    LineBreakTwice(b.output, r.output);
  }

  lemma LineBreakTwice(a: string, r: string)
    requires EndsWith(a, "\n") && r == a + "\n"
    ensures EndsWith(r, "\n\n")
  {
    assert r[|r| - 2..] == [a[|a| - 1], '\n'];
  }
  // ---------------------------------------------------------------- signature lines

  /** `r` continues the line of `s`: only text without a line break was appended. */
  predicate SameLine(s: Layout, r: Layout) {
    s.output <= r.output && '\n' !in r.output[|s.output|..]
  }

  /** The tokens of a declaration's head never break the line unless the source text
      of the token does. */
  lemma HeadTokensStayOnLine(c: Node, source: string, s: Layout)
    requires SpanIn(c, |source|) && '\n' !in NodeText(c, source)
    ensures SameLine(s, DefinitionToken(c, source, s)) && SameLine(s, TraitToken(c, source, s))
    ensures SameLine(s, PrimitiveToken(c, source, s)) && SameLine(s, TypeAliasToken(c, source, s))
  {
    var text := NodeText(c, source);
    WriteTextTwice(s, text, " ");
    LineContinues(s, text);
    LineContinues(s, text + " ");
    LineContinues(s, " is ");
    UnchangedLine(s);
  }

  /** The tokens of a field, a constructor's signature and an `if` condition never
      break the line unless the source text of the token does. */
  lemma SignatureTokensStayOnLine(c: Node, source: string, s: Layout)
    requires SpanIn(c, |source|) && '\n' !in NodeText(c, source)
    ensures SameLine(s, FieldToken(c, source, s)) && SameLine(s, ConstructorToken(c, source, s))
    ensures SameLine(s, IfBlockToken(c, source, s))
  {
    var text := NodeText(c, source);
    WriteTextTwice(s, text, " ");
    LineContinues(s, text);
    LineContinues(s, text + " ");
    LineContinues(s, ": ");
    LineContinues(s, " = ");
    LineContinues(s, " =>");
    LineContinues(s, "if ");
    UnchangedLine(s);
  }

  /** The tokens of a method's signature, and a body kept on its line, never break the
      line unless the source text of the token does. */
  lemma MethodTokenStaysOnLine(c: Node, source: string, s: Layout)
    requires SpanIn(c, |source|) && '\n' !in NodeText(c, source)
    ensures SameLine(s, MethodToken(c, source, s))
  {
    var text := NodeText(c, source);
    TrimKeepsOut(text, '\n');
    WriteTextTwice(s, text, " ");
    WriteTextTwice(s, " ", Trim(text));
    LineContinues(s, text);
    LineContinues(s, text + " ");
    LineContinues(s, " " + Trim(text));
    LineContinues(s, ": ");
    LineContinues(s, " =>");
    UnchangedLine(s);
  }

  lemma UnchangedLine(s: Layout)
    ensures SameLine(s, s)
  {
    assert s.output[|s.output|..] == "";
  }

  /** Writing a text without a line break continues the line. */
  lemma LineContinues(s: Layout, text: string)
    requires '\n' !in text
    ensures SameLine(s, WriteText(s, text))
  {
  }
}
