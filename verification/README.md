# ponyfmt formatter core in Dafny

ponyfmt formats Pony source code. A tree-sitter parser turns the code into a syntax
tree, and `format_node` walks that tree. Along the way it appends text to a
`FormatterState`, which holds three things:

- the output written so far;
- an indent level;
- a flag saying whether the current line already holds text.

This project models that walk and proves what it promises. Each arm of `format_node` is
covered, as are `format_if_block`, `format_then_block`, the argument-list rewriting of
`format_arguments`, and the six state operations. The promised properties include:

- output is only ever appended to;
- a subtree without `ERROR` nodes gives back the indent level it found;
- between top-level declarations, a blank line is written exactly where the blank-line
  table asks for one (other blank lines arise too: a method whose nested body ends its
  last line is followed by an empty line, because the method writes a line break of its
  own after the body's);
- method bodies stay on their signature's line only when they are one short line;
- constructor bodies are always nested;
- each argument of a call is trimmed, empty ones are dropped and the rest are joined by
  `, ` between parentheses; a line break inside an argument is kept;
- a block of simple assignments is written on one line.

The model has two layers:

- `Render` (render.dfy) is the reference meaning. Each arm is a function from the state
  before to the state after, over the value `Emit.Layout` (layout.dfy). `Fold` runs one of
  the source's child loops, and `Step` is one iteration of it.
- `Formatter` (formatter.dfy) is the program as it runs. `FormatterState` is a class whose
  methods update its fields in place. `FormatNode` and its helpers walk the children with
  `while` loops. Every method is proved to leave exactly the state that the matching
  `Render` function computes.

The other files:

- `Syntax` (syntax.dfy): the already-parsed tree and the node kinds.
- `Rules` (rules.dfy): the decisions that depend only on kinds and text.
- `Strings` (strings.dfy): Rust's `trim`, `split`, `lines().count()` and byte length, written
  out.
- `Arguments` (arguments.dfy): the argument-list properties.
- `Properties` (properties.dfy): layout facts about `format_node`.
- `Scenarios` (scenarios.dfy): the two layouts spelled out in the repository's tests,
  derived step by step on hand-built trees of the node kinds the formatter's arms read.
  That tree-sitter-pony yields exactly these trees is not established here.

## Model

| member | source | states |
|---|---|---|
| Emit.WriteIndent | src/formatter.rs:59-65 | at the start of a line, exactly `indent_level * indent_width` spaces are appended; on a line that already holds text nothing changes; level and flag are kept |
| Emit.WriteText | src/formatter.rs:67-70 | the text is appended unchanged and the line is marked as holding text; the level is kept |
| Emit.WriteNewline | src/formatter.rs:72-75 | exactly one `\n` is appended and the line is marked empty |
| Emit.WriteBlankLine | src/formatter.rs:77-82 | appends `\n\n` after a line with text and `\n` otherwise; the result is always an empty line |
| Emit.IncreaseIndent | src/formatter.rs:84-86 | the level goes up by one; output and flag are untouched |
| Emit.DecreaseIndent | src/formatter.rs:88-92 | the level goes down by one but never below zero; output and flag are untouched |
| Emit.IndentRoundTrip | src/formatter.rs:84-92 | increasing then decreasing the indent gives back the same state |
| Emit.WriteTextTwice | src/formatter.rs:67-70 | two writes in a row equal one write of the concatenated text |
| Formatter.FormatterState.constructor | src/formatter.rs:51-57 | a new state has empty output, level 0 and an empty line |
| Formatter.FormatterState.WriteIndent | src/formatter.rs:59-65 | the loop pushes `indent_level * indent_width` spaces one at a time, only on an empty line; the new state equals `Emit.WriteIndent` of the old one |
| Formatter.FormatterState.WriteText | src/formatter.rs:67-70 | output grows by exactly the text; the line holds text; the new state equals `Emit.WriteText` |
| Formatter.FormatterState.WriteNewline | src/formatter.rs:72-75 | output grows by `\n`; the line is empty; the new state equals `Emit.WriteNewline` |
| Formatter.FormatterState.WriteBlankLine | src/formatter.rs:77-82 | output grows by `\n\n` or `\n` depending on the old flag; the new state equals `Emit.WriteBlankLine` |
| Formatter.FormatterState.IncreaseIndent | src/formatter.rs:84-86 | the level is one higher and nothing else changes |
| Formatter.FormatterState.DecreaseIndent | src/formatter.rs:88-92 | the level is one lower, or stays 0; nothing else changes |
| Formatter.FormatSource | src/formatter.rs:96-104 | a fresh state, the root formatted, and the output returned equal `Render.FormatSource` |
| Formatter.FormatArguments | src/formatter.rs:106-130 | appends `(`, the trimmed non-empty comma-separated pieces of the node text joined by `, `, then `)`; the level is kept |
| Formatter.WriteArgumentList | src/formatter.rs:122-129 | appends the arguments joined by `, ` between parentheses |
| Formatter.WriteJoined | src/formatter.rs:123-128 | the loop writes `, ` before every argument but the first; loop invariant: the output so far is the join of the arguments seen |
| Formatter.FormatNode | src/formatter.rs:132-826 | the imperative walk leaves exactly the state `Render.FormatNode` computes for the node's kind, parent and grandparent |
| Formatter.FormatDefinition | src/formatter.rs:211-381 | the actor, class, trait, primitive, type-definition and type-alias arms equal `Render.FormatDefinition` |
| Formatter.FormatMember | src/formatter.rs:390-596 | the field, field-definition, method, constructor and function arms equal `Render.FormatMember` |
| Formatter.RunLoop | src/formatter.rs:215-252 | a cursor loop over all children in order; invariant: folding the rest of the loop from the current state gives the fold from the start (`Render.Fold`) |
| Formatter.RunStep | src/formatter.rs:219-247 | one pass of an arm's loop body on child `i` equals `Render.Step` |
| Formatter.FormatNested | src/formatter.rs:239-245 | newline, indent up, the child formatted, indent down: equals `Render.Nested` |
| Formatter.MethodStep | src/formatter.rs:504-518 | a block that is not one short line is nested; everything else is a signature token (`Render.MethodStep`) |
| Formatter.IfStatementStep | src/formatter.rs:605-620 | `if_block` and `then_block` go to their loops, and `end` is written on its own indented line (`Render.IfStep`) |
| Formatter.ThenBlockStep | src/formatter.rs:856-867 | `then` ends the line; the body is formatted one level deeper and the level is restored (`Render.ThenStep`) |
| Formatter.CallStep | src/formatter.rs:678-697 | the callee is written as it stands, the arguments via `format_arguments`, and any other child is formatted (`Render.CallStep`) |
| Formatter.AssignmentStep | src/formatter.rs:708-751 | declaration, name, ` = `, a simple value block written as its text, or else each child formatted (`Render.AssignmentStep`) |
| Formatter.FormatError | src/formatter.rs:773-812 | the three readings of an `ERROR` node's text, equal to `Render.FormatError` |
| Formatter.WriteUseTarget | src/formatter.rs:200-207 | the loop stops at the first `string` child and writes it; invariant: no earlier child is a string |
| Formatter.WriteTypeDefinitionParts | src/formatter.rs:320-352 | the two cursor loops of `type_definition`, equal to `Render.TypeDefinitionParts` |
| Formatter.WriteTypeDefinitionName | src/formatter.rs:320-332 | writes the first identifier child, if there is one |
| Formatter.WriteTypeDefinitionUnion | src/formatter.rs:335-352 | writes ` is ` at the first `is`, then the sibling after it if there is one |
| Formatter.WriteDefinitionToken | src/formatter.rs:219-238 | an actor or class token: keyword and capability followed by a space, name and base type as they stand, ` is ` |
| Formatter.WriteTraitToken | src/formatter.rs:255-288 | a trait token, equal to `Render.TraitToken` |
| Formatter.WritePrimitiveToken | src/formatter.rs:290-314 | a primitive token, equal to `Render.PrimitiveToken` |
| Formatter.WriteTypeAliasToken | src/formatter.rs:356-381 | a type-alias token, equal to `Render.TypeAliasToken` |
| Formatter.WriteFieldToken | src/formatter.rs:390-475 | a field token: keyword plus space, `: `, ` = `, anything else as it stands |
| Formatter.WriteMethodToken | src/formatter.rs:484-511 | a method signature token; a block reaching it is written as one space and its trimmed text |
| Formatter.WriteConstructorToken | src/formatter.rs:537-589 | a constructor token: keyword or capability plus space, bare capabilities skipped, name and parameters as they stand, `: `, ` =>`, a return type as it stands |
| Formatter.WriteIfBlockToken | src/formatter.rs:833-843 | `if ` for the keyword; the condition block's text followed by one space |
| Formatter.WriteAssignmentRunToken | src/formatter.rs:641-655 | in a block of simple assignments, a space before every assignment but the first, and `;` as it is |
| Render.FormatNode | src/formatter.rs:132-826 | every arm only appends to the output, and a subtree without `ERROR` nodes leaves the indent level unchanged |
| Render.FormatDefinition | src/formatter.rs:211-381 | the declaration arms only append, and keep the level when error-free |
| Render.FormatMember | src/formatter.rs:390-596 | the member arms only append, and keep the level when error-free |
| Render.Fold | src/formatter.rs:139-186 | a child loop only appends, and keeps the level when error-free |
| Render.Step | src/formatter.rs:143-184 | one iteration only appends, and keeps the level when error-free |
| Render.Nested | src/formatter.rs:239-245 | a nested body only appends, and the level it raised is given back when the body is error-free |
| Render.MethodStep | src/formatter.rs:504-518 | a method child only appends and keeps the level when error-free |
| Render.IfStep | src/formatter.rs:605-620 | an `if` statement child only appends and keeps the level when error-free |
| Render.ThenStep | src/formatter.rs:851-874 | the `then` block's raise and restore of the level balance when the body is error-free |
| Render.CallStep | src/formatter.rs:678-697 | a call child only appends and keeps the level when error-free |
| Render.AssignmentStep | src/formatter.rs:708-751 | an assignment child only appends and keeps the level when error-free |
| Render.FormatError | src/formatter.rs:773-812 | the `if` reading leaves the level one deeper; the `end` reading leaves it one shallower, never below zero; verbatim text leaves it alone |
| Render.ErrorIfHead | src/formatter.rs:778-791 | writes the indentation (on an empty line), the condition, ` then` and a line break; then, when the text after `then` is not blank, the indentation one level deeper and that text; the level ends one deeper; the line holds text exactly when that text is not blank |
| Render.ErrorEndTail | src/formatter.rs:792-806 | writes the text before `end` and a line break when it is not blank, then the indentation of the lowered level (none when nothing was written and the line already holds text), `end` and a line break; the level drops by one, never below zero; the line ends empty |
| Render.FormatSource | src/formatter.rs:96-104 | for an error-free tree the walk ends at indent level 0 |
| Render.UseTarget | src/formatter.rs:200-207 | only appends and keeps the level |
| Render.TypeDefinitionParts | src/formatter.rs:316-354 | only appends and keeps the level |
| Render.TypeDefinitionName | src/formatter.rs:320-332 | the first identifier's text, if any: only appends and keeps the level |
| Render.TypeDefinitionUnion | src/formatter.rs:335-352 | ` is ` and the sibling after the first `is`, if any: only appends and keeps the level |
| Render.IfBlockToken | src/formatter.rs:833-843 | a child of an `if_block` only appends and keeps the level (no line break: `Properties.SignatureTokensStayOnLine`) |
| Render.AssignmentRunToken | src/formatter.rs:641-655 | a child of a simple-assignment block only appends and keeps the level (what the whole run writes: `Properties.AssignmentRunWrites`) |
| Render.DefinitionToken | src/formatter.rs:219-238 | an actor or class head token only appends and keeps the level (no line break: `Properties.HeadTokensStayOnLine`) |
| Render.TraitToken | src/formatter.rs:255-288 | a trait head token only appends and keeps the level (no line break: `Properties.HeadTokensStayOnLine`) |
| Render.PrimitiveToken | src/formatter.rs:290-314 | a primitive token only appends and keeps the level (no line break: `Properties.HeadTokensStayOnLine`) |
| Render.TypeAliasToken | src/formatter.rs:356-381 | a type-alias token only appends and keeps the level (no line break: `Properties.HeadTokensStayOnLine`) |
| Render.FieldToken | src/formatter.rs:390-475 | a field token only appends and keeps the level (no line break: `Properties.SignatureTokensStayOnLine`) |
| Render.MethodToken | src/formatter.rs:484-511 | a method signature token only appends and keeps the level (no line break: `Properties.MethodTokenStaysOnLine`) |
| Render.ConstructorToken | src/formatter.rs:537-589 | a constructor token only appends and keeps the level (no line break: `Properties.SignatureTokensStayOnLine`) |
| Rules.NeedsBlankLine | src/formatter.rs:143-181 | a blank line is due exactly in these cases: after a class; after a primitive or trait unless the next is the same kind; after a type alias or `use` unless the next is the same kind or a line comment; after a block comment unless the next is a comment |
| Rules.InlineBody | src/formatter.rs:504-508 | a method body stays on its line exactly when its trimmed text is non-empty, has no line break and is under 50 bytes in UTF-8 |
| Rules.TrimNonEmpty | src/formatter.rs:115-119 | every piece kept is non-empty, trimmed and comma-free, and there are no more of them than pieces |
| Rules.IsSimpleAssignmentBlock | src/formatter.rs:630-637 | defines the one-line case: more than two children, every one an `assignment_expression` or `;` |
| Rules.NoAssignmentBefore | src/formatter.rs:640-649 | defines the `first` flag: no assignment among the children before `i` |
| Rules.IsStandalone | src/formatter.rs:666-671 | defines a call with a line of its own: at the root, or directly in a block whose parent is not an `assignment_expression` |
| Rules.ArgumentPieces | src/formatter.rs:108-116 | defines the pieces: one `(` and one `)` stripped, then split on `,` |
| Rules.FlatArgumentList | src/formatter.rs:106-130 | defines the written list: the arguments joined by `, ` in parentheses (its meaning: the `Arguments` lemmas) |
| Rules.SplitArguments | src/formatter.rs:108-119 | the arguments extracted from an argument list are non-empty, trimmed and comma-free |
| Rules.ClassifyError | src/formatter.rs:778-811 | the `if` reading applies exactly when the text starts with `if ` and contains `then`; otherwise the `end` reading applies exactly when the trimmed text is `end` or the text ends in `end`; the parts kept are trimmed |
| Rules.IfHeadSplitsAtFirstThen | src/formatter.rs:778-791 | the `if` reading splits at the first occurrence of `then`: condition before it, body after it, both trimmed |
| Syntax.NodeText | src/formatter.rs:876-880 | the text of a node has exactly as many characters as its span |
| Syntax.FirstOfKind | src/formatter.rs:201-207 | returns the index of a child of the kind, and no earlier child has it |
| Strings.Trim | src/formatter.rs:117 | the result is trimmed and no longer than the input |
| Strings.Find | src/formatter.rs:778-781 | the first occurrence: the pattern occurs at the index returned and at no earlier index; `None` exactly when it occurs nowhere |
| Strings.TrimEndMatches | src/formatter.rs:796 | the input is the result followed by some number of copies of the pattern, and the result does not end with another copy: exactly the trailing copies are removed |
| Strings.Split | src/formatter.rs:116 | at least one piece, and no piece holds the separator |
| Strings.JoinHolds | src/formatter.rs:122-129 | a character outside the separator is in the joined text exactly when it is in one of the pieces |
| Strings.Utf8Len | src/formatter.rs:508 | the UTF-8 length is between one and four bytes per character |
| Strings.LineCount | src/formatter.rs:508 | defines `lines().count()`: line breaks counted, plus one for an unterminated last line |
| Strings.TrimmedSingleLine | src/formatter.rs:508 | a trimmed text counts exactly one line when it is non-empty and holds no line break |
| Arguments.ArgumentsStable | src/formatter.rs:106-130 | reading back the argument list `format_arguments` writes gives the same arguments |
| Arguments.FlatArgumentListIdempotent | src/formatter.rs:106-130 | rewriting an already rewritten argument list changes nothing |
| Arguments.TrimJoined | src/formatter.rs:115-119 | splitting arguments joined with `, ` and trimming the pieces gives the arguments back |
| Arguments.SplitJoined | src/formatter.rs:115-116 | splitting comma-free pieces joined with `, ` on `,` gives the first piece, then the others each with a leading space |
| Arguments.ParenthesisedPieces | src/formatter.rs:111-116 | stripping one `(` and one `)` from a parenthesised text and splitting gives the pieces of the inner text |
| Arguments.SingleArgument | src/formatter.rs:106-130 | a single trimmed argument without a comma is written unchanged |
| Arguments.ThreeArguments | src/formatter.rs:106-130 | three comma-separated arguments with any whitespace around them come out trimmed and separated by `, ` |
| Arguments.ArgumentLineBreaks | src/formatter.rs:106-130 | the rewritten list holds a line break exactly when one of the trimmed arguments does: lists are not flattened onto one line |
| Arguments.ArgumentLineBreakKept | src/formatter.rs:106-130 | `(a\nb)` comes out unchanged, line break included |
| Arguments.TrimNonEmptyAppend | src/formatter.rs:115-119 | trimming and dropping blank pieces works piece by piece: on two runs of pieces it gives the two results in order |
| Arguments.BlankArgumentList | src/formatter.rs:106-130 | a list holding only blank, comma-free text is written as `()` |
| Arguments.EmptyArgumentList | src/formatter.rs:106-130 | `()` is written as `()` |
| Arguments.BlankArgumentDropped | src/formatter.rs:106-130 | a blank argument between two others is dropped: the others come out trimmed, separated by one `, ` |
| Arguments.DoubledComma | src/formatter.rs:106-130 | `(a,,b)` is written as `(a, b)` |
| Arguments.ArgumentsExample | src/formatter.rs:106-130 | the list `(\n  a,\n  b ,c\n)` comes out as `(a, b, c)` |
| Properties.FirstTopLevelChildUnseparated | src/formatter.rs:137-185 | the first child of a `source_file` is formatted on the state as handed over, with no blank line before it |
| Properties.TopLevelSeparation | src/formatter.rs:143-184 | between two top-level children, a blank line is written exactly when the table asks for one, and the next child then starts on an empty line |
| Properties.MethodBodyInline | src/formatter.rs:504-511 | a one-line body under 50 bytes is written after one space on the signature's line: no line break, level unchanged |
| Properties.MethodBodyNested | src/formatter.rs:512-518 | any other method body starts on a new line, is formatted one level deeper, and the level comes back when it is error-free |
| Properties.ConstructorBodyNested | src/formatter.rs:562-567 | a constructor or function body is always nested, however short it is |
| Properties.MembersNested | src/formatter.rs:239-245 | the `members` of an actor, class or trait start on a new line, one level deeper, and the level comes back |
| Properties.ThenBodyNested | src/formatter.rs:851-874 | in a `then_block`, `then` appends `then` and a line break; the body block is formatted on the state one level deeper and the level is lowered after it (back to where it was when error-free); other children write nothing |
| Properties.AssignmentRunWrites | src/formatter.rs:637-656 | the simple-assignment loop appends each assignment's text, a space before every assignment but the first, and `;` for each semicolon, in order (`Properties.RunText`); the level is kept |
| Properties.RunTextOneLine | src/formatter.rs:637-656 | when no assignment's text holds a line break, the run holds none |
| Properties.SimpleAssignmentBlockLine | src/formatter.rs:628-656 | a block of simple assignments writes the indentation, the run and one line break, keeps the level, and is one line when the assignments are |
| Properties.FoldEndsWithLast | src/formatter.rs:139-186 | a child loop over a node with children ends with the iteration on its last child |
| Properties.StatementEndsLine | src/formatter.rs:665-758 | an assignment, or a call directly in a block outside an assignment, ends with a line break and leaves the line empty |
| Properties.BlockEndsLine | src/formatter.rs:628-662 | a block of simple assignments, or one whose last statement is such an assignment or call, ends with a line break |
| Properties.MethodEndsWithEmptyLine | src/formatter.rs:512-527 | a method whose nested body ends with such a statement ends with `\n\n`: an empty line follows it |
| Properties.HeadTokensStayOnLine | src/formatter.rs:219-381 | actor, class, trait, primitive and type-alias head tokens whose text has no line break only continue the current line |
| Properties.SignatureTokensStayOnLine | src/formatter.rs:390-589 | field, constructor and `if_block` tokens whose text has no line break only continue the current line |
| Properties.MethodTokenStaysOnLine | src/formatter.rs:484-511 | a method signature token whose text has no line break only continues the current line |
| Properties.NestedBody | src/formatter.rs:239-245 | a nested body begins with a line break and restores the level when error-free |
| Properties.SpacedLine | src/formatter.rs:510-511 | one space and a text without line breaks stay on the current line |
| Properties.ErrorIfThenEndBalance | src/formatter.rs:778-806 | an `ERROR` read as an `if` head followed by one read as its `end` brings the level back |
| Properties.EndTailClosesLine | src/formatter.rs:802-805 | the `end` reading always finishes with `end` and a line break |
| Properties.ErrorEndAtOutermost | src/formatter.rs:792-806 | an `end` with no open `if` leaves the level at 0 and still writes `end` |
| Properties.ErrorVerbatim | src/formatter.rs:806-811 | from an empty line, other `ERROR` text is written after the current indentation exactly as it stands, followed by a line break; the level is kept |
| Properties.ErrorIfWithoutEnd | src/formatter.rs:778-791 | with indent width 2, the `ERROR` text `if cond then\nbody` on a fresh state is written as `if cond then\n  body`, leaving the level at 1 |
| Properties.ErrorEndSuffix | src/formatter.rs:792-796 | only the last three letters are checked: `x.append` is read as a closing `end` and `x.app` is kept |
| Scenarios.SingleTopLevel | src/formatter.rs:96-104 | a file with one top-level node formats to that node formatted on a fresh state |
| Scenarios.StandaloneCallLine | src/formatter.rs:665-702 | a standalone call is written on its own indented line: callee as it stands, then the rewritten argument list |
| Scenarios.CallBlockLine | src/formatter.rs:628-662 | a block holding one call outside an assignment formats just that call |
| Scenarios.IfThenLayout | src/formatter.rs:598-626 | an `if` statement writes `if <condition> then`, the body one level deeper, and `end` on its own line |
| Scenarios.IfCallStatement | src/formatter.rs:598-626 | `if c then <call> end` on an empty line is three lines: head at the current indent, call one level deeper, `end` back at the head's indent; the level is unchanged |
| Scenarios.ThenCallBody | src/formatter.rs:851-874 | a `then` body holding one call puts the call on its own line |
| Scenarios.ConstructorSignature | src/formatter.rs:538-561 | `new`, the name, the parameters and `=>` are written as `new name(params) =>` |
| Scenarios.ConstructorCallLines | src/formatter.rs:530-596 | a constructor whose body is one call takes two lines: the signature, then the call one level deeper |
| Scenarios.ActorHead | src/formatter.rs:219-231 | the actor keyword and name are written as `actor Name` |
| Scenarios.ActorHeadThenMember | src/formatter.rs:211-253 | an actor writes its head, then its one member nested one level deeper |
| Scenarios.ActorConstructorLines | src/formatter.rs:211-253 | an actor with one such constructor: head, then signature one level deeper, then call two levels deeper |
| Scenarios.OneArgumentCall | src/formatter.rs:106-130 | a call with one trimmed, comma-free argument is written as it stands |
| Scenarios.ConditionalFormatting | tests/formatter.rs:194-203 | the `if true then` example formats to the expected three lines |
| Scenarios.BasicActorFormatting | tests/formatter.rs:181-191 | the `actor Main` example formats to the expected three lines |

## Left out

- The parser, the command-line driver, debug output and the library glue
  (`src/parser.rs`, `src/main.rs`, `src/debug.rs`, `src/lib.rs`) are not part of this model.
  The tree is an input: a `Syntax.Node` with kind, span and children.
- Node kinds are the datatype `Syntax.Kind` rather than tree-sitter's tag strings.
  `Other(tag)` stands for every tag the formatter does not name. Nothing stops a tree from
  holding `Other(tag)` with a tag the formatter names; such a node is treated as an unnamed one.
- Integer width: `indent_level * indent_width` is a `usize` product in the source, and the
  width comes from the user's `--indent`; a large enough product panics or wraps there. Here
  both are `nat`, so `Emit.WriteIndent` and `Formatter.FormatterState.WriteIndent` neither
  panic nor wrap.
- `node_text` decodes bytes with `String::from_utf8_lossy`; here the source is a sequence of
  characters and spans index characters. Invalid UTF-8 is not modelled. The `< 50` test
  still counts UTF-8 bytes (`Strings.Utf8Len`).
- The parent and grandparent that `call_expression` reads through `node.parent()` are
  passed down as parameters.
- `FormatOptions.mode` and the other options do not affect `format_source` and are left
  out; only the indent width is kept.
- Idempotence of the whole formatter is not claimed. Neither is the trailing line break of
  the output.
- The source's separate cursor loops are modelled as one `Formatter.RunLoop` with a
  per-arm step (`Formatter.RunStep`). The order of visits and what each visit writes are
  the same.
- The `first` flag of the `assignment_expression` loop is `i == 0`, since every arm
  clears it. The flag of the simple-assignment loop is `Rules.NoAssignmentBefore`.
- Render.FormatNode: the indent-balance promise is stated only for subtrees without
  `ERROR` nodes. An `ERROR` node changes the level on purpose.
- Scenarios.ConditionalFormatting and Scenarios.BasicActorFormatting: the trees are written
  by hand from the node kinds the formatter's arms read. That tree-sitter-pony yields this
  shape for these inputs is not established; the parse itself is not modelled.
