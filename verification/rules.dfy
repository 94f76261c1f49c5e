/** The decisions `format_node` takes that depend only on kinds and text. */
module Rules {
  import opened Strings
  import opened Syntax

  /** The blank-line table between two consecutive top-level children, as the source
      writes it: guarded arms tried in order, everything else false. */
  function NeedsBlankLine(prev: Kind, kind: Kind): (r: bool)
    ensures r <==>
      || prev == ClassDefinition
      || ((prev == PrimitiveDefinition || prev == TraitDefinition) && kind != prev)
      || ((prev == TypeAlias || prev == UseStatement) && kind != prev && kind != LineComment)
      || (prev == BlockComment && kind != BlockComment && kind != LineComment)
  {
    if prev == BlockComment && kind != BlockComment && kind != LineComment then true
    else if prev == PrimitiveDefinition && kind != PrimitiveDefinition && kind != LineComment then true
    else if prev == TypeAlias && kind != TypeAlias && kind != LineComment then true
    else if prev == TraitDefinition && kind != TraitDefinition && kind != LineComment then true
    else if prev == ClassDefinition && kind != LineComment then true
    else if kind == LineComment
      && (prev == ClassDefinition || prev == TraitDefinition || prev == PrimitiveDefinition) then true
    else if prev == UseStatement && kind != UseStatement && kind != LineComment then true
    else false
  }

  /** The method-body test: the trimmed block text has exactly one line and fewer
      than 50 bytes. */
  function InlineBody(blockText: string): (r: bool)
    ensures r <==> var t := Trim(blockText); t != [] && '\n' !in t && Utf8Len(t) < 50
  {
    var t := Trim(blockText);
    TrimmedSingleLine(t);
    LineCount(t) == 1 && Utf8Len(t) < 50
  }

  /** A block made only of assignment expressions and `;` tokens, more than two of them. */
  predicate IsSimpleAssignmentBlock(cs: seq<Node>) {
    (forall k :: 0 <= k < |cs| ==> cs[k].kind == AssignmentExpression || cs[k].kind == Semicolon)
    && |cs| > 2
  }

  /** No assignment expression among the first `i` children: the `first` flag of the
      simple-assignment loop. */
  predicate NoAssignmentBefore(cs: seq<Node>, i: nat) {
    forall k :: 0 <= k < i && k < |cs| ==> cs[k].kind != AssignmentExpression
  }

  /** A call expression that is the root, or sits directly in a block that is not
      itself inside an assignment expression, gets a line of its own. */
  predicate IsStandalone(parent: Option<Kind>, grand: Option<Kind>) {
    parent.None? || (parent == Some(Block) && grand.Some? && grand.value != AssignmentExpression)
  }

  // ---------------------------------------------------------------- arguments

  /** `.map(|arg| arg.trim()).filter(|arg| !arg.is_empty())` over the pieces of a
      split on commas: each piece trimmed, the empty ones dropped, the order kept. */
  function TrimNonEmpty(pieces: seq<string>): (r: seq<string>)
    requires forall k :: 0 <= k < |pieces| ==> ',' !in pieces[k]
    ensures |r| <= |pieces|
    ensures forall k :: 0 <= k < |r| ==> r[k] != [] && Trimmed(r[k]) && ',' !in r[k]
  {
    if |pieces| == 0 then []
    else
      var t := Trim(pieces[0]);
      var rest := TrimNonEmpty(pieces[1..]);
      TrimKeepsOut(pieces[0], ',');
      if t == [] then rest else [t] + rest
  }

  /** The comma-separated pieces of an argument list, one `(` and one `)` stripped. */
  function ArgumentPieces(text: string): seq<string> {
    Split(StripSuffix(StripPrefix(text, '('), ')'), ',')
  }

  /** The arguments `format_arguments` writes: none is empty, none has whitespace
      at either end, none holds a comma. */
  function SplitArguments(text: string): (args: seq<string>)
    ensures forall k :: 0 <= k < |args| ==> args[k] != [] && Trimmed(args[k]) && ',' !in args[k]
  {
    TrimNonEmpty(ArgumentPieces(text))
  }

  /** The text `format_arguments` writes for an `arguments` node. */
  function FlatArgumentList(text: string): string {
    "(" + Join(SplitArguments(text), ", ") + ")"
  }

  // ---------------------------------------------------------------- ERROR nodes

  /** The three readings of an `ERROR` node's text. */
  datatype ErrorShape =
    | IfHead(condition: string, body: string)  // "if ... then [body]"
    | EndTail(before: string)                  // "[before] end"
    | Verbatim

  function ClassifyError(text: string): (r: ErrorShape)
    ensures r.IfHead? <==> StartsWith(text, "if ") && Contains(text, "then")
    ensures r.EndTail? <==> !r.IfHead? && (Trim(text) == "end" || EndsWith(text, "end"))
    ensures r.IfHead? ==> Trimmed(r.condition) && Trimmed(r.body)
    ensures r.EndTail? ==> Trimmed(r.before)
  {
    if StartsWith(text, "if ") && Contains(text, "then") then
      var k := Find(text, "then").value;
      IfHead(Trim(text[..k]), Trim(text[k + 4..]))
    else if Trim(text) == "end" || EndsWith(text, "end") then
      EndTail(if Trim(text) != "end" then Trim(TrimEndMatches(text, "end")) else "")
    else
      Verbatim
  }

  /** The `if` reading splits the text at its first `then`: the condition is what comes
      before it, the body what comes after it, both trimmed. */
  lemma IfHeadSplitsAtFirstThen(text: string) returns (k: nat)
    requires ClassifyError(text).IfHead?
    ensures OccursAt(text, "then", k)
    ensures forall j: nat :: j < k ==> !OccursAt(text, "then", j)
    ensures ClassifyError(text) == IfHead(Trim(text[..k]), Trim(text[k + 4..]))
  {
    k := Find(text, "then").value;
  }
}
