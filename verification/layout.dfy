/** The formatter state as a value: the text written so far, the indent level and
    whether the current output line already holds text. The six operations below are
    the value-level meaning of the `FormatterState` methods. */
module Emit {
  import opened Strings

  datatype Layout = Layout(output: string, indentLevel: nat, lineHasContent: bool)

  /** `FormatterState::new`. */
  const Fresh := Layout("", 0, false)

  /** `write_indent`: at the start of a line, `indentLevel * width` spaces. */
  function WriteIndent(s: Layout, width: nat): (r: Layout)
    ensures s.output <= r.output
    ensures |r.output| == |s.output| + (if s.lineHasContent then 0 else s.indentLevel * width)
    ensures forall k :: |s.output| <= k < |r.output| ==> r.output[k] == ' '
    ensures r.indentLevel == s.indentLevel && r.lineHasContent == s.lineHasContent
  {
    if s.lineHasContent then s
    else s.(output := s.output + Spaces(s.indentLevel * width))
  }

  /** What `write_indent` adds: the indentation of the level, or nothing on a line that
      already holds text. */
  function Indentation(s: Layout, width: nat): string {
    if s.lineHasContent then "" else Spaces(s.indentLevel * width)
  }

  lemma IndentationWritten(s: Layout, width: nat)
    ensures WriteIndent(s, width).output == s.output + Indentation(s, width)
  {
    if s.lineHasContent {
      assert s.output + "" == s.output;
    }
  }

  /** `write_text`. */
  function WriteText(s: Layout, text: string): (r: Layout)
    ensures s.output <= r.output && r.output[|s.output|..] == text
    ensures r.lineHasContent && r.indentLevel == s.indentLevel
  {
    Layout(s.output + text, s.indentLevel, true)
  }

  /** `write_newline`. */
  function WriteNewline(s: Layout): (r: Layout)
    ensures s.output <= r.output && r.output[|s.output|..] == "\n"
    ensures !r.lineHasContent && r.indentLevel == s.indentLevel
  {
    Layout(s.output + "\n", s.indentLevel, false)
  }

  /** `write_blank_line`: ends the current line if it has text, then writes an empty line. */
  function WriteBlankLine(s: Layout): (r: Layout)
    ensures s.output <= r.output
    ensures r.output[|s.output|..] == if s.lineHasContent then "\n\n" else "\n"
    ensures !r.lineHasContent && r.indentLevel == s.indentLevel
  {
    WriteNewline(if s.lineHasContent then WriteNewline(s) else s)
  }

  /** `increase_indent`. */
  function IncreaseIndent(s: Layout): (r: Layout)
    ensures r.output == s.output && r.lineHasContent == s.lineHasContent
    ensures r.indentLevel == s.indentLevel + 1
  {
    s.(indentLevel := s.indentLevel + 1)
  }

  /** `decrease_indent`: saturates at zero instead of underflowing. */
  function DecreaseIndent(s: Layout): (r: Layout)
    ensures r.output == s.output && r.lineHasContent == s.lineHasContent
    ensures r.indentLevel == if s.indentLevel == 0 then 0 else s.indentLevel - 1
  {
    s.(indentLevel := if s.indentLevel > 0 then s.indentLevel - 1 else 0)
  }

  /** Increasing and then decreasing the indent restores the state. */
  lemma IndentRoundTrip(s: Layout)
    ensures DecreaseIndent(IncreaseIndent(s)) == s
  {
  }

  /** Writing two texts in a row is writing their concatenation. */
  lemma WriteTextTwice(s: Layout, a: string, b: string)
    ensures WriteText(WriteText(s, a), b) == WriteText(s, a + b)
  {
    assert s.output + a + b == s.output + (a + b);
  }
}
