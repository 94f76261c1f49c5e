/** Text utilities standing in for the Rust `str` methods the formatter calls:
    `trim`, `starts_with`, `ends_with`, `contains`, `splitn(2, ..)`,
    `trim_end_matches`, `split(',')`, `lines().count()` and `len()`. */
module Strings {

  datatype Option<T> = None | Some(value: T)

  /** Rust's `char::is_whitespace`: the Unicode White_Space property. */
  predicate IsWhitespace(c: char) {
    ('\t' <= c <= '\r') || c == ' ' || c == '\U{85}' || c == '\U{A0}' || c == '\U{1680}'
    || ('\U{2000}' <= c <= '\U{200A}') || c == '\U{2028}' || c == '\U{2029}'
    || c == '\U{202F}' || c == '\U{205F}' || c == '\U{3000}'
  }

  predicate AllWhitespace(s: string) {
    forall k :: 0 <= k < |s| ==> IsWhitespace(s[k])
  }

  /** Neither end of `s` is whitespace. */
  predicate Trimmed(s: string) {
    s == [] || (!IsWhitespace(s[0]) && !IsWhitespace(s[|s| - 1]))
  }

  /** The index of the first non-whitespace character at or after `i` (or `|s|`). */
  function LeadFrom(s: string, i: nat): (r: nat)
    requires i <= |s|
    ensures i <= r <= |s|
    ensures r < |s| ==> !IsWhitespace(s[r])
    decreases |s| - i
  {
    if i < |s| && IsWhitespace(s[i]) then LeadFrom(s, i + 1) else i
  }

  /** Everything `LeadFrom` skips is whitespace. */
  lemma {:induction false} LeadFromSkipsWhitespace(s: string, i: nat)
    requires i <= |s|
    ensures forall k :: i <= k < LeadFrom(s, i) ==> IsWhitespace(s[k])
    decreases |s| - i
  {
    if i < |s| && IsWhitespace(s[i]) {
      LeadFromSkipsWhitespace(s, i + 1);
    }
  }

  /** The index just past the last non-whitespace character before `j` (or `0`). */
  function TrailFrom(s: string, j: nat): (r: nat)
    requires j <= |s|
    ensures r <= j
    ensures r > 0 ==> !IsWhitespace(s[r - 1])
  {
    if j > 0 && IsWhitespace(s[j - 1]) then TrailFrom(s, j - 1) else j
  }

  /** Everything `TrailFrom` skips is whitespace. */
  lemma {:induction false} TrailFromSkipsWhitespace(s: string, j: nat)
    requires j <= |s|
    ensures forall k :: TrailFrom(s, j) <= k < j ==> IsWhitespace(s[k])
  {
    if j > 0 && IsWhitespace(s[j - 1]) {
      TrailFromSkipsWhitespace(s, j - 1);
    }
  }

  /** How many whitespace characters `s` starts with. */
  function Lead(s: string): (n: nat)
    ensures n <= |s|
  {
    LeadFrom(s, 0)
  }

  /** Rust's `str::trim`: the slice of `s` left after dropping whitespace at both ends. */
  function Trim(s: string): (r: string)
    ensures Trimmed(r) && |r| <= |s|
  {
    var a, b := LeadFrom(s, 0), TrailFrom(s, |s|);
    if b <= a then [] else s[a..b]
  }

  /** `Trim` keeps a contiguous slice of `s` and drops only whitespace around it. */
  lemma TrimSlice(s: string)
    ensures Lead(s) + |Trim(s)| <= |s| && Trim(s) == s[Lead(s)..Lead(s) + |Trim(s)|]
    ensures forall k :: 0 <= k < Lead(s) ==> IsWhitespace(s[k])
    ensures forall k :: Lead(s) + |Trim(s)| <= k < |s| ==> IsWhitespace(s[k])
  {
    LeadFromSkipsWhitespace(s, 0);
    TrailFromSkipsWhitespace(s, |s|);
  }

  /** Trimming never brings in a character the text did not have. */
  lemma TrimKeepsOut(s: string, c: char)
    ensures c !in s ==> c !in Trim(s)
  {
    TrimSlice(s);
    var r, i := Trim(s), Lead(s);
    assert forall j :: 0 <= j < |r| ==> r[j] == s[i + j];
  }

  lemma TrimOfTrimmed(s: string)
    requires Trimmed(s)
    ensures Trim(s) == s
  {
    if s != [] {
      assert LeadFrom(s, 0) == 0;
      assert TrailFrom(s, |s|) == |s|;
    }
  }

  lemma TrimSkipsLeadingSpace(s: string)
    requires Trimmed(s)
    ensures Trim(" " + s) == s
  {
    var t := " " + s;
    assert LeadFrom(t, 0) == LeadFrom(t, 1);
    if s != [] {
      assert t[1] == s[0];
      assert LeadFrom(t, 1) == 1;
      assert t[|t| - 1] == s[|s| - 1];
      assert TrailFrom(t, |t|) == |t|;
      assert t[1..|t|] == s;
    }
  }

  lemma AllWhitespaceTrimsToEmpty(s: string)
    ensures Trim(s) == [] <==> AllWhitespace(s)
  {
    TrimSlice(s);
    if AllWhitespace(s) && s != [] {
      assert TrailFrom(s, |s|) == 0;
    }
  }

  predicate StartsWith(s: string, p: string) {
    |p| <= |s| && s[..|p|] == p
  }

  predicate EndsWith(s: string, p: string) {
    |p| <= |s| && s[|s| - |p|..] == p
  }

  predicate OccursAt(s: string, p: string, k: nat) {
    k + |p| <= |s| && s[k..k + |p|] == p
  }

  /** The first index at or after `from` where `p` occurs in `s`. */
  function FindFrom(s: string, p: string, from: nat): (r: Option<nat>)
    requires from <= |s|
    ensures r.Some? ==> from <= r.value && OccursAt(s, p, r.value)
    ensures forall k: nat :: from <= k && (r.None? || k < r.value) ==> !OccursAt(s, p, k)
    decreases |s| - from
  {
    if OccursAt(s, p, from) then Some(from)
    else if from + |p| >= |s| then None
    else FindFrom(s, p, from + 1)
  }

  /** The first occurrence of `p` in `s`, the split point of Rust's `splitn(2, p)`. */
  function Find(s: string, p: string): (r: Option<nat>)
    ensures r.Some? ==> OccursAt(s, p, r.value)
    ensures forall k: nat :: (r.None? || k < r.value) ==> !OccursAt(s, p, k)
  {
    FindFrom(s, p, 0)
  }

  /** Rust's `str::contains`. */
  predicate Contains(s: string, p: string) {
    Find(s, p).Some?
  }

  /** `k` copies of `p` one after another. */
  function Repeat(p: string, k: nat): string {
    if k == 0 then [] else Repeat(p, k - 1) + p
  }

  /** Rust's `str::trim_end_matches(p)`: every trailing copy of `p` removed. What is
      removed is copies of `p` and nothing else, and what is left does not end with
      another one, which fixes the result. */
  function TrimEndMatches(s: string, p: string): (r: string)
    requires p != []
    ensures |r| <= |s| && r == s[..|r|]
    ensures exists k: nat :: s == r + Repeat(p, k)
    ensures !EndsWith(r, p)
    decreases |s|
  {
    if EndsWith(s, p) then
      var t := s[..|s| - |p|];
      var r := TrimEndMatches(t, p);
      assert s == t + p;
      RepeatOneMore(r, p, t);
      r
    else
      assert s == s + Repeat(p, 0);
      s
  }

  /** A text made of `r` and copies of `p` is still so with one more `p`. */
  lemma RepeatOneMore(r: string, p: string, t: string)
    requires exists k: nat :: t == r + Repeat(p, k)
    ensures exists k: nat :: t + p == r + Repeat(p, k)
  {
    var k: nat :| t == r + Repeat(p, k);
    assert t + p == r + Repeat(p, k + 1);
  }

  /** Rust's `str::strip_prefix(c).unwrap_or(s)`. */
  function StripPrefix(s: string, c: char): string {
    if |s| > 0 && s[0] == c then s[1..] else s
  }

  /** Rust's `str::strip_suffix(c).unwrap_or(s)`. */
  function StripSuffix(s: string, c: char): string {
    if |s| > 0 && s[|s| - 1] == c then s[..|s| - 1] else s
  }

  /** Rust's `str::split(c)`: the maximal pieces between separators, empty ones included. */
  function Split(s: string, c: char): (r: seq<string>)
    ensures |r| >= 1
    ensures forall k :: 0 <= k < |r| ==> c !in r[k]
    decreases |s|
  {
    if |s| == 0 then [""]
    else
      var rest := Split(s[1..], c);
      if s[0] == c then [""] + rest
      else [[s[0]] + rest[0]] + rest[1..]
  }

  /** The pieces written one after another with `sep` between neighbours. */
  function Join(xs: seq<string>, sep: string): string
  {
    if |xs| == 0 then ""
    else if |xs| == 1 then xs[0]
    else xs[0] + sep + Join(xs[1..], sep)
  }

  /** A character that is not in the separator is in the joined text exactly when it is
      in one of the pieces. */
  lemma {:induction false} JoinHolds(xs: seq<string>, sep: string, c: char)
    requires c !in sep
    ensures c in Join(xs, sep) <==> exists k :: 0 <= k < |xs| && c in xs[k]
    decreases |xs|
  {
    if |xs| > 1 {
      JoinHolds(xs[1..], sep, c);
      assert Join(xs, sep) == xs[0] + sep + Join(xs[1..], sep);
      if exists k :: 0 <= k < |xs| && c in xs[k] {
        var k :| 0 <= k < |xs| && c in xs[k];
        if k > 0 {
          assert c in xs[1..][k - 1];
        }
      }
      if exists k :: 0 <= k < |xs[1..]| && c in xs[1..][k] {
        var k :| 0 <= k < |xs[1..]| && c in xs[1..][k];
        assert c in xs[k + 1];
      }
    }
  }

  /** Splitting and joining back with the same separator gives the text back. */
  lemma {:induction false} SplitJoin(s: string, c: char)
    ensures Join(Split(s, c), [c]) == s
    decreases |s|
  {
    if |s| > 0 {
      var rest := Split(s[1..], c);
      SplitJoin(s[1..], c);
      if s[0] == c {
        assert Split(s, c) == [""] + rest;
        assert ([""] + rest)[1..] == rest;
      } else {
        var r := Split(s, c);
        assert r == [[s[0]] + rest[0]] + rest[1..];
        if |rest| == 1 {
          assert Join(r, [c]) == [s[0]] + rest[0];
        } else {
          assert r[1..] == rest[1..];
          assert Join(r, [c]) == [s[0]] + rest[0] + [c] + Join(rest[1..], [c]);
        }
        assert s == [s[0]] + s[1..];
      }
    }
  }

  /** A text with no separator in it splits into itself alone. */
  lemma {:induction false} SplitNoSeparator(s: string, c: char)
    requires c !in s
    ensures Split(s, c) == [s]
    decreases |s|
  {
    if |s| > 0 {
      assert c !in s[1..];
      SplitNoSeparator(s[1..], c);
      assert s == [s[0]] + s[1..];
    }
  }

  /** Splitting at the first separator: the piece before it, then the pieces after it. */
  lemma {:induction false} SplitAtSeparator(a: string, c: char, b: string)
    requires c !in a
    ensures Split(a + [c] + b, c) == [a] + Split(b, c)
    decreases |a|
  {
    var s := a + [c] + b;
    if |a| == 0 {
      assert s[1..] == b;
    } else {
      assert s[1..] == a[1..] + [c] + b;
      assert c !in a[1..];
      SplitAtSeparator(a[1..], c, b);
      assert a == [a[0]] + a[1..];
    }
  }

  /** Appending one more piece to a joined list. */
  lemma {:induction false} JoinSnoc(xs: seq<string>, sep: string, x: string)
    ensures Join(xs + [x], sep) == if |xs| == 0 then x else Join(xs, sep) + sep + x
    decreases |xs|
  {
    if |xs| > 1 {
      assert (xs + [x])[1..] == xs[1..] + [x];
      JoinSnoc(xs[1..], sep, x);
    }
  }

  function Spaces(n: nat): (r: string)
    ensures |r| == n && forall k :: 0 <= k < n ==> r[k] == ' '
  {
    if n == 0 then "" else Spaces(n - 1) + " "
  }

  /** Number of bytes of `c` in UTF-8. */
  function Utf8Width(c: char): (w: nat)
    ensures 1 <= w <= 4
  {
    if c as int < 0x80 then 1
    else if c as int < 0x800 then 2
    else if c as int < 0x1_0000 then 3
    else 4
  }

  /** Rust's `str::len`: the length of the UTF-8 encoding, in bytes. */
  function Utf8Len(s: string): (n: nat)
    ensures |s| <= n <= 4 * |s|
  {
    if |s| == 0 then 0 else Utf8Len(s[..|s| - 1]) + Utf8Width(s[|s| - 1])
  }

  function NewlineCount(s: string): (n: nat)
    ensures n == 0 <==> '\n' !in s
  {
    if |s| == 0 then 0
    else NewlineCount(s[..|s| - 1]) + (if s[|s| - 1] == '\n' then 1 else 0)
  }

  /** Rust's `str::lines().count()`: lines end at '\n'; a final '\n' does not start
      a new line, and the empty text has no line at all. */
  function LineCount(s: string): nat {
    if s == [] then 0
    else NewlineCount(s) + (if s[|s| - 1] == '\n' then 0 else 1)
  }

  /** A trimmed text is one line exactly when it is non-empty and holds no '\n'. */
  lemma TrimmedSingleLine(s: string)
    requires Trimmed(s)
    ensures LineCount(s) == 1 <==> s != [] && '\n' !in s
  {
    if s != [] {
      assert !IsWhitespace(s[|s| - 1]);
    }
  }
}
