/** Properties of the argument-list normalisation of `format_arguments`. */
module Arguments {
  import opened Strings
  import opened Rules

  /** Each piece preceded by one space: what the pieces after the first look like once
      they are joined with ", " and split again on ','. */
  function SpacedTail(ys: seq<string>): (r: seq<string>)
    ensures |r| == |ys|
    ensures forall k :: 0 <= k < |ys| ==> r[k] == " " + ys[k]
  {
    if |ys| == 0 then [] else [" " + ys[0]] + SpacedTail(ys[1..])
  }

  predicate CommaFree(xs: seq<string>) {
    forall k :: 0 <= k < |xs| ==> ',' !in xs[k]
  }

  /** Joining comma-free pieces with ", " and splitting on ',' gives the first piece
      back, and every later one with the space of the separator in front. */
  lemma {:induction false} SplitJoined(xs: seq<string>)
    requires |xs| >= 1 && CommaFree(xs)
    ensures Split(Join(xs, ", "), ',') == [xs[0]] + SpacedTail(xs[1..])
    decreases |xs|
  {
    if |xs| == 1 {
      SplitNoSeparator(xs[0], ',');
    } else {
      var tail := Join(xs[1..], ", ");
      assert Join(xs, ", ") == xs[0] + [','] + (" " + tail);
      SplitAtSeparator(xs[0], ',', " " + tail);
      SplitJoined(xs[1..]);
      var rest := Split(tail, ',');
      assert rest == [xs[1]] + SpacedTail(xs[2..]);
      assert (" " + tail)[1..] == tail;
      assert Split(" " + tail, ',') == [" " + xs[1]] + rest[1..];
      assert xs[1..][1..] == xs[2..];
      assert SpacedTail(xs[1..]) == [" " + xs[1]] + SpacedTail(xs[2..]);
    }
  }

  /** Pieces that are comma-free words behind one space are comma-free. */
  lemma SpacedTailCommaFree(ys: seq<string>)
    requires forall k :: 0 <= k < |ys| ==> ',' !in ys[k]
    ensures CommaFree(SpacedTail(ys))
  {
    var t := SpacedTail(ys);
    forall k | 0 <= k < |t| ensures ',' !in t[k] {
      assert t[k] == " " + ys[k];
    }
  }

  /** Trimming pieces that are trimmed words behind one space gives the words back. */
  lemma {:induction false} TrimSpacedTail(ys: seq<string>)
    requires forall k :: 0 <= k < |ys| ==> ys[k] != [] && Trimmed(ys[k]) && ',' !in ys[k]
    ensures CommaFree(SpacedTail(ys))
    ensures TrimNonEmpty(SpacedTail(ys)) == ys
    decreases |ys|
  {
    SpacedTailCommaFree(ys);
    if |ys| > 0 {
      var t := SpacedTail(ys);
      var rest := ys[1..];
      assert Trim(t[0]) == ys[0] by {
        assert t[0] == " " + ys[0];
        TrimSkipsLeadingSpace(ys[0]);
      }
      assert TrimNonEmpty(t[1..]) == rest by {
        assert t[1..] == SpacedTail(rest);
        TrimSpacedTail(rest);
      }
      assert ys == [ys[0]] + rest;
    }
  }

  /** Stripping one pair of parentheses from a parenthesised text gives the text. */
  lemma ParenthesisedPieces(inner: string)
    ensures ArgumentPieces("(" + inner + ")") == Split(inner, ',')
  {
    var text := "(" + inner + ")";
    assert StripPrefix(text, '(') == inner + ")";
    assert StripSuffix(inner + ")", ')') == inner;
  }

  /** Splitting arguments joined with ", " and trimming the pieces gives the arguments. */
  lemma TrimJoined(args: seq<string>)
    requires forall k :: 0 <= k < |args| ==> args[k] != [] && Trimmed(args[k]) && ',' !in args[k]
    ensures TrimNonEmpty(Split(Join(args, ", "), ',')) == args
  {
    if |args| == 0 {
      assert Split("", ',') == [""];
      AllWhitespaceTrimsToEmpty("");
    } else {
      TrimJoinedNonEmpty(args);
    }
  }

  lemma TrimJoinedNonEmpty(args: seq<string>)
    requires |args| > 0
    requires forall k :: 0 <= k < |args| ==> args[k] != [] && Trimmed(args[k]) && ',' !in args[k]
    ensures TrimNonEmpty(Split(Join(args, ", "), ',')) == args
  {
    var rest := args[1..];
    var pieces := [args[0]] + SpacedTail(rest);
    assert Split(Join(args, ", "), ',') == pieces by {
      SplitJoined(args);
    }
    assert CommaFree(pieces[1..]) && TrimNonEmpty(pieces[1..]) == rest by {
      assert pieces[1..] == SpacedTail(rest);
      TrimSpacedTail(rest);
    }
    assert Trim(pieces[0]) == args[0] by {
      TrimOfTrimmed(args[0]);
    }
    TrimNonEmptyCons(pieces, args[0], rest);
    assert args == [args[0]] + rest;
  }

  /** A first piece that trims to a non-empty word is kept in front of the rest. */
  lemma TrimNonEmptyCons(pieces: seq<string>, x: string, rest: seq<string>)
    requires |pieces| > 0 && ',' !in pieces[0] && CommaFree(pieces[1..])
    requires Trim(pieces[0]) == x && x != [] && TrimNonEmpty(pieces[1..]) == rest
    ensures CommaFree(pieces)
    ensures TrimNonEmpty(pieces) == [x] + rest
  {
    assert CommaFree(pieces) by {
      forall k | 0 <= k < |pieces| ensures ',' !in pieces[k] {
        if k > 0 { assert pieces[k] == pieces[1..][k - 1]; }
      }
    }
  }

  /** The argument list `format_arguments` writes is read back as the same arguments:
      the normalisation is a fixed point of itself. */
  lemma ArgumentsStable(text: string)
    ensures SplitArguments(FlatArgumentList(text)) == SplitArguments(text)
  {
    var args := SplitArguments(text);
    ParenthesisedPieces(Join(args, ", "));
    TrimJoined(args);
  }

  /** Normalising an already normalised argument list changes nothing. */
  lemma FlatArgumentListIdempotent(text: string)
    ensures FlatArgumentList(FlatArgumentList(text)) == FlatArgumentList(text)
  {
    ArgumentsStable(text);
  }

  /** A single argument that is already trimmed and has no comma is written unchanged. */
  lemma SingleArgument(arg: string)
    requires arg != [] && Trimmed(arg) && ',' !in arg
    ensures FlatArgumentList("(" + arg + ")") == "(" + arg + ")"
  {
    var text := "(" + arg + ")";
    assert StripPrefix(text, '(') == arg + ")";
    assert StripSuffix(arg + ")", ')') == arg;
    SplitNoSeparator(arg, ',');
    TrimOfTrimmed(arg);
    assert TrimNonEmpty([arg]) == [arg];
  }

  /** Three comma-free pieces joined by commas split back into those pieces. */
  lemma SplitThree(a: string, b: string, c: string)
    requires ',' !in a && ',' !in b && ',' !in c
    ensures Split(a + [','] + b + [','] + c, ',') == [a, b, c]
  {
    assert a + [','] + b + [','] + c == a + [','] + (b + [','] + c);
    SplitAtSeparator(a, ',', b + [','] + c);
    SplitAtSeparator(b, ',', c);
    SplitNoSeparator(c, ',');
  }

  /** When no piece is blank, the trim-and-filter pipeline keeps every piece, trimmed. */
  lemma {:induction false} TrimKeepsAll(ps: seq<string>)
    requires CommaFree(ps)
    requires forall k :: 0 <= k < |ps| ==> Trim(ps[k]) != []
    ensures |TrimNonEmpty(ps)| == |ps|
    ensures forall k :: 0 <= k < |ps| ==> TrimNonEmpty(ps)[k] == Trim(ps[k])
    decreases |ps|
  {
    if |ps| > 0 {
      TrimKeepsAll(ps[1..]);
    }
  }

  /** Three pieces joined: the separator between each neighbouring pair. */
  lemma JoinThree(x: string, y: string, z: string, sep: string)
    ensures Join([x, y, z], sep) == x + sep + y + sep + z
  {
    var xs := [x, y, z];
    assert xs[1..] == [y, z];
    assert xs[1..][1..] == [z];
    assert Join(xs[1..], sep) == y + sep + z;
  }

  /** Each piece of the example list trims to its one letter. */
  lemma ExampleTrims(a: string, b: string, c: string)
    requires a == "\n  a" && b == "\n  b " && c == "c\n"
    ensures Trim(a) == "a" && Trim(b) == "b" && Trim(c) == "c"
  {
    assert LeadFrom(a, 3) == 3;
    assert LeadFrom(a, 2) == 3;
    assert LeadFrom(a, 1) == 3;
    assert LeadFrom(a, 0) == 3;
    assert TrailFrom(a, 4) == 4;
    assert LeadFrom(b, 3) == 3;
    assert LeadFrom(b, 2) == 3;
    assert LeadFrom(b, 1) == 3;
    assert LeadFrom(b, 0) == 3;
    assert TrailFrom(b, 4) == 4;
    assert TrailFrom(b, 5) == 4;
    assert LeadFrom(c, 0) == 0;
    assert TrailFrom(c, 1) == 1;
    assert TrailFrom(c, 2) == 1;
  }

  /** Three comma-free pieces between parentheses, none blank, read as their trims. */
  lemma ThreeArgumentsRead(a: string, b: string, c: string)
    requires ',' !in a && ',' !in b && ',' !in c
    requires Trim(a) != [] && Trim(b) != [] && Trim(c) != []
    ensures SplitArguments("(" + a + "," + b + "," + c + ")") == [Trim(a), Trim(b), Trim(c)]
  {
    var ps := [a, b, c];
    assert ArgumentPieces("(" + a + "," + b + "," + c + ")") == ps by {
      Regroup3(a, b, c);
      ParenthesisedPieces(a + [','] + b + [','] + c);
      SplitThree(a, b, c);
    }
    assert TrimNonEmpty(ps) == [Trim(a), Trim(b), Trim(c)] by {
      forall k | 0 <= k < |ps| ensures ',' !in ps[k] && Trim(ps[k]) != [] {
        if k == 0 { assert ps[k] == a; }
        else if k == 1 { assert ps[k] == b; }
        else { assert ps[k] == c; }
      }
      TrimKeepsAll(ps);
    }
  }

  /** Three arguments, each with any whitespace around it, come out trimmed and
      separated by ", ". */
  lemma ThreeArguments(a: string, b: string, c: string)
    requires ',' !in a && ',' !in b && ',' !in c
    requires Trim(a) != [] && Trim(b) != [] && Trim(c) != []
    ensures FlatArgumentList("(" + a + "," + b + "," + c + ")")
         == "(" + Trim(a) + ", " + Trim(b) + ", " + Trim(c) + ")"
  {
    ThreeArgumentsRead(a, b, c);
    JoinThree(Trim(a), Trim(b), Trim(c), ", ");
    Regroup(Trim(a), Trim(b), Trim(c));
  }

  /** The list text regrouped, kept apart from the facts about trimming. */
  lemma Regroup3(a: string, b: string, c: string)
    ensures "(" + a + "," + b + "," + c + ")" == "(" + (a + [','] + b + [','] + c) + ")"
  {
  }

  /** The list text regrouped, kept apart from the facts about trimming. */
  lemma Regroup(x: string, y: string, z: string)
    ensures "(" + (x + ", " + y + ", " + z) + ")" == "(" + x + ", " + y + ", " + z + ")"
  {
  }

  /** An argument list spread over lines, with stray spaces around the commas:
      `(\n  a,\n  b ,c\n)` comes out as `(a, b, c)`. */
  lemma ArgumentsExample(a: string, b: string, c: string)
    requires a == "\n  a" && b == "\n  b " && c == "c\n"
    ensures FlatArgumentList("(" + a + "," + b + "," + c + ")") == "(a, b, c)"
  {
    ExampleTrims(a, b, c);
    ThreeArguments(a, b, c);
    ExampleList(Trim(a), Trim(b), Trim(c));
  }

  /** The example's list once its arguments are trimmed. */
  lemma ExampleList(x: string, y: string, z: string)
    requires x == "a" && y == "b" && z == "c"
    ensures "(" + x + ", " + y + ", " + z + ")" == "(a, b, c)"
  {
  }

  /** Trimming and dropping blank pieces goes piece by piece: on two runs of pieces one
      after the other it gives the two results one after the other. */
  lemma {:induction false} TrimNonEmptyAppend(ps: seq<string>, qs: seq<string>)
    requires CommaFree(ps) && CommaFree(qs)
    ensures CommaFree(ps + qs)
    ensures TrimNonEmpty(ps + qs) == TrimNonEmpty(ps) + TrimNonEmpty(qs)
    decreases |ps|
  {
    forall k | 0 <= k < |ps + qs| ensures ',' !in (ps + qs)[k] {
      if k < |ps| { assert (ps + qs)[k] == ps[k]; }
      else { assert (ps + qs)[k] == qs[k - |ps|]; }
    }
    if |ps| == 0 {
      assert ps + qs == qs;
    } else {
      assert (ps + qs)[1..] == ps[1..] + qs;
      assert CommaFree(ps[1..]) by {
        forall k | 0 <= k < |ps[1..]| ensures ',' !in ps[1..][k] {
          assert ps[1..][k] == ps[k + 1];
        }
      }
      TrimNonEmptyAppend(ps[1..], qs);
    }
  }

  /** A list holding only blank text, such as `()` or `( )`, is written as `()`. */
  lemma BlankArgumentList(inner: string)
    requires ',' !in inner && Trim(inner) == []
    ensures FlatArgumentList("(" + inner + ")") == "()"
  {
    ParenthesisedPieces(inner);
    SplitNoSeparator(inner, ',');
    assert TrimNonEmpty([inner]) == [];
  }

  /** The empty list `()` is written as it stands. */
  lemma EmptyArgumentList(text: string)
    requires text == "()"
    ensures FlatArgumentList(text) == "()"
  {
    assert text == "(" + "" + ")";
    BlankArgumentList("");
  }

  /** Of three pieces, a blank middle one is dropped and the others are trimmed. */
  lemma TrimBlankMiddle(a: string, b: string, c: string)
    requires ',' !in a && ',' !in b && ',' !in c
    requires Trim(a) != [] && Trim(b) == [] && Trim(c) != []
    ensures TrimNonEmpty([a, b, c]) == [Trim(a), Trim(c)]
  {
    assert [a, b, c] == [a] + [b] + [c];
    TrimNonEmptyAppend([a], [b]);
    TrimNonEmptyAppend([a] + [b], [c]);
    assert TrimNonEmpty([a]) == [Trim(a)];
    assert TrimNonEmpty([b]) == [];
    assert TrimNonEmpty([c]) == [Trim(c)];
  }

  /** Three comma-free pieces between parentheses, the middle one blank, read as the
      trims of the other two. */
  lemma BlankArgumentRead(a: string, b: string, c: string)
    requires ',' !in a && ',' !in b && ',' !in c
    requires Trim(a) != [] && Trim(b) == [] && Trim(c) != []
    ensures SplitArguments("(" + a + "," + b + "," + c + ")") == [Trim(a), Trim(c)]
  {
    assert ArgumentPieces("(" + a + "," + b + "," + c + ")") == [a, b, c] by {
      Regroup3(a, b, c);
      ParenthesisedPieces(a + [','] + b + [','] + c);
      SplitThree(a, b, c);
    }
    TrimBlankMiddle(a, b, c);
  }

  /** A blank argument between two others is dropped along with one of its commas. */
  lemma BlankArgumentDropped(a: string, b: string, c: string)
    requires ',' !in a && ',' !in b && ',' !in c
    requires Trim(a) != [] && Trim(b) == [] && Trim(c) != []
    ensures FlatArgumentList("(" + a + "," + b + "," + c + ")") == "(" + Trim(a) + ", " + Trim(c) + ")"
  {
    BlankArgumentRead(a, b, c);
    JoinTwo(Trim(a), Trim(c), ", ");
    Regroup2(Trim(a), Trim(c));
  }

  /** Two pieces joined: the separator between them. */
  lemma JoinTwo(x: string, z: string, sep: string)
    ensures Join([x, z], sep) == x + sep + z
  {
    assert [x, z][1..] == [z];
  }

  /** The list text regrouped, kept apart from the facts about trimming. */
  lemma Regroup2(x: string, z: string)
    ensures "(" + (x + ", " + z) + ")" == "(" + x + ", " + z + ")"
  {
  }

  /** `(a,,b)` is written as `(a, b)`. */
  lemma DoubledComma(text: string)
    requires text == "(a,,b)"
    ensures FlatArgumentList(text) == "(a, b)"
  {
    DoubledCommaText(text, "a", "b");
    assert Trim("a") == "a" && Trim("b") == "b" by {
      TrimOfTrimmed("a");
      TrimOfTrimmed("b");
    }
    BlankArgumentDropped("a", "", "b");
  }

  /** The list `(a,,b)` as three pieces between commas, and its rewriting. */
  lemma DoubledCommaText(text: string, a: string, c: string)
    requires text == "(a,,b)" && a == "a" && c == "b"
    ensures text == "(" + a + "," + "" + "," + c + ")"
    ensures "(" + a + ", " + c + ")" == "(a, b)"
  {
  }

  /** The rewritten list holds a line break exactly when one of its arguments does:
      line breaks between the arguments go, those inside an argument stay. */
  lemma ArgumentLineBreaks(text: string)
    ensures var args := SplitArguments(text);
      '\n' in FlatArgumentList(text) <==> exists k :: 0 <= k < |args| && '\n' in args[k]
  {
    var args := SplitArguments(text);
    JoinHolds(args, ", ", '\n');
    assert FlatArgumentList(text) == "(" + Join(args, ", ") + ")";
  }

  /** An argument that spans two lines keeps its line break: `(a\nb)` is written as it
      stands, so the list is not always on one line. */
  lemma ArgumentLineBreakKept(arg: string)
    requires arg == "a\nb"
    ensures FlatArgumentList("(" + arg + ")") == "(a\nb)"
    ensures '\n' in FlatArgumentList("(" + arg + ")")
  {
    assert arg[0] == 'a' && arg[2] == 'b';
    assert ',' !in arg;
    SingleArgument(arg);
    assert "(" + arg + ")" == "(a\nb)";
    assert "(a\nb)"[2] == '\n';
  }
}
