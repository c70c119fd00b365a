/**
 * What a text element produces, stated over the specification functions of
 * module TextElementHandlers: each transform call reads back what it printed,
 * a transform the loop never consumes, the order in which startElement opens a
 * text block, and the balance of a whole start/end pair.
 */
module TextElementProperties {
  import opened Outcomes
  import opened Content
  import opened TransformSyntax
  import opened TextRun
  import opened TextElementHandlers

  /**
   * parseTranslate reads back any translate call it can match: it appends the
   * translation by the first number and the negated second number, and leaves
   * exactly the text after the call.
   */
  lemma {:induction false} TranslateRoundTrip(ps: Patterns, xs: seq<Piece>, rest: string)
    requires Compiled(ps) && FitsAll(ps.translate, xs)
    requires rest == [] || !IsWsp(rest[0])
    ensures TranslateStep(ps.translate, Text(ps.translate, xs) + rest) ==
      Success(([TranslationBy(Values(Numbers(ps.translate, xs)))], rest))
  {
    PatternRoundTrip(ps.translate, xs, rest);
    TranslateOf(ps.translate, Text(ps.translate, xs) + rest, xs, rest);
  }

  /** parseTranslate once the pattern has matched: the translation by the groups, and the rest. */
  lemma {:induction false} TranslateOf(p: seq<Item>, s: string, xs: seq<Piece>, rest: string)
    requires NumberCount(p) == 2 && Leads(p) && Match(p, s) == Some((xs, rest))
    ensures TranslateStep(p, s) == Success(([TranslationBy(Values(Numbers(p, xs)))], rest))
  {
  }

  /**
   * parseRotate reads back any rotate call it can match: with the page height
   * available it appends the three operators of the rotation by the number.
   */
  lemma {:induction false} RotateRoundTrip(ps: Patterns, xs: seq<Piece>, rest: string, atts: Attributes, trig: Trig, height: real)
    requires Compiled(ps) && FitsAll(ps.rotate, xs)
    requires rest == [] || !IsWsp(rest[0])
    requires ValueAsDouble(atts, "pageHeight") == Success(height)
    ensures var v := Values(Numbers(ps.rotate, xs));
      RotateStep(ps.rotate, Text(ps.rotate, xs) + rest, atts, trig) == Success((RotationOps(v[0], height, trig), rest))
  {
    PatternRoundTrip(ps.rotate, xs, rest);
    RotateOf(ps.rotate, Text(ps.rotate, xs) + rest, xs, rest, atts, trig, height);
  }

  /** parseRotate once the pattern has matched and the page height is read. */
  lemma {:induction false} RotateOf(p: seq<Item>, s: string, xs: seq<Piece>, rest: string, atts: Attributes, trig: Trig, height: real)
    requires NumberCount(p) == 1 && Leads(p) && Match(p, s) == Some((xs, rest))
    requires ValueAsDouble(atts, "pageHeight") == Success(height)
    ensures RotateStep(p, s, atts, trig) == Success((RotationOps(Values(Numbers(p, xs))[0], height, trig), rest))
  {
  }

  /**
   * As written, a transform whose first character is neither 'r' nor 't'
   * matches no case of parseTransform's switch and is never consumed: the loop
   * does not end.
   */
  lemma {:induction false} UnknownTransformLoops(s: string, ps: Patterns, atts: Attributes, trig: Trig)
    requires Compiled(ps)
    requires s != [] && s[0] != 'r' && s[0] != 't'
    ensures ChainAsWritten(s, ps, atts, trig) == Emitted([], LoopsForever)
    ensures ChainAsWritten("skew(5)", ps, atts, trig) == Emitted([], LoopsForever)
    ensures ChainAsWritten(" " + s, ps, atts, trig) == Emitted([], LoopsForever)
  {
  }

  /**
   * Corrected, such a transform throws UnknownTransform and appends nothing
   * for it; the calls before it keep what they appended.
   */
  lemma {:induction false} UnknownTransformRejected(s: string, ps: Patterns, atts: Attributes, trig: Trig)
    requires Compiled(ps)
    requires s != [] && s[0] != 'r' && s[0] != 't'
    ensures Chain(s, ps, atts, trig) == Emitted([], Failed(UnknownTransform))
    ensures Chain("skew(5)", ps, atts, trig) == Emitted([], Failed(UnknownTransform))
    ensures Chain(" " + s, ps, atts, trig) == Emitted([], Failed(UnknownTransform))
  {
  }

  /** When startElement ends normally, every attribute it reads was readable. */
  lemma {:induction false} OpenTextReadable(atts: Attributes, ps: Patterns, trig: Trig)
    requires Compiled(ps)
    requires OpenText(atts, ps, trig).status == Done
    ensures TransformOps(atts, ps, trig).status == Done
    ensures TextFont(atts).Success? && TextOrigin(atts).Success?
    ensures "font-family" in atts.values && "font-weight" in atts.values
    ensures ValueAsDouble(atts, "font-size").Success?
    ensures ValueAsDouble(atts, "pageHeight").Success?
    ensures ValueAsDouble(atts, "x").Success? && ValueAsDouble(atts, "y").Success?
  {
    assert TransformOps(atts, ps, trig).status == Done;
    assert TextFont(atts).Success?;
  }

  /**
   * When startElement ends normally, it has appended, in this order: q, BT, the
   * transform's cm operators, the black fill, the font of the text, and the
   * text position (x, pageHeight - y); every attribute it reads was readable.
   */
  lemma {:induction false} OpenTextOrder(atts: Attributes, ps: Patterns, trig: Trig)
    requires Compiled(ps)
    requires OpenText(atts, ps, trig).status == Done
    ensures TransformOps(atts, ps, trig).status == Done
    ensures "font-family" in atts.values && "font-weight" in atts.values
    ensures ValueAsDouble(atts, "font-size").Success?
    ensures ValueAsDouble(atts, "pageHeight").Success?
    ensures ValueAsDouble(atts, "x").Success? && ValueAsDouble(atts, "y").Success?
    ensures var size := ValueAsDouble(atts, "font-size").value;
      var font := AwtFont(WithoutQuotes(atts.values["font-family"]), atts.values["font-weight"] == "bold", Round(size));
      var x := ValueAsDouble(atts, "x").value;
      var y := ValueAsDouble(atts, "y").value;
      var h := ValueAsDouble(atts, "pageHeight").value;
      OpenText(atts, ps, trig).ops ==
        [Save, BeginText] + TransformOps(atts, ps, trig).ops + [SetGray(0.0), SelectFont(font, size), TextPosition(x, h - y)]
  {
    OpenTextReadable(atts, ps, trig);
    var style := TextFont(atts).value;
    var origin := TextOrigin(atts).value;
    var head := [Save, BeginText] + TransformOps(atts, ps, trig).ops;
    var font := SelectFont(style.0, style.1);
    var position := TextPosition(origin.0, origin.1);
    assert OpenText(atts, ps, trig).ops == head + [SetGray(0.0), font] + [position];
    assert head + [SetGray(0.0), font] + [position] == head + [SetGray(0.0), font, position];
  }

  /** A transform chain holds only cm operators, so it opens and closes no bracket. */
  lemma {:induction false} ConcatsFree(ops: seq<Operator>, open: Operator, close: Operator)
    requires AllConcat(ops) && !open.Concat? && !close.Concat?
    ensures Free(ops, open, close)
  {
  }

  /** q BT (text state) (shown text) ET Q, with the Symbol brackets inside the shown text. */
  lemma {:induction false} SaveBracketsBalanced(mid: seq<Operator>, scan: seq<Operator>)
    requires Free(mid, Save, Restore) && Balanced(scan, Save, Restore)
    ensures Balanced([Save, BeginText] + mid + scan + [EndText, Restore], Save, Restore)
  {
    var inner := [BeginText] + mid + scan + [EndText];
    assert Free([BeginText] + mid, Save, Restore);
    FreeBalanced([BeginText] + mid, Save, Restore);
    FreeBalanced([EndText], Save, Restore);
    BalancedConcat([BeginText] + mid, scan, Save, Restore);
    BalancedConcat([BeginText] + mid + scan, [EndText], Save, Restore);
    BalancedWrap(inner, Save, Restore);
    assert [Save, BeginText] + mid + scan + [EndText, Restore] == [Save] + inner + [Restore];
  }

  lemma {:induction false} TextBracketsBalanced(mid: seq<Operator>, scan: seq<Operator>)
    requires Free(mid, BeginText, EndText) && Free(scan, BeginText, EndText)
    ensures Balanced([Save, BeginText] + mid + scan + [EndText, Restore], BeginText, EndText)
  {
    var inner := [BeginText] + (mid + scan) + [EndText];
    assert Free(mid + scan, BeginText, EndText);
    FreeBalanced(mid + scan, BeginText, EndText);
    BalancedWrap(mid + scan, BeginText, EndText);
    FreeBalanced([Save], BeginText, EndText);
    FreeBalanced([Restore], BeginText, EndText);
    BalancedConcat([Save], inner, BeginText, EndText);
    BalancedConcat([Save] + inner, [Restore], BeginText, EndText);
    assert [Save, BeginText] + mid + scan + [EndText, Restore] == [Save] + inner + [Restore];
  }

  lemma {:induction false} FreeConcat(a: seq<Operator>, b: seq<Operator>, open: Operator, close: Operator)
    requires Free(a, open, close) && Free(b, open, close)
    ensures Free(a + b, open, close)
  {
    forall k | 0 <= k < |a + b|
      ensures (a + b)[k] != open && (a + b)[k] != close
    {
      if k >= |a| {
        assert (a + b)[k] == b[k - |a|];
      }
    }
  }

  /** After its q and BT, a normally ending startElement opens and closes no bracket. */
  lemma {:induction false} OpenTextFree(atts: Attributes, ps: Patterns, trig: Trig)
    requires Compiled(ps)
    requires OpenText(atts, ps, trig).status == Done
    ensures ValueAsDouble(atts, "font-size").Success?
    ensures var ops := OpenText(atts, ps, trig).ops;
      |ops| >= 2 && ops == [Save, BeginText] + ops[2..] &&
      Free(ops[2..], Save, Restore) && Free(ops[2..], BeginText, EndText)
  {
    var chain := TransformOps(atts, ps, trig).ops;
    var tail := OpenTextSplit(atts, ps, trig);
    var ops := OpenText(atts, ps, trig).ops;
    assert ops[2..] == chain + tail;
    StyleFree(tail);
    ConcatsFree(chain, Save, Restore);
    ConcatsFree(chain, BeginText, EndText);
    FreeConcat(chain, tail, Save, Restore);
    FreeConcat(chain, tail, BeginText, EndText);
  }

  /** The fill, the font and the position are no brackets. */
  lemma {:induction false} StyleFree(tail: seq<Operator>)
    requires |tail| == 3 && tail[0] == SetGray(0.0) && tail[1].SelectFont? && tail[2].TextPosition?
    ensures Free(tail, Save, Restore) && Free(tail, BeginText, EndText)
  {
  }

  /** A normal startElement's output: q, BT, the transform chain, then the fill, the font and the position. */
  lemma {:induction false} OpenTextSplit(atts: Attributes, ps: Patterns, trig: Trig) returns (tail: seq<Operator>)
    requires Compiled(ps)
    requires OpenText(atts, ps, trig).status == Done
    ensures ValueAsDouble(atts, "font-size").Success?
    ensures OpenText(atts, ps, trig).ops == [Save, BeginText] + (TransformOps(atts, ps, trig).ops + tail)
    ensures |tail| == 3 && tail[0] == SetGray(0.0) && tail[1].SelectFont? && tail[2].TextPosition?
  {
    var font := TextFont(atts).value;
    var origin := TextOrigin(atts).value;
    tail := [SetGray(0.0), SelectFont(font.0, font.1), TextPosition(origin.0, origin.1)];
    Assoc([Save, BeginText], TransformOps(atts, ps, trig).ops, tail);
  }

  /**
   * A text element that opens and closes normally writes a stream in which
   * every q is closed by a Q and every BT by an ET, the Symbol brackets of the
   * characters above 657 included.
   */
  lemma {:induction false} ElementBalanced(atts: Attributes, ps: Patterns, trig: Trig, text: string)
    requires Compiled(ps)
    requires OpenText(atts, ps, trig).status == Done
    ensures var ops := OpenText(atts, ps, trig).ops + Scan([], text, ValueAsDouble(atts, "font-size")) + [EndText, Restore];
      Balanced(ops, Save, Restore) && Balanced(ops, BeginText, EndText)
  {
    OpenTextFree(atts, ps, trig);
    var started := OpenText(atts, ps, trig).ops;
    var mid := started[2..];
    var size := ValueAsDouble(atts, "font-size").value;
    var scan := Scan([], text, Success(size));
    ScanBalanced([], text, size);
    SaveBracketsBalanced(mid, scan);
    TextBracketsBalanced(mid, scan);
    assert started + scan + [EndText, Restore] == [Save, BeginText] + mid + scan + [EndText, Restore];
  }

  /**
   * The text `x=λ`: the segment before the lambda, its Symbol bracket showing
   * "l", then the (empty) segment after it, which starts with the two spaces
   * inserted into the buffer.
   */
  lemma {:induction false} LambdaExample(size: real)
    ensures Scan([], "x=λ", Success(size)) ==
      [ShowText("x="), Save, SelectFont(NamedFont("Symbol"), size), ShowText("l"), Restore, ShowText("  ")]
  {
    var fontSize := Success(size);
    assert "x=λ"[1..] == "=λ" && "=λ"[1..] == "λ" && "λ"[1..] == [];
    assert [] + ['x'] == "x" && "x" + ['='] == "x=";
    assert Scan([], "x=λ", fontSize) == Scan("x", "=λ", fontSize);
    assert Scan("x", "=λ", fontSize) == Scan("x=", "λ", fontSize);
    assert Marks('λ', size) == [Save, SelectFont(NamedFont("Symbol"), size), ShowText("l"), Restore];
    assert Scan(Padding, [], fontSize) == [ShowText("  ")];
    assert Scan("x=", "λ", fontSize) == [ShowText("x=")] + Marks('λ', size) + Scan(Padding, [], fontSize);
  }

  /** The buffer of `x=λ` after the scan: the lambda gains its two spaces. */
  lemma {:induction false} LambdaExpanded()
    ensures Expand("x=λ") == "x=λ  "
  {
    var t := "x=λ";
    assert t[1..] == "=λ" && t[1..][1..] == "λ" && t[1..][1..][1..] == [];
    assert Expand(t[1..][1..]) == "λ  ";
  }
}
