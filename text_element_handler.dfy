/**
 * The handler for text elements. Opening the element writes q, BT, the
 * element's transform chain as cm operators, a black fill, the font and the
 * text position; character data is buffered; closing the element splits the
 * buffer into show-text runs (module TextRun) and writes ET and Q.
 */
module TextElementHandlers {
  import opened Outcomes
  import opened Content
  import opened TransformSyntax
  import opened TextRun

  /** Math.PI, Math.cos and Math.sin: floating-point, external to the core. */
  datatype Trig = Trig(pi: real, cos: real -> real, sin: real -> real)

  /** What a sequence of appends produced, and how the call ended. */
  datatype Emitted = Emitted(ops: seq<Operator>, status: Status)

  /** The handler's two compiled patterns (_translatePattern, _rotatePattern). */
  datatype Patterns = Patterns(translate: seq<Item>, rotate: seq<Item>)

  /** The patterns the constructor compiles. */
  const SourcePatterns: Patterns := Patterns(TranslatePattern, RotatePattern)

  /** A pattern that starts with a non-empty word, so every match consumes input. */
  predicate Leads(p: seq<Item>) {
    p != [] && p[0].Word? && p[0].text != []
  }

  /**
   * What the handler relies on of its patterns: two groups in the translate
   * pattern, one in the rotate pattern, each led by its name, and neither
   * letting one item run into the next.
   */
  predicate Compiled(ps: Patterns) {
    NumberCount(ps.translate) == 2 && NumberCount(ps.rotate) == 1 &&
    Leads(ps.translate) && Leads(ps.rotate) &&
    Separated(ps.translate) && Separated(ps.rotate)
  }

  lemma {:induction false} SourceCompiled()
    ensures Compiled(SourcePatterns)
  {
    assert Separated(TranslatePattern) by {
      assert Separated([Word("translate"), Word("("), Number, Word(","), Number, Word(")")]);
    }
    assert Separated(RotatePattern) by {
      assert Separated([Word("rotate"), Word("("), Number, Word(")")]);
    }
  }

  /** The cm operator of a pure translation by (tx, ty). */
  function Translation(tx: real, ty: real): (m: Operator)
    ensures m.Concat? && forall x: real, y: real :: Apply(m, x, y) == (x + tx, y + ty)
  {
    Concat(1.0, 0.0, 0.0, 1.0, tx, ty)
  }

  /** The cm of translate(tx, ty) from its two groups: by tx, and by ty negated. */
  function TranslationBy(v: seq<real>): (m: Operator)
    requires |v| == 2
    ensures m.Concat? && forall x: real, y: real :: Apply(m, x, y) == (x + v[0], y - v[1])
  {
    Translation(v[0], -1.0 * v[1])
  }

  /** The angle parseRotate rotates by: the given degrees, negated, in radians. */
  function RotationRadians(degrees: real, pi: real): (theta: real)
    ensures theta * 180.0 == -(degrees * pi)
  {
    -1.0 * degrees * pi / 180.0
  }

  /**
   * The three cm operators parseRotate appends for rotate(angle): up by the page
   * height, the rotation by the negated angle in radians, down again.
   */
  function RotationOps(angle: real, pageHeight: real, trig: Trig): (r: seq<Operator>)
    ensures |r| == 3 && r[0] == Translation(0.0, pageHeight) && r[2] == Translation(0.0, -pageHeight)
  {
    var theta := RotationRadians(angle, trig.pi);
    [Translation(0.0, pageHeight),
     Concat(trig.cos(theta), trig.sin(theta), -1.0 * trig.sin(theta), trig.cos(theta), 0.0, 0.0),
     Translation(0.0, -1.0 * pageHeight)]
  }

  predicate AllConcat(ops: seq<Operator>) {
    forall k :: 0 <= k < |ops| ==> ops[k].Concat?
  }

  /**
   * parseTranslate on `s`: the cm operator it appends and the text after the
   * call, or the exception it throws when `s` does not start with a translate call.
   */
  function TranslateStep(p: seq<Item>, s: string): (r: Result<(seq<Operator>, string)>)
    requires NumberCount(p) == 2 && Leads(p)
    ensures r.Success? ==> |r.value.1| < |s| && AllConcat(r.value.0)
    ensures r.Failure? ==> r.error == IllegalArgument("Unrecognized translate format")
  {
    var m := Match(p, s);
    if m.None? then
      Failure(IllegalArgument("Unrecognized translate format"))
    else
      Success(([TranslationBy(Values(Numbers(p, m.value.0)))], m.value.1))
  }

  /**
   * parseRotate on `s`: the three cm operators it appends and the text after the
   * call; it throws when `s` does not start with a rotate call, or when the
   * page height cannot be read (before anything is appended).
   */
  function RotateStep(p: seq<Item>, s: string, atts: Attributes, trig: Trig): (r: Result<(seq<Operator>, string)>)
    requires NumberCount(p) == 1 && Leads(p)
    ensures r.Success? ==> |r.value.1| < |s| && AllConcat(r.value.0)
    ensures r.Failure? ==>
      r.error == IllegalArgument("Unrecognized rotate format") || ValueAsDouble(atts, "pageHeight") == Failure(r.error)
  {
    var m := Match(p, s);
    if m.None? then
      Failure(IllegalArgument("Unrecognized rotate format"))
    else
      var angle := Values(Numbers(p, m.value.0))[0];
      match ValueAsDouble(atts, "pageHeight")
      case Failure(err) => Failure(err)
      case Success(height) => Success((RotationOps(angle, height, trig), m.value.1))
  }

  /** The exception for a transform whose head is neither 'r' nor 't'. */
  const UnknownTransform: Error := IllegalArgument("Unrecognized transform format")

  /**
   * parseTransform's loop, from the transform text still to be parsed: what it
   * appends and how it ends. A head character other than 'r' or 't' throws
   * UnknownTransform, as the two parse methods do for a call they do not
   * recognise; the code as written has no such case and loops (ChainAsWritten).
   * Every run of the loop ends, normally or by an exception.
   */
  function Chain(s: string, ps: Patterns, atts: Attributes, trig: Trig): (e: Emitted)
    requires Compiled(ps)
    ensures AllConcat(e.ops)
    ensures e.status == Done || e.status.Failed?
    decreases |s|
  {
    if s == [] then
      Emitted([], Done)
    else if s[0] == 'r' || s[0] == 't' then
      match if s[0] == 'r' then RotateStep(ps.rotate, s, atts, trig) else TranslateStep(ps.translate, s)
      case Failure(err) => Emitted([], Failed(err))
      case Success((ops, rest)) =>
        var tail := Chain(rest, ps, atts, trig);
        Emitted(ops + tail.ops, tail.status)
    else
      Emitted([], Failed(UnknownTransform))
  }

  /**
   * parseTransform's loop as the code has it: the switch has no default case,
   * so a head character other than 'r' or 't' is never consumed and the loop
   * never ends.
   */
  function ChainAsWritten(s: string, ps: Patterns, atts: Attributes, trig: Trig): (e: Emitted)
    requires Compiled(ps)
    ensures AllConcat(e.ops)
    ensures e.status != Done ==> e.status == LoopsForever || e.status.Failed?
    decreases |s|
  {
    if s == [] then
      Emitted([], Done)
    else if s[0] == 'r' || s[0] == 't' then
      match if s[0] == 'r' then RotateStep(ps.rotate, s, atts, trig) else TranslateStep(ps.translate, s)
      case Failure(err) => Emitted([], Failed(err))
      case Success((ops, rest)) =>
        var tail := ChainAsWritten(rest, ps, atts, trig);
        Emitted(ops + tail.ops, tail.status)
    else
      Emitted([], LoopsForever)
  }

  /**
   * The correction changes only how the loop ends, and only where the code
   * loops: both append the same operators, the corrected chain throws
   * UnknownTransform exactly where the code loops forever, and otherwise
   * both end alike.
   */
  lemma {:induction false} ChainCorrection(s: string, ps: Patterns, atts: Attributes, trig: Trig)
    requires Compiled(ps)
    ensures ChainAsWritten(s, ps, atts, trig).ops == Chain(s, ps, atts, trig).ops
    ensures ChainAsWritten(s, ps, atts, trig).status == LoopsForever <==>
      Chain(s, ps, atts, trig).status == Failed(UnknownTransform)
    ensures ChainAsWritten(s, ps, atts, trig).status != LoopsForever ==>
      ChainAsWritten(s, ps, atts, trig).status == Chain(s, ps, atts, trig).status
    decreases |s|
  {
    if s != [] && (s[0] == 'r' || s[0] == 't') {
      var step := if s[0] == 'r' then RotateStep(ps.rotate, s, atts, trig) else TranslateStep(ps.translate, s);
      if step.Success? {
        ChainCorrection(step.value.1, ps, atts, trig);
      } else {
        assert step.error != UnknownTransform;
      }
    }
  }

  /** One call of the chain: its operators come first, then the rest of the chain's. */
  lemma {:induction false} ChainStep(s: string, ps: Patterns, atts: Attributes, trig: Trig)
    requires Compiled(ps) && s != [] && (s[0] == 'r' || s[0] == 't')
    ensures var step := if s[0] == 'r' then RotateStep(ps.rotate, s, atts, trig) else TranslateStep(ps.translate, s);
      (step.Failure? ==> Chain(s, ps, atts, trig) == Emitted([], Failed(step.error))) &&
      (step.Success? ==>
        Chain(s, ps, atts, trig).ops == step.value.0 + Chain(step.value.1, ps, atts, trig).ops &&
        Chain(s, ps, atts, trig).status == Chain(step.value.1, ps, atts, trig).status)
  {
  }

  /**
   * parseTransform's loop invariant, carried over one call: `done` is what the
   * calls before `s` appended to the chain of `whole`.
   */
  lemma {:induction false} ChainAdvance(whole: string, s: string, done: seq<Operator>, ps: Patterns, atts: Attributes, trig: Trig)
    requires Compiled(ps) && s != [] && (s[0] == 'r' || s[0] == 't')
    requires Chain(whole, ps, atts, trig).ops == done + Chain(s, ps, atts, trig).ops
    requires Chain(whole, ps, atts, trig).status == Chain(s, ps, atts, trig).status
    ensures var step := if s[0] == 'r' then RotateStep(ps.rotate, s, atts, trig) else TranslateStep(ps.translate, s);
      (step.Failure? ==>
        Chain(whole, ps, atts, trig).ops == done && Chain(whole, ps, atts, trig).status == Failed(step.error)) &&
      (step.Success? ==>
        Chain(whole, ps, atts, trig).ops == (done + step.value.0) + Chain(step.value.1, ps, atts, trig).ops &&
        Chain(whole, ps, atts, trig).status == Chain(step.value.1, ps, atts, trig).status)
  {
    ChainStep(s, ps, atts, trig);
    var step := if s[0] == 'r' then RotateStep(ps.rotate, s, atts, trig) else TranslateStep(ps.translate, s);
    if step.Success? {
      Assoc(done, step.value.0, Chain(step.value.1, ps, atts, trig).ops);
    } else {
      assert done + [] == done;
    }
  }

  /**
   * One iteration of endElement's loop, stated on the operators emitted so far
   * (`before`) and the buffer `t` as it stands: the loop's invariants hold again
   * at i + 1 once the character's operators are appended and the buffer padded.
   */
  lemma {:induction false} ScanLoopStep(before: seq<Operator>, target: seq<Operator>, expanded: string,
                     t: string, start: nat, i: nat, fontSize: Result<real>)
    requires start <= i < |t| && !(IsSymbol(t[i]) && fontSize.Failure?)
    requires before + Scan(t[start..i], t[i..], fontSize) == target
    requires t[..i] + Expand(t[i..]) == expanded
    ensures IsAscii(t[i]) ==> before + Scan(t[start..i + 1], t[i + 1..], fontSize) == target
    ensures var u := Padded(t, i);
      !IsAscii(t[i]) ==>
        (before + ([ShowText(t[start..i])] + Marks(t[i], if IsSymbol(t[i]) then fontSize.value else 0.0)))
        + Scan(u[i + 1..i + 1], u[i + 1..], fontSize) == target
    ensures var u := Padded(t, i);
      u[..i + 1] + Expand(u[i + 1..]) == expanded &&
      |u| - (i + 1) + 2 * SymbolCount(u[i + 1..]) < |t| - i + 2 * SymbolCount(t[i..])
  {
    ScanAdvance(t, start, i, fontSize);
    ExpandAdvance(t, i);
    var u := Padded(t, i);
    if !IsAscii(t[i]) {
      var emitted := [ShowText(t[start..i])] + Marks(t[i], if IsSymbol(t[i]) then fontSize.value else 0.0);
      Assoc(before, emitted, Scan(u[i + 1..i + 1], u[i + 1..], fontSize));
    } else {
      assert [] + Scan(t[start..i + 1], t[i + 1..], fontSize) == Scan(t[start..i + 1], t[i + 1..], fontSize);
    }
  }

  /** At the end of the buffer, the scan shows the segment begun at `start`. */
  lemma {:induction false} ScanEnd(t: string, start: nat, fontSize: Result<real>)
    requires start <= |t|
    ensures Scan(t[start..|t|], t[|t|..], fontSize) == [ShowText(t[start..])]
  {
    assert t[|t|..] == [] && t[start..|t|] == t[start..];
  }

  /** parseTransform: a missing (null) transform attribute appends nothing. */
  function TransformOps(atts: Attributes, ps: Patterns, trig: Trig): (e: Emitted)
    requires Compiled(ps)
    ensures AllConcat(e.ops)
    ensures e.status == Done || e.status.Failed?
    ensures "transform" !in atts.values ==> e == Emitted([], Done)
  {
    match Value(atts, "transform")
    case None => Emitted([], Done)
    case Some(s) => Chain(s, ps, atts, trig)
  }

  /** getValue for an attribute the code dereferences: null throws. */
  function Required(atts: Attributes, name: string): (r: Result<string>)
    ensures r.Success? <==> name in atts.values
    ensures r.Success? ==> r.value == atts.values[name]
    ensures r.Failure? ==> r.error == MissingAttribute(name)
  {
    match Value(atts, name)
    case None => Failure(MissingAttribute(name))
    case Some(v) => Success(v)
  }

  /** String.replaceAll("'", ""): the text with every single quote removed. */
  function WithoutQuotes(s: string): (r: string)
    ensures forall c :: c in r <==> c in s && c != '\''
    ensures multiset(r) == multiset(s)['\'' := 0]
    ensures |r| <= |s|
    ensures '\'' !in s ==> r == s
  {
    if s == [] then []
    else
      assert s == [s[0]] + s[1..];
      if s[0] == '\'' then WithoutQuotes(s[1..])
      else [s[0]] + WithoutQuotes(s[1..])
  }

  /** A single character is kept exactly when it is not a quote. */
  lemma {:induction false} WithoutQuotesChar(c: char)
    ensures WithoutQuotes([c]) == if c == '\'' then [] else [c]
  {
    assert [c][1..] == [];
  }

  /**
   * WithoutQuotes distributes over concatenation: with WithoutQuotesChar, the
   * characters other than quotes are all kept, in order.
   */
  lemma {:induction false} WithoutQuotesConcat(a: string, b: string)
    ensures WithoutQuotes(a + b) == WithoutQuotes(a) + WithoutQuotes(b)
    decreases |a|
  {
    if a == [] {
      assert a + b == b;
    } else {
      assert (a + b)[0] == a[0] && (a + b)[1..] == a[1..] + b;
      WithoutQuotesConcat(a[1..], b);
    }
  }

  /** (int) Math.round(x): the nearest integer, halves rounded up. */
  function Round(x: real): (r: int)
    ensures x - 0.5 < r as real <= x + 0.5
  {
    (x + 0.5).Floor
  }

  /**
   * The font of the text and its size: font-family without quotes, bold exactly
   * when font-weight is "bold", the point size rounded. The attributes are read
   * in the source's order: font-family, font-size, font-weight.
   */
  function TextFont(atts: Attributes): (r: Result<(FontRef, real)>)
    ensures r.Success? <==>
      "font-family" in atts.values && ValueAsDouble(atts, "font-size").Success? && "font-weight" in atts.values
    ensures r.Failure? ==>
      r.error == (if "font-family" !in atts.values then MissingAttribute("font-family")
                  else if ValueAsDouble(atts, "font-size").Failure? then ValueAsDouble(atts, "font-size").error
                  else MissingAttribute("font-weight"))
    ensures r.Success? ==>
      r.value.1 == ValueAsDouble(atts, "font-size").value && r.value.0.AwtFont? &&
      (r.value.0.bold <==> atts.values["font-weight"] == "bold")
  {
    var family :- Required(atts, "font-family");
    var size :- ValueAsDouble(atts, "font-size");
    var weight :- Required(atts, "font-weight");
    Success((AwtFont(WithoutQuotes(family), weight == "bold", Round(size)), size))
  }

  /** The text position (x, pageHeight - y); pageHeight is read first, then x, then y. */
  function TextOrigin(atts: Attributes): (r: Result<(real, real)>)
    ensures r.Success? <==>
      ValueAsDouble(atts, "pageHeight").Success? && ValueAsDouble(atts, "x").Success? && ValueAsDouble(atts, "y").Success?
    ensures r.Failure? ==>
      r.error == (if ValueAsDouble(atts, "pageHeight").Failure? then ValueAsDouble(atts, "pageHeight").error
                  else if ValueAsDouble(atts, "x").Failure? then ValueAsDouble(atts, "x").error
                  else ValueAsDouble(atts, "y").error)
    ensures r.Success? ==>
      r.value == (ValueAsDouble(atts, "x").value, ValueAsDouble(atts, "pageHeight").value - ValueAsDouble(atts, "y").value)
  {
    var height :- ValueAsDouble(atts, "pageHeight");
    var x :- ValueAsDouble(atts, "x");
    var y :- ValueAsDouble(atts, "y");
    Success((x, height - y))
  }

  /** What startElement appends, up to the first exception. */
  function OpenText(atts: Attributes, ps: Patterns, trig: Trig): (e: Emitted)
    requires Compiled(ps)
    ensures |e.ops| >= 2 && e.ops[0] == Save && e.ops[1] == BeginText
    ensures e.status == Done || e.status.Failed?
    ensures e.status == Done ==> e.ops[|e.ops| - 1].TextPosition?
  {
    var chain := TransformOps(atts, ps, trig);
    var head := [Save, BeginText] + chain.ops;
    if chain.status != Done then
      Emitted(head, chain.status)
    else
      match TextFont(atts)
      case Failure(err) => Emitted(head, Failed(err))
      case Success((font, size)) =>
        var styled := head + [SetGray(0.0), SelectFont(font, size)];
        match TextOrigin(atts)
        case Failure(err) => Emitted(styled, Failed(err))
        case Success((x, y)) => Emitted(styled + [TextPosition(x, y)], Done)
  }

  class TextElementHandler {
    const atts: Attributes
    const trig: Trig
    /** The compiled transform patterns. */
    const patterns: Patterns
    /** The stream object the operators are appended to (_object). */
    var stream: seq<Operator>
    /** The buffered character data (_tagContents). */
    var tagContents: string

    predicate Valid() {
      Compiled(patterns)
    }

    constructor (atts: Attributes, trig: Trig)
      ensures this.atts == atts && this.trig == trig && patterns == SourcePatterns
      ensures stream == [] && tagContents == []
      ensures Valid()
    {
      this.atts := atts;
      this.trig := trig;
      patterns := SourcePatterns;
      stream := [];
      tagContents := [];
      SourceCompiled();
    }

    /** parseTranslate: one translate call at the head of `s`; the text after it. */
    method ParseTranslate(s: string) returns (r: Result<string>)
      requires Valid()
      modifies this`stream
      ensures r.Success? <==> TranslateStep(patterns.translate, s).Success?
      ensures r.Success? ==>
        r.value == TranslateStep(patterns.translate, s).value.1 &&
        stream == old(stream) + TranslateStep(patterns.translate, s).value.0
      ensures r.Failure? ==> r.error == TranslateStep(patterns.translate, s).error && stream == old(stream)
    {
      var m := Match(patterns.translate, s);
      if m.Some? {
        var groups := Values(Numbers(patterns.translate, m.value.0));
        var tx := groups[0];
        var ty := -1.0 * groups[1];
        stream := stream + [Translation(tx, ty)];
        r := Success(m.value.1);
      } else {
        r := Failure(IllegalArgument("Unrecognized translate format"));
      }
    }

    /** parseRotate: one rotate call at the head of `s`; the text after it. */
    method ParseRotate(s: string) returns (r: Result<string>)
      requires Valid()
      modifies this`stream
      ensures r.Success? <==> RotateStep(patterns.rotate, s, atts, trig).Success?
      ensures r.Success? ==>
        r.value == RotateStep(patterns.rotate, s, atts, trig).value.1 &&
        stream == old(stream) + RotateStep(patterns.rotate, s, atts, trig).value.0
      ensures r.Failure? ==> r.error == RotateStep(patterns.rotate, s, atts, trig).error && stream == old(stream)
    {
      var m := Match(patterns.rotate, s);
      if m.None? {
        return Failure(IllegalArgument("Unrecognized rotate format"));
      }
      var angle := Values(Numbers(patterns.rotate, m.value.0))[0];
      var height := ValueAsDouble(atts, "pageHeight");
      if height.Failure? {
        return Failure(height.error);
      }
      var theta := RotationRadians(angle, trig.pi);
      stream := stream + [Concat(1.0, 0.0, 0.0, 1.0, 0.0, height.value)];
      stream := stream + [Concat(trig.cos(theta), trig.sin(theta), -1.0 * trig.sin(theta), trig.cos(theta), 0.0, 0.0)];
      stream := stream + [Concat(1.0, 0.0, 0.0, 1.0, 0.0, -1.0 * height.value)];
      r := Success(m.value.1);
    }

    /**
     * parseTransform: consume the transform attribute call by call; a call
     * that is neither a rotate nor a translate throws UnknownTransform.
     */
    method ParseTransform() returns (status: Status)
      requires Valid()
      modifies this`stream
      ensures stream == old(stream) + TransformOps(atts, patterns, trig).ops
      ensures status == TransformOps(atts, patterns, trig).status
    {
      var transform := Value(atts, "transform");
      if transform.None? {
        return Done;
      }
      var s := transform.value;
      ghost var done: seq<Operator> := [];
      while s != []
        invariant stream == old(stream) + done
        invariant Chain(transform.value, patterns, atts, trig).ops == done + Chain(s, patterns, atts, trig).ops
        invariant Chain(transform.value, patterns, atts, trig).status == Chain(s, patterns, atts, trig).status
        decreases |s|
      {
        if s[0] != 'r' && s[0] != 't' {
          return Failed(UnknownTransform);
        }
        ChainAdvance(transform.value, s, done, patterns, atts, trig);
        ghost var step := if s[0] == 'r' then RotateStep(patterns.rotate, s, atts, trig) else TranslateStep(patterns.translate, s);
        var r;
        if s[0] == 'r' {
          r := ParseRotate(s);
        } else {
          r := ParseTranslate(s);
        }
        if r.Failure? {
          return Failed(r.error);
        }
        assert stream == (old(stream) + done) + step.value.0 && r.value == step.value.1;
        Assoc(old(stream), done, step.value.0);
        done := done + step.value.0;
        s := r.value;
      }
      assert done + [] == done;
      return Done;
    }

    /** startElement: open the save and text brackets, transform, colour, font and position. */
    method StartElement() returns (status: Status)
      requires Valid()
      modifies this`stream
      ensures stream == old(stream) + OpenText(atts, patterns, trig).ops
      ensures status == OpenText(atts, patterns, trig).status
    {
      stream := stream + [Save, BeginText];
      status := ParseTransform();
      ghost var chain := TransformOps(atts, patterns, trig);
      ghost var head := [Save, BeginText] + chain.ops;
      Assoc(old(stream), [Save, BeginText], chain.ops);
      assert stream == old(stream) + head;
      if status != Done {
        return;
      }
      var font := TextFont(atts);
      if font.Failure? {
        assert OpenText(atts, patterns, trig) == Emitted(head, Failed(font.error));
        return Failed(font.error);
      }
      ghost var styled := head + [SetGray(0.0), SelectFont(font.value.0, font.value.1)];
      stream := stream + [SetGray(0.0), SelectFont(font.value.0, font.value.1)];
      Assoc(old(stream), head, [SetGray(0.0), SelectFont(font.value.0, font.value.1)]);
      var origin := TextOrigin(atts);
      if origin.Failure? {
        assert OpenText(atts, patterns, trig) == Emitted(styled, Failed(origin.error));
        return Failed(origin.error);
      }
      assert OpenText(atts, patterns, trig) == Emitted(styled + [TextPosition(origin.value.0, origin.value.1)], Done);
      Assoc(old(stream), styled, [TextPosition(origin.value.0, origin.value.1)]);
      stream := stream + [TextPosition(origin.value.0, origin.value.1)];
    }

    /** characters: append ch[start .. start + length) to the buffer, nothing to the stream. */
    method Characters(ch: seq<char>, start: int, length: int) returns (status: Status)
      modifies this`tagContents
      ensures 0 <= start && 0 <= length && start + length <= |ch| ==>
        status == Done && tagContents == old(tagContents) + ch[start..start + length]
      ensures !(0 <= start && 0 <= length && start + length <= |ch|) ==>
        status == Failed(IndexOutOfBounds) && tagContents == old(tagContents)
    {
      if 0 <= start && 0 <= length && start + length <= |ch| {
        tagContents := tagContents + ch[start..start + length];
        status := Done;
      } else {
        status := Failed(IndexOutOfBounds);
      }
    }

    /**
     * The body of endElement's loop for a character above 127 at position i:
     * show the segment begun at `start`, then the character's marks; a
     * character above 657 reads the font size (after its q) and gets two
     * spaces inserted after it.
     */
    method CloseSegment(start: nat, i: nat) returns (status: Status)
      requires start <= i < |tagContents| && !IsAscii(tagContents[i])
      modifies this`stream, this`tagContents
      ensures var c := old(tagContents)[i];
        var fontSize := ValueAsDouble(atts, "font-size");
        var segment := ShowText(old(tagContents)[start..i]);
        if IsSymbol(c) && fontSize.Failure? then
          status == Failed(fontSize.error) && stream == old(stream) + [segment, Save] && tagContents == old(tagContents)
        else
          status == Done && tagContents == Padded(old(tagContents), i) &&
          stream == old(stream) + ([segment] + Marks(c, if IsSymbol(c) then fontSize.value else 0.0))
    {
      var c := tagContents[i];
      MarksCases(c, 0.0);
      stream := stream + [ShowText(tagContents[start..i])];
      if c as int > 657 {
        stream := stream + [Save];
        var size := ValueAsDouble(atts, "font-size");
        if size.Failure? {
          return Failed(size.error);
        }
        MarksCases(c, size.value);
        stream := stream + [SelectFont(NamedFont("Symbol"), size.value)];
        if c as int == 955 {
          stream := stream + [ShowText("l")];
        } else if c as int == 963 {
          stream := stream + [ShowText("s")];
        }
        stream := stream + [Restore];
        tagContents := tagContents[..i + 1] + Padding + tagContents[i + 1..];
      }
      if c as int == 177 {
        stream := stream + [ShowText(PlusMinusText)];
      }
      status := Done;
    }

    /**
     * One iteration of endElement's loop, at position i with the segment begun
     * at `start`: it keeps the loop's invariants for `text`, the buffer the loop
     * began with, and `target`, what the whole scan appends. It throws only at
     * a character above 657 whose font size cannot be read, having appended
     * the whole scan up to that point.
     */
    method ScanStep(ghost text: string, ghost target: seq<Operator>, start: nat, i: nat) returns (status: Status, next: nat)
      requires start <= i < |tagContents|
      requires tagContents[..i] + Expand(tagContents[i..]) == Expand(text)
      requires ValueAsDouble(atts, "font-size").Failure? ==> tagContents == text
      requires stream + Scan(tagContents[start..i], tagContents[i..], ValueAsDouble(atts, "font-size")) == target
      modifies this`stream, this`tagContents
      ensures var fontSize := ValueAsDouble(atts, "font-size");
        status != Done ==>
          fontSize.Failure? && status == Failed(fontSize.error) && IsSymbol(text[i]) && tagContents == text && stream == target
      ensures var fontSize := ValueAsDouble(atts, "font-size");
        status == Done ==>
          next <= i + 1 <= |tagContents| &&
          tagContents[..i + 1] + Expand(tagContents[i + 1..]) == Expand(text) &&
          (fontSize.Failure? ==> tagContents == text) &&
          stream + Scan(tagContents[next..i + 1], tagContents[i + 1..], fontSize) == target &&
          |tagContents| - (i + 1) + 2 * SymbolCount(tagContents[i + 1..]) < old(|tagContents|) - i + 2 * SymbolCount(old(tagContents)[i..])
    {
      var c := tagContents[i];
      ghost var fontSize := ValueAsDouble(atts, "font-size");
      ghost var t := tagContents;
      if !(IsSymbol(c) && fontSize.Failure?) {
        ScanLoopStep(stream, target, Expand(text), tagContents, start, i, fontSize);
      }
      next := start;
      status := Done;
      if c as int > 127 {
        status := CloseSegment(start, i);
        if status != Done {
          ScanStops(t, start, i, fontSize);
          return;
        }
        next := i + 1;
      }
    }

    /**
     * endElement's loop: scan the buffer, splitting it at characters above 127
     * and padding each character above 657 with two spaces. The font size is
     * read at each character above 657; if it cannot be read, the first such
     * character throws, before any padding has been inserted. On a normal end,
     * `start` is where the trailing segment begins.
     */
    method ScanSegments() returns (status: Status, start: nat)
      modifies this`stream, this`tagContents
      ensures var fontSize := ValueAsDouble(atts, "font-size");
        status == Done <==> !(fontSize.Failure? && HasSymbol(old(tagContents)))
      ensures var fontSize := ValueAsDouble(atts, "font-size");
        status != Done ==>
          status == Failed(fontSize.error) &&
          stream == old(stream) + Scan([], old(tagContents), fontSize) &&
          tagContents == old(tagContents)
      ensures var fontSize := ValueAsDouble(atts, "font-size");
        status == Done ==>
          start <= |tagContents| && tagContents == Expand(old(tagContents)) &&
          stream + [ShowText(tagContents[start..])] == old(stream) + Scan([], old(tagContents), fontSize)
    {
      ghost var text := tagContents;
      ghost var fontSize := ValueAsDouble(atts, "font-size");
      ghost var before := stream;
      ghost var target := stream + Scan([], text, fontSize);
      start := 0;
      var i := 0;
      assert tagContents[0..0] == [] && tagContents[0..] == text;
      while i < |tagContents|
        invariant 0 <= start <= i <= |tagContents|
        invariant tagContents[..i] + Expand(tagContents[i..]) == Expand(text)
        invariant fontSize.Failure? ==> tagContents == text
        invariant stream + Scan(tagContents[start..i], tagContents[i..], fontSize) == target
        decreases |tagContents| - i + 2 * SymbolCount(tagContents[i..])
      {
        status, start := ScanStep(text, target, start, i);
        if status != Done {
          assert HasSymbol(text) by {
            assert IsSymbol(text[i]);
          }
          return;
        }
        i := i + 1;
      }
      ScanEnd(tagContents, start, fontSize);
      ScanEndsInText(before, stream, tagContents[start..], text, fontSize);
      status := Done;
    }

    /**
     * endElement: the loop, then the trailing segment's show-text, ET and Q.
     */
    method EndElement() returns (status: Status)
      modifies this`stream, this`tagContents
      ensures var fontSize := ValueAsDouble(atts, "font-size");
        status == Done <==> !(fontSize.Failure? && HasSymbol(old(tagContents)))
      ensures var fontSize := ValueAsDouble(atts, "font-size");
        status != Done ==>
          status == Failed(fontSize.error) &&
          stream == old(stream) + Scan([], old(tagContents), fontSize) &&
          tagContents == old(tagContents)
      ensures var fontSize := ValueAsDouble(atts, "font-size");
        status == Done ==>
          stream == old(stream) + Scan([], old(tagContents), fontSize) + [EndText, Restore] &&
          tagContents == Expand(old(tagContents))
    {
      var start;
      status, start := ScanSegments();
      if status != Done {
        return;
      }
      ghost var scanned := stream + [ShowText(tagContents[start..])];
      stream := stream + [ShowText(tagContents[start..])];
      stream := stream + [EndText];
      stream := stream + [Restore];
      assert stream == scanned + [EndText, Restore];
    }
  }
}
