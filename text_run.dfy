/**
 * What the text handler's endElement emits for the buffered text of one text
 * element: the buffer is cut into show-text segments at every character above
 * 127; a character above 657 is drawn through a nested Symbol-font bracket and
 * gets two spaces inserted after it; character 177 (plus-minus) is drawn with an
 * extra escaped show-text.
 */
module TextRun {
  import opened Outcomes
  import opened Content

  /** The text of the extra show-text for character 177: the four characters \261. */
  const PlusMinusText: string := "\\261"

  /** The two spaces inserted after a character above 657. */
  const Padding: string := "  "

  predicate IsAscii(c: char) { c as int <= 127 }

  predicate IsSymbol(c: char) { c as int > 657 }

  /**
   * The operators for a character above 127 that follow the show-text of the
   * segment before it: the Symbol bracket for a character above 657 (with
   * "l" for lambda 955 and "s" for sigma 963), then the escaped plus-minus for 177.
   */
  function Marks(c: char, fontSize: real): (r: seq<Operator>)
    ensures r == [] <==> !IsSymbol(c) && c as int != 177
    ensures IsSymbol(c) ==> |r| >= 3 && r[0] == Save && r[1] == SelectFont(NamedFont("Symbol"), fontSize)
  {
    (if IsSymbol(c) then
       [Save, SelectFont(NamedFont("Symbol"), fontSize)]
       + (if c as int == 955 then [ShowText("l")] else if c as int == 963 then [ShowText("s")] else [])
       + [Restore]
     else [])
    + (if c as int == 177 then [ShowText(PlusMinusText)] else [])
  }

  /** The marks of each kind of character above 127, written out. */
  lemma {:induction false} MarksCases(c: char, fontSize: real)
    requires !IsAscii(c)
    ensures IsSymbol(c) ==>
      Marks(c, fontSize) ==
        [Save, SelectFont(NamedFont("Symbol"), fontSize)]
        + (if c as int == 955 then [ShowText("l")] else if c as int == 963 then [ShowText("s")] else [])
        + [Restore]
    ensures !IsSymbol(c) ==> Marks(c, fontSize) == if c as int == 177 then [ShowText(PlusMinusText)] else []
  {
  }

  /**
   * The operators the scan emits for the text `t` still to be scanned, when
   * `pending` is the part of the current segment already passed over; the
   * trailing segment's show-text included, the closing ET and Q not.
   * `fontSize` is the font-size attribute the scan reads at each character above
   * 657; when that read fails the scan stops there, after the segment's
   * show-text and the q of the bracket.
   */
  function Scan(pending: string, t: string, fontSize: Result<real>): (r: seq<Operator>)
    ensures r != [] && r[0].ShowText?
    ensures r[|r| - 1].ShowText? || (fontSize.Failure? && r[|r| - 1] == Save)
    decreases |t|
  {
    if t == [] then
      [ShowText(pending)]
    else if IsAscii(t[0]) then
      Scan(pending + [t[0]], t[1..], fontSize)
    else if IsSymbol(t[0]) && fontSize.Failure? then
      [ShowText(pending), Save]
    else
      [ShowText(pending)]
      + Marks(t[0], if IsSymbol(t[0]) then fontSize.value else 0.0)
      + Scan(if IsSymbol(t[0]) then Padding else [], t[1..], fontSize)
  }

  /** The buffer after the scan: two spaces after every character above 657. */
  function Expand(t: string): (r: string)
    ensures |r| == |t| + 2 * SymbolCount(t)
    decreases |t|
  {
    if t == [] then [] else [t[0]] + (if IsSymbol(t[0]) then Padding else []) + Expand(t[1..])
  }

  /** The padded buffer has the same characters above 127, in the same order: the insertion adds only spaces. */
  lemma {:induction false} ExpandSpecials(t: string)
    ensures Specials(Expand(t)) == Specials(t)
    decreases |t|
  {
    if t != [] {
      ExpandSpecials(t[1..]);
      ExpandHead(t[0], Expand(t[1..]));
      SpecialsChar(t[0]);
    }
  }

  /** The inserted spaces add nothing above 127: only the character itself counts. */
  lemma {:induction false} ExpandHead(c: char, rest: string)
    ensures Specials([c] + (if IsSymbol(c) then Padding else []) + rest) == Specials([c]) + Specials(rest)
  {
    var pad: string := if IsSymbol(c) then Padding else [];
    assert [c] + pad + rest == [c] + (pad + rest);
    SpecialsConcat([c], pad + rest);
    if IsSymbol(c) {
      SpecialsConcat(Padding, rest);
      SpecialsPadding();
    } else {
      assert pad + rest == rest;
    }
  }

  lemma {:induction false} SpecialsPadding()
    ensures Specials(Padding) == []
  {
    assert Padding[1..] == [' '] && Padding[1..][1..] == [];
  }

  /** The number of characters above 657 in `t`. */
  function SymbolCount(t: string): nat {
    if t == [] then 0 else (if IsSymbol(t[0]) then 1 else 0) + SymbolCount(t[1..])
  }

  predicate HasSymbol(t: string) {
    exists k :: 0 <= k < |t| && IsSymbol(t[k])
  }

  /** The characters above 127 of `t`, in order. */
  function Specials(t: string): (r: string)
    ensures forall k :: 0 <= k < |r| ==> !IsAscii(r[k])
  {
    if t == [] then [] else (if IsAscii(t[0]) then [] else [t[0]]) + Specials(t[1..])
  }

  /** A single character is kept exactly when it is above 127. */
  lemma {:induction false} SpecialsChar(c: char)
    ensures Specials([c]) == if IsAscii(c) then [] else [c]
  {
    assert [c][1..] == [];
  }

  /**
   * Specials distributes over concatenation: with SpecialsChar, every
   * character above 127 of the text is kept, in order, and no other.
   */
  lemma {:induction false} SpecialsConcat(a: string, b: string)
    ensures Specials(a + b) == Specials(a) + Specials(b)
    decreases |a|
  {
    if a == [] {
      assert a + b == b;
    } else {
      assert (a + b)[0] == a[0] && (a + b)[1..] == a[1..] + b;
      SpecialsConcat(a[1..], b);
    }
  }

  /**
   * The plain segments of `t`: the runs between characters above 127, each
   * run after a character above 657 starting with the two inserted spaces.
   */
  function Segments(t: string): (r: seq<string>)
    ensures |r| == |Specials(t)| + 1
  {
    if t == [] then
      [[]]
    else
      var rest := Segments(t[1..]);
      if IsAscii(t[0]) then [[t[0]] + rest[0]] + rest[1..]
      else [[], (if IsSymbol(t[0]) then Padding else []) + rest[0]] + rest[1..]
  }

  /** What a character contributes to the plain text. */
  function Lead(c: char): string {
    if IsAscii(c) then [c] else if IsSymbol(c) then Padding else []
  }

  /** `t` with every character above 127 deleted and two spaces after each above 657. */
  function PlainText(t: string): string {
    if t == [] then []
    else Lead(t[0]) + PlainText(t[1..])
  }

  function Flatten(ss: seq<string>): string {
    if ss == [] then [] else ss[0] + Flatten(ss[1..])
  }

  /** Show-text of each segment, with the marks of the special character between consecutive ones. */
  function Weave(segments: seq<string>, specials: string, fontSize: real): seq<Operator>
    requires |segments| == |specials| + 1
    decreases |specials|
  {
    if specials == [] then [ShowText(segments[0])]
    else [ShowText(segments[0])] + Marks(specials[0], fontSize) + Weave(segments[1..], specials[1..], fontSize)
  }

  /**
   * With the font size available, the scan is exactly the plain segments
   * interleaved with the marks of the characters above 127 that separate them:
   * one show-text per character above 127, plus the trailing one.
   */
  lemma {:induction false} ScanIsWeave(pending: string, t: string, fontSize: real)
    ensures var segs := Segments(t);
      Scan(pending, t, Success(fontSize)) == Weave([pending + segs[0]] + segs[1..], Specials(t), fontSize)
    decreases |t|
  {
    if t == [] {
      assert pending + Segments(t)[0] == pending;
    } else if IsAscii(t[0]) {
      ScanIsWeave(pending + [t[0]], t[1..], fontSize);
      WeaveAscii(pending, t, fontSize);
    } else {
      ScanIsWeave(if IsSymbol(t[0]) then Padding else [], t[1..], fontSize);
      WeaveSpecial(pending, t, fontSize);
    }
  }

  /** ScanIsWeave's step at a character up to 127: it joins the pending segment. */
  lemma {:induction false} WeaveAscii(pending: string, t: string, fontSize: real)
    requires t != [] && IsAscii(t[0])
    requires var rest := Segments(t[1..]);
      Scan(pending + [t[0]], t[1..], Success(fontSize)) ==
        Weave([pending + [t[0]] + rest[0]] + rest[1..], Specials(t[1..]), fontSize)
    ensures var segs := Segments(t);
      Scan(pending, t, Success(fontSize)) == Weave([pending + segs[0]] + segs[1..], Specials(t), fontSize)
  {
    var segs := Segments(t);
    var rest := Segments(t[1..]);
    assert segs[0] == [t[0]] + rest[0] && segs[1..] == rest[1..];
    assert pending + [t[0]] + rest[0] == pending + segs[0];
    assert Specials(t) == Specials(t[1..]);
  }

  /** ScanIsWeave's step at a character above 127: it closes the pending segment. */
  lemma {:induction false} WeaveSpecial(pending: string, t: string, fontSize: real)
    requires t != [] && !IsAscii(t[0])
    requires var lead: string := if IsSymbol(t[0]) then Padding else [];
      var rest := Segments(t[1..]);
      Scan(lead, t[1..], Success(fontSize)) == Weave([lead + rest[0]] + rest[1..], Specials(t[1..]), fontSize)
    ensures var segs := Segments(t);
      Scan(pending, t, Success(fontSize)) == Weave([pending + segs[0]] + segs[1..], Specials(t), fontSize)
  {
    var lead: string := if IsSymbol(t[0]) then Padding else [];
    var segs := Segments(t);
    var rest := Segments(t[1..]);
    var ws := [pending + segs[0]] + segs[1..];
    assert segs[0] == [] && segs[1..] == [lead + rest[0]] + rest[1..];
    assert ws[0] == pending;
    assert ws[1..] == [lead + rest[0]] + rest[1..];
    assert Specials(t) == [t[0]] + Specials(t[1..]);
  }

  lemma {:induction false} FlattenCons(s: string, ss: seq<string>)
    ensures Flatten([s] + ss) == s + Flatten(ss)
  {
    assert ([s] + ss)[1..] == ss;
  }

  /** The segments of a non-empty text, flattened: the first character's part, then the rest's. */
  lemma {:induction false} SegmentsHead(t: string)
    requires t != []
    ensures Flatten(Segments(t)) == Lead(t[0]) + Flatten(Segments(t[1..]))
  {
    var rest := Segments(t[1..]);
    var tail := Flatten(rest[1..]);
    assert rest == [rest[0]] + rest[1..];
    FlattenCons(rest[0], rest[1..]);
    if IsAscii(t[0]) {
      FlattenCons([t[0]] + rest[0], rest[1..]);
    } else {
      SpecialHead(t[0], rest);
    }
  }

  lemma {:induction false} SpecialHead(c: char, rest: seq<string>)
    requires rest != [] && !IsAscii(c)
    ensures Flatten([[], Lead(c) + rest[0]] + rest[1..]) == Lead(c) + (rest[0] + Flatten(rest[1..]))
  {
    FlattenCons(Lead(c) + rest[0], rest[1..]);
    FlattenCons([], [Lead(c) + rest[0]] + rest[1..]);
    assert [[], Lead(c) + rest[0]] + rest[1..] == [[]] + ([Lead(c) + rest[0]] + rest[1..]);
  }

  /** The plain segments, concatenated, are the text without its special characters, padded. */
  lemma {:induction false} SegmentsFlatten(t: string)
    ensures Flatten(Segments(t)) == PlainText(t)
    decreases |t|
  {
    if t != [] {
      SegmentsFlatten(t[1..]);
      SegmentsHead(t);
    }
  }

  /** The marks of one character never leave a q open and hold no BT or ET. */
  lemma {:induction false} MarksBalanced(c: char, fontSize: real)
    ensures Balanced(Marks(c, fontSize), Save, Restore)
    ensures Free(Marks(c, fontSize), BeginText, EndText)
  {
    var inner: seq<Operator> := if c as int == 955 then [ShowText("l")] else if c as int == 963 then [ShowText("s")] else [];
    var tail: seq<Operator> := if c as int == 177 then [ShowText(PlusMinusText)] else [];
    FreeBalanced(tail, Save, Restore);
    if IsSymbol(c) {
      var body := [SelectFont(NamedFont("Symbol"), fontSize)] + inner;
      FreeBalanced(body, Save, Restore);
      BalancedWrap(body, Save, Restore);
      assert [Save, SelectFont(NamedFont("Symbol"), fontSize)] + inner + [Restore] == [Save] + body + [Restore];
      BalancedConcat([Save] + body + [Restore], tail, Save, Restore);
    } else {
      assert Marks(c, fontSize) == tail;
    }
  }

  /** Every q the scan opens for a symbol is closed again, and it emits no BT or ET. */
  lemma {:induction false} ScanBalanced(pending: string, t: string, fontSize: real)
    ensures Balanced(Scan(pending, t, Success(fontSize)), Save, Restore)
    ensures Free(Scan(pending, t, Success(fontSize)), BeginText, EndText)
    decreases |t|
  {
    var ops := Scan(pending, t, Success(fontSize));
    if t == [] {
      FreeBalanced(ops, Save, Restore);
    } else if IsAscii(t[0]) {
      ScanBalanced(pending + [t[0]], t[1..], fontSize);
    } else {
      var lead: string := if IsSymbol(t[0]) then Padding else [];
      var marks := Marks(t[0], fontSize);
      var rest := Scan(lead, t[1..], Success(fontSize));
      ScanBalanced(lead, t[1..], fontSize);
      MarksBalanced(t[0], fontSize);
      FreeBalanced([ShowText(pending)], Save, Restore);
      BalancedConcat([ShowText(pending)], marks, Save, Restore);
      BalancedConcat([ShowText(pending)] + marks, rest, Save, Restore);
      assert ops == [ShowText(pending)] + marks + rest;
    }
  }

  /** Scanning the two inserted spaces only extends the pending segment. */
  lemma {:induction false} ScanPadding(rest: string, fontSize: Result<real>)
    ensures Scan([], Padding + rest, fontSize) == Scan(Padding, rest, fontSize)
  {
    var s := Padding + rest;
    assert s[0] == ' ' && s[1..] == [' '] + rest;
    assert s[1..][1..] == rest;
    assert [] + [' '] + [' '] == Padding;
  }

  lemma {:induction false} ExpandPadding(rest: string)
    ensures Expand(Padding + rest) == Padding + Expand(rest)
  {
    var s := Padding + rest;
    assert s[0] == ' ' && s[1..] == [' '] + rest;
    assert s[1..][1..] == rest;
  }

  lemma {:induction false} SymbolCountPadding(rest: string)
    ensures SymbolCount(Padding + rest) == SymbolCount(rest)
  {
    var s := Padding + rest;
    assert s[0] == ' ' && s[1..] == [' '] + rest;
    assert s[1..][1..] == rest;
  }

  /** With no character above 657 the font size is never read. */
  lemma {:induction false} ScanWithoutSymbols(pending: string, t: string, a: Result<real>, b: Result<real>)
    requires !HasSymbol(t)
    ensures Scan(pending, t, a) == Scan(pending, t, b)
    ensures Expand(t) == t
    decreases |t|
  {
    if t != [] {
      assert !IsSymbol(t[0]);
      assert !HasSymbol(t[1..]) by {
        forall k | 0 <= k < |t[1..]| ensures !IsSymbol(t[1..][k]) {
          assert t[1..][k] == t[k + 1];
        }
      }
      ScanWithoutSymbols(if IsAscii(t[0]) then pending + [t[0]] else [], t[1..], a, b);
      assert [t[0]] + t[1..] == t;
    }
  }

  lemma {:induction false} FlattenSnoc(ss: seq<string>, s: string)
    ensures Flatten(ss + [s]) == Flatten(ss) + s
    decreases |ss|
  {
    if ss == [] {
      assert ss + [s] == [s];
    } else {
      assert (ss + [s])[1..] == ss[1..] + [s];
      FlattenSnoc(ss[1..], s);
    }
  }

  /** The buffer after the scan has handled position i: two spaces after a character above 657. */
  function Padded(t: string, i: nat): (u: string)
    requires i < |t|
    ensures |u| == |t| + (if IsSymbol(t[i]) then 2 else 0)
  {
    if IsSymbol(t[i]) then t[..i + 1] + Padding + t[i + 1..] else t
  }

  /**
   * One step of the scan at position i, with the segment begun at `start`:
   * the operators of the character at i, then the scan of the (padded) buffer
   * from i + 1 with the segment begun again after a character above 127.
   */
  lemma {:induction false} ScanAdvance(t: string, start: nat, i: nat, fontSize: Result<real>)
    requires start <= i < |t|
    requires !(IsSymbol(t[i]) && fontSize.Failure?)
    ensures var c := t[i];
      var u := Padded(t, i);
      var next := if IsAscii(c) then start else i + 1;
      Scan(t[start..i], t[i..], fontSize) ==
        (if IsAscii(c) then [] else [ShowText(t[start..i])] + Marks(c, if IsSymbol(c) then fontSize.value else 0.0))
        + Scan(u[next..i + 1], u[i + 1..], fontSize)
  {
    var c := t[i];
    var pending := t[start..i];
    var after := t[i + 1..];
    var u := Padded(t, i);
    assert t[i..] == [c] + after;
    assert ([c] + after)[1..] == after;
    if IsAscii(c) {
      assert pending + [c] == t[start..i + 1];
    } else if IsSymbol(c) {
      assert u[i + 1..] == Padding + after;
      assert u[i + 1..i + 1] == [];
      ScanPadding(after, fontSize);
    } else {
      assert u[i + 1..i + 1] == [];
    }
  }

  /**
   * The buffer the scan leaves is the same whichever position it has reached,
   * and the measure of what is left to scan decreases at each step.
   */
  lemma {:induction false} ExpandAdvance(t: string, i: nat)
    requires i < |t|
    ensures var u := Padded(t, i);
      u[..i + 1] == t[..i + 1] &&
      t[..i] + Expand(t[i..]) == u[..i + 1] + Expand(u[i + 1..]) &&
      |u| - (i + 1) + 2 * SymbolCount(u[i + 1..]) < |t| - i + 2 * SymbolCount(t[i..])
  {
    ExpandShift(t, i);
    MeasureShrinks(t, i);
  }

  lemma {:induction false} ExpandShift(t: string, i: nat)
    requires i < |t|
    ensures var u := Padded(t, i);
      u[..i + 1] == t[..i + 1] && t[..i] + Expand(t[i..]) == u[..i + 1] + Expand(u[i + 1..])
  {
    var c := t[i];
    var after := t[i + 1..];
    assert t[i..] == [c] + after;
    ExpandCons(c, after);
    var pad: string := if IsSymbol(c) then Padding else [];
    if IsSymbol(c) {
      ExpandPadding(after);
    }
    Regather(t[..i], c, pad, after, Expand(after));
    assert t[..i] + [c] == t[..i + 1];
    assert Padded(t, i) == t[..i + 1] + pad + after;
  }

  /** Regrouping of the buffer around the character at the scan position. */
  lemma {:induction false} Regather(front: string, c: char, pad: string, after: string, tail: string)
    ensures var u := front + [c] + pad + after;
      u[..|front| + 1] == front + [c] &&
      u[|front| + 1..] == pad + after &&
      front + ([c] + (pad + tail)) == (front + [c]) + (pad + tail)
  {
    var u := front + [c] + pad + after;
    assert u == (front + [c]) + (pad + after);
  }

  lemma {:induction false} MeasureShrinks(t: string, i: nat)
    requires i < |t|
    ensures var u := Padded(t, i);
      |u| - (i + 1) + 2 * SymbolCount(u[i + 1..]) < |t| - i + 2 * SymbolCount(t[i..])
  {
    var c := t[i];
    var after := t[i + 1..];
    assert t[i..] == [c] + after;
    assert ([c] + after)[1..] == after;
    if IsSymbol(c) {
      assert Padded(t, i)[i + 1..] == Padding + after;
      SymbolCountPadding(after);
    }
  }

  lemma {:induction false} ExpandCons(c: char, after: string)
    ensures Expand([c] + after) == [c] + ((if IsSymbol(c) then Padding else []) + Expand(after))
  {
    var t := [c] + after;
    assert t[0] == c && t[1..] == after;
  }

  /**
   * The scan ends with a q exactly when the font size cannot be read and a
   * character above 657 comes; otherwise it ends by showing text.
   */
  lemma {:induction false} ScanHalts(pending: string, t: string, fontSize: Result<real>)
    ensures var ops := Scan(pending, t, fontSize); ops[|ops| - 1] == Save <==> fontSize.Failure? && HasSymbol(t)
    decreases |t|
  {
    if t != [] && !(IsSymbol(t[0]) && fontSize.Failure?) {
      var next: string := if IsAscii(t[0]) then pending + [t[0]] else if IsSymbol(t[0]) then Padding else [];
      ScanHalts(next, t[1..], fontSize);
      var rest := Scan(next, t[1..], fontSize);
      var head := if IsAscii(t[0]) then [] else [ShowText(pending)] + Marks(t[0], if IsSymbol(t[0]) then fontSize.value else 0.0);
      var ops := head + rest;
      assert ops == Scan(pending, t, fontSize);
      assert ops[|ops| - 1] == rest[|rest| - 1];
      if fontSize.Failure? {
        SymbolInTail(t);
      }
    } else if t != [] {
      assert IsSymbol(t[0]);
    }
  }

  /** A string whose first character is not above 657 has one exactly when its tail has. */
  lemma {:induction false} SymbolInTail(t: string)
    requires t != [] && !IsSymbol(t[0])
    ensures HasSymbol(t) <==> HasSymbol(t[1..])
  {
    if HasSymbol(t) {
      var k :| 0 <= k < |t| && IsSymbol(t[k]);
      assert IsSymbol(t[1..][k - 1]);
    }
    if HasSymbol(t[1..]) {
      var k :| 0 <= k < |t[1..]| && IsSymbol(t[1..][k]);
      assert IsSymbol(t[k + 1]);
    }
  }

  /** A scan whose last operator shows text did not meet a character above 657 without a font size. */
  lemma {:induction false} ScanEndsInText(before: seq<Operator>, after: seq<Operator>, last: string, t: string, fontSize: Result<real>)
    requires after + [ShowText(last)] == before + Scan([], t, fontSize)
    ensures !(fontSize.Failure? && HasSymbol(t))
  {
    ScanHalts([], t, fontSize);
    var ops := Scan([], t, fontSize);
    assert ops[|ops| - 1] == (before + ops)[|before + ops| - 1];
    assert (after + [ShowText(last)])[|after|] == ShowText(last);
  }

  /** When the font size cannot be read, the scan stops at a character above 657 after its q. */
  lemma {:induction false} ScanStops(t: string, start: nat, i: nat, fontSize: Result<real>)
    requires start <= i < |t|
    requires IsSymbol(t[i]) && fontSize.Failure?
    ensures Scan(t[start..i], t[i..], fontSize) == [ShowText(t[start..i]), Save]
  {
  }
}
