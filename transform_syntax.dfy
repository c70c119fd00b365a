/**
 * A hand-written recognizer for the two transform patterns of the text handler,
 *
 *   translate \s* \( \s* NUMBER \s* , \s* NUMBER \s* \) \s*
 *   rotate \s* \( \s* NUMBER \s* \) \s*        with NUMBER = -?\d+(\.\d+)?
 *
 * matched at the start of the input (Matcher.lookingAt), together with the
 * printer it inverts. Every sub-pattern is greedy, and the grammar is such that
 * no backtracking can turn a greedy failure into a match, so a deterministic
 * left-to-right reader accepts exactly what the regular expressions accept.
 */
module TransformSyntax {
  import opened Outcomes

  /** Java's \s: space, tab, newline, vertical tab, form feed, carriage return. */
  predicate IsWsp(c: char) {
    c == ' ' || c == '\t' || c == '\n' || c == '\U{0B}' || c == '\U{0C}' || c == '\r'
  }

  /** Java's \d (ASCII digits). */
  predicate IsDigit(c: char) {
    '0' <= c <= '9'
  }

  predicate All(s: string, p: char -> bool) {
    forall k :: 0 <= k < |s| ==> p(s[k])
  }

  /** Greedy p*: the longest prefix whose characters all satisfy p, and what follows it. */
  function Span(s: string, p: char -> bool): (r: (string, string))
    ensures r.0 + r.1 == s
    ensures All(r.0, p)
    ensures r.1 == [] || !p(r.1[0])
    decreases |s|
  {
    if s != [] && p(s[0]) then
      var (run, rest) := Span(s[1..], p);
      assert [s[0]] + (run + rest) == s;
      ([s[0]] + run, rest)
    else
      ([], s)
  }

  /** A run followed by a character outside it is exactly what Span splits off. */
  lemma {:induction false} SpanOf(run: string, rest: string, p: char -> bool)
    requires All(run, p)
    requires rest == [] || !p(rest[0])
    ensures Span(run + rest, p) == (run, rest)
    decreases |run|
  {
    if run == [] {
      assert run + rest == rest;
    } else {
      assert (run + rest)[0] == run[0];
      assert (run + rest)[1..] == run[1..] + rest;
      SpanOf(run[1..], rest, p);
      assert [run[0]] + run[1..] == run;
    }
  }

  /** A literal piece of the pattern: the input after `word`, if it starts with it. */
  function Keyword(s: string, word: string): (r: Option<string>)
    ensures r.Some? <==> |word| <= |s| && s[..|word|] == word
    ensures r.Some? ==> word + r.value == s
  {
    if |word| <= |s| && s[..|word|] == word then
      assert s[..|word|] + s[|word|..] == s;
      Some(s[|word|..])
    else
      None
  }

  lemma {:induction false} KeywordOf(word: string, rest: string)
    ensures Keyword(word + rest, word) == Some(rest)
  {
    assert (word + rest)[..|word|] == word;
    assert (word + rest)[|word|..] == rest;
  }

  /** A decimal numeral as NUMBER spells it: optional '-', digits, optional '.' and digits. */
  datatype Numeral = Numeral(negative: bool, whole: string, fraction: string)

  predicate ValidNumeral(n: Numeral) {
    |n.whole| > 0 && All(n.whole, IsDigit) && All(n.fraction, IsDigit)
  }

  function SignText(negative: bool): string {
    if negative then "-" else ""
  }

  function FractionText(fraction: string): string {
    if fraction == [] then "" else "." + fraction
  }

  function NumeralText(n: Numeral): string {
    SignText(n.negative) + (n.whole + FractionText(n.fraction))
  }

  function DigitValue(c: char): nat
    requires IsDigit(c)
  {
    (c as int) - ('0' as int)
  }

  /** The value of a digit string, most significant digit first. */
  function DigitsValue(ds: string): nat
    requires All(ds, IsDigit)
  {
    if ds == [] then 0 else DigitsValue(ds[..|ds| - 1]) * 10 + DigitValue(ds[|ds| - 1])
  }

  /** The value of the fraction digits d1 d2 ... dk, that is 0.d1d2...dk. */
  function FractionValue(ds: string): (r: real)
    requires All(ds, IsDigit)
    ensures 0.0 <= r < 1.0
  {
    if ds == [] then 0.0 else (DigitValue(ds[0]) as real + FractionValue(ds[1..])) / 10.0
  }

  /** What Double.parseDouble gives for the numeral, over the reals (no rounding). */
  function NumeralValue(n: Numeral): real
    requires ValidNumeral(n)
  {
    var magnitude := DigitsValue(n.whole) as real + FractionValue(n.fraction);
    if n.negative then -magnitude else magnitude
  }

  /** The values of the numerals, in order. */
  function Values(ns: seq<Numeral>): (r: seq<real>)
    requires forall k :: 0 <= k < |ns| ==> ValidNumeral(ns[k])
    ensures |r| == |ns|
  {
    if ns == [] then [] else [NumeralValue(ns[0])] + Values(ns[1..])
  }

  /** What may follow a numeral without being read as part of it. */
  predicate EndsNumeral(rest: string) {
    rest == [] || (!IsDigit(rest[0]) && rest[0] != '.')
  }

  /** Reads the optional `.digits` part of NUMBER: the fraction digits (empty when absent) and the rest. */
  function ReadFraction(s: string): (r: (string, string))
    ensures All(r.0, IsDigit)
    ensures FractionText(r.0) + r.1 == s
    ensures r.0 != [] ==> r.1 == [] || !IsDigit(r.1[0])
  {
    if |s| >= 2 && s[0] == '.' && IsDigit(s[1]) then
      var (fraction, rest) := Span(s[1..], IsDigit);
      assert fraction != [];
      assert "." + (fraction + rest) == s;
      (fraction, rest)
    else
      ([], s)
  }

  /** Reads `\d+(\.\d+)?`: the whole digits, the fraction digits and the rest. */
  function ReadUnsigned(s: string): (r: Option<(string, string, string)>)
    ensures r.Some? ==> |r.value.0| > 0 && All(r.value.0, IsDigit) && All(r.value.1, IsDigit)
    ensures r.Some? ==> r.value.0 + (FractionText(r.value.1) + r.value.2) == s
  {
    var (whole, afterWhole) := Span(s, IsDigit);
    if whole == [] then None
    else
      var (fraction, rest) := ReadFraction(afterWhole);
      Some((whole, fraction, rest))
  }

  /** Reads NUMBER at the start of `s`: the numeral and the text after it. */
  function ReadNumeral(s: string): (r: Option<(Numeral, string)>)
    ensures r.Some? ==> ValidNumeral(r.value.0) && NumeralText(r.value.0) + r.value.1 == s
  {
    var negative := s != [] && s[0] == '-';
    var unsigned := if negative then s[1..] else s;
    assert SignText(negative) + unsigned == s;
    var u :- ReadUnsigned(unsigned);
    var n := Numeral(negative, u.0, u.1);
    Assoc(SignText(negative), u.0 + FractionText(u.1), u.2);
    Assoc(u.0, FractionText(u.1), u.2);
    Some((n, u.2))
  }

  lemma {:induction false} ReadFractionOf(fraction: string, rest: string)
    requires All(fraction, IsDigit) && EndsNumeral(rest)
    ensures ReadFraction(FractionText(fraction) + rest) == (fraction, rest)
  {
    if fraction != [] {
      var s := "." + fraction + rest;
      assert s[1..] == fraction + rest;
      assert s[1] == fraction[0];
      SpanOf(fraction, rest, IsDigit);
    } else {
      assert FractionText(fraction) + rest == rest;
    }
  }

  lemma {:induction false} ReadNumeralOf(n: Numeral, rest: string)
    requires ValidNumeral(n) && EndsNumeral(rest)
    ensures ReadNumeral(NumeralText(n) + rest) == Some((n, rest))
  {
    var tail := FractionText(n.fraction) + rest;
    var unsigned := n.whole + tail;
    var s := SignText(n.negative) + unsigned;
    assert NumeralText(n) + rest == s;
    assert (if s != [] && s[0] == '-' then s[1..] else s) == unsigned;
    assert tail == [] || !IsDigit(tail[0]);
    SpanOf(n.whole, tail, IsDigit);
    ReadFractionOf(n.fraction, rest);
  }

  /**
   * One item of a transform pattern: a literal word or NUMBER. In both patterns
   * every item is followed by greedy \s*, so a pattern is its list of items.
   */
  datatype Item = Word(text: string) | Number

  /** What one item and the whitespace after it matched. */
  datatype Piece = Literal(gap: string) | Num(numeral: Numeral, gap: string)

  /** translate\s*\(\s*NUMBER\s*,\s*NUMBER\s*\)\s* */
  const TranslatePattern: seq<Item> := [Word("translate"), Word("("), Number, Word(","), Number, Word(")")]

  /** rotate\s*\(\s*NUMBER\s*\)\s* */
  const RotatePattern: seq<Item> := [Word("rotate"), Word("("), Number, Word(")")]

  predicate Fits(e: Item, x: Piece) {
    All(x.gap, IsWsp) &&
    match e
    case Word(_) => x.Literal?
    case Number => x.Num? && ValidNumeral(x.numeral)
  }

  /** One piece per item, each of the item's kind. */
  predicate FitsAll(p: seq<Item>, xs: seq<Piece>)
    decreases |p|
  {
    |xs| == |p| && (p == [] || (Fits(p[0], xs[0]) && FitsAll(p[1..], xs[1..])))
  }

  function PieceText(e: Item, x: Piece): string
    requires Fits(e, x)
  {
    (match e
     case Word(w) => w
     case Number => NumeralText(x.numeral))
    + x.gap
  }

  /** The text a pattern matched, piece after piece. */
  function Text(p: seq<Item>, xs: seq<Piece>): string
    requires FitsAll(p, xs)
    decreases |p|
  {
    if p == [] then [] else PieceText(p[0], xs[0]) + Text(p[1..], xs[1..])
  }

  /** A pattern with one more item in front: its piece fits and its text comes first. */
  lemma {:induction false} TextCons(e: Item, x: Piece, p: seq<Item>, xs: seq<Piece>)
    requires Fits(e, x) && FitsAll(p, xs)
    ensures FitsAll([e] + p, [x] + xs)
    ensures Text([e] + p, [x] + xs) == PieceText(e, x) + Text(p, xs)
    ensures Numbers([e] + p, [x] + xs) == (if e == Number then [x.numeral] else []) + Numbers(p, xs)
  {
    assert ([e] + p)[0] == e && ([e] + p)[1..] == p;
    assert ([x] + xs)[0] == x && ([x] + xs)[1..] == xs;
  }

  function NumberCount(p: seq<Item>): nat {
    if p == [] then 0 else (if p[0] == Number then 1 else 0) + NumberCount(p[1..])
  }

  /** The numerals among the pieces, in order: the regular expression's groups. */
  function Numbers(p: seq<Item>, xs: seq<Piece>): (r: seq<Numeral>)
    requires FitsAll(p, xs)
    ensures |r| == NumberCount(p)
    ensures forall k :: 0 <= k < |r| ==> ValidNumeral(r[k])
    decreases |p|
  {
    if p == [] then []
    else
      (if p[0] == Number then [xs[0].numeral] else []) + Numbers(p[1..], xs[1..])
  }

  /** Reads one item and the whitespace after it at the start of `s`. */
  function ReadItem(e: Item, s: string): (r: Option<(Piece, string)>)
    ensures r.Some? ==> Fits(e, r.value.0) && PieceText(e, r.value.0) + r.value.1 == s
    ensures r.Some? ==> r.value.1 == [] || !IsWsp(r.value.1[0])
  {
    match e
    case Word(w) =>
      var afterWord :- Keyword(s, w);
      var (gap, rest) := Span(afterWord, IsWsp);
      Some((Literal(gap), rest))
    case Number =>
      var n :- ReadNumeral(s);
      var (gap, rest) := Span(n.1, IsWsp);
      Some((Num(n.0, gap), rest))
  }

  /**
   * Matcher.lookingAt: the pieces the pattern matches at the start of `s`, and
   * the text after the match (String.substring(m.end())).
   */
  function Match(p: seq<Item>, s: string): (r: Option<(seq<Piece>, string)>)
    ensures r.Some? ==> FitsAll(p, r.value.0) && Text(p, r.value.0) + r.value.1 == s
    ensures r.Some? && p != [] ==> r.value.1 == [] || !IsWsp(r.value.1[0])
    ensures r.Some? && p != [] && p[0].Word? && p[0].text != [] ==> |r.value.1| < |s|
    decreases |p|
  {
    if p == [] then
      Some(([], s))
    else
      var head :- ReadItem(p[0], s);
      var tail :- Match(p[1..], head.1);
      var xs := [head.0] + tail.0;
      assert xs[0] == head.0 && xs[1..] == tail.0;
      assert Text(p, xs) == PieceText(p[0], head.0) + Text(p[1..], tail.0);
      Assoc(PieceText(p[0], head.0), Text(p[1..], tail.0), tail.1);
      Some((xs, tail.1))
  }

  /** A non-empty pattern reads its first item, then matches the rest after it. */
  lemma {:induction false} MatchThen(p: seq<Item>, s: string, x: Piece, after: string, tail: (seq<Piece>, string))
    requires p != [] && ReadItem(p[0], s) == Some((x, after)) && Match(p[1..], after) == Some(tail)
    ensures Match(p, s) == Some(([x] + tail.0, tail.1))
  {
  }

  /** `after` cannot be read as a continuation of the piece `x` matched for item `e`. */
  predicate Stops(e: Item, x: Piece, after: string) {
    (after == [] || !IsWsp(after[0])) &&
    (e == Number && x.gap == [] ==> EndsNumeral(after))
  }

  /** Each piece is followed by text that cannot extend it. */
  predicate Readable(p: seq<Item>, xs: seq<Piece>, rest: string)
    requires FitsAll(p, xs)
    decreases |p|
  {
    p == [] || (Stops(p[0], xs[0], Text(p[1..], xs[1..]) + rest) && Readable(p[1..], xs[1..], rest))
  }

  lemma {:induction false} ReadItemOf(e: Item, x: Piece, after: string)
    requires Fits(e, x) && Stops(e, x, after)
    ensures ReadItem(e, PieceText(e, x) + after) == Some((x, after))
  {
    match e
    case Word(w) =>
      assert PieceText(e, x) + after == w + (x.gap + after);
      KeywordOf(w, x.gap + after);
      SpanOf(x.gap, after, IsWsp);
    case Number =>
      var n := x.numeral;
      assert PieceText(e, x) + after == NumeralText(n) + (x.gap + after);
      assert EndsNumeral(x.gap + after) by {
        if x.gap != [] { assert (x.gap + after)[0] == x.gap[0]; }
        else { assert x.gap + after == after; }
      }
      ReadNumeralOf(n, x.gap + after);
      SpanOf(x.gap, after, IsWsp);
  }

  /** The matcher reads back every match whose pieces do not run into each other. */
  lemma {:induction false} MatchOf(p: seq<Item>, xs: seq<Piece>, rest: string)
    requires FitsAll(p, xs) && Readable(p, xs, rest)
    ensures Match(p, Text(p, xs) + rest) == Some((xs, rest))
    decreases |p|
  {
    if p == [] {
      assert Text(p, xs) + rest == rest;
      assert xs == [];
    } else {
      MatchOf(p[1..], xs[1..], rest);
      MatchStep(p, xs, rest);
    }
  }

  /** The step of MatchOf: reading the first piece back, given the rest reads back. */
  lemma {:induction false} MatchStep(p: seq<Item>, xs: seq<Piece>, rest: string)
    requires p != [] && FitsAll(p, xs) && Readable(p, xs, rest)
    requires Match(p[1..], Text(p[1..], xs[1..]) + rest) == Some((xs[1..], rest))
    ensures Match(p, Text(p, xs) + rest) == Some((xs, rest))
  {
    var s := Text(p, xs) + rest;
    var after := Text(p[1..], xs[1..]) + rest;
    ReadHead(p, xs, rest);
    MatchThen(p, s, xs[0], after, (xs[1..], rest));
    assert [xs[0]] + xs[1..] == xs;
  }

  /** The first piece of a readable match reads back, leaving the text of the others. */
  lemma {:induction false} ReadHead(p: seq<Item>, xs: seq<Piece>, rest: string)
    requires p != [] && FitsAll(p, xs) && Readable(p, xs, rest)
    ensures ReadItem(p[0], Text(p, xs) + rest) == Some((xs[0], Text(p[1..], xs[1..]) + rest))
  {
    var after := Text(p[1..], xs[1..]) + rest;
    var front := PieceText(p[0], xs[0]);
    assert Text(p, xs) == front + Text(p[1..], xs[1..]);
    Assoc(front, Text(p[1..], xs[1..]), rest);
    assert Fits(p[0], xs[0]) && Stops(p[0], xs[0], after);
    ReadItemOf(p[0], xs[0], after);
  }

  /**
   * A pattern whose items cannot run into each other: no word starts with
   * whitespace, and a NUMBER is followed by a word that cannot continue it.
   */
  predicate Separated(p: seq<Item>)
    decreases |p|
  {
    p == [] ||
    ((p[0].Word? ==> p[0].text != [] && !IsWsp(p[0].text[0])) &&
     (p[0] == Number ==> |p| > 1 && p[1].Word? && p[1].text != [] && !IsDigit(p[1].text[0]) && p[1].text[0] != '.') &&
     Separated(p[1..]))
  }

  /** A numeral's text starts with '-' or a digit. */
  lemma {:induction false} NumeralStart(n: Numeral)
    requires ValidNumeral(n)
    ensures NumeralText(n) != [] && (NumeralText(n)[0] == '-' || IsDigit(NumeralText(n)[0]))
  {
    if !n.negative {
      assert NumeralText(n) == n.whole + FractionText(n.fraction);
      assert NumeralText(n)[0] == n.whole[0];
    }
  }

  /** The text of a piece starts with its word, or with '-' or a digit. */
  lemma {:induction false} PieceStart(e: Item, x: Piece, after: string)
    requires Fits(e, x) && (e.Word? ==> e.text != [])
    ensures PieceText(e, x) + after != []
    ensures e.Word? ==> (PieceText(e, x) + after)[0] == e.text[0]
    ensures e == Number ==> (PieceText(e, x) + after)[0] == '-' || IsDigit((PieceText(e, x) + after)[0])
  {
    var lead := if e == Number then NumeralText(x.numeral) else e.text;
    assert PieceText(e, x) == lead + x.gap;
    if e == Number {
      NumeralStart(x.numeral);
    }
    LeadStart(lead, x.gap + after);
    Assoc(lead, x.gap, after);
  }

  /** Concatenation regrouped, for strings and operator lists alike. */
  lemma {:induction false} Assoc<T>(a: seq<T>, b: seq<T>, c: seq<T>)
    ensures (a + b) + c == a + (b + c)
  {
  }

  lemma {:induction false} LeadStart(lead: string, rest: string)
    requires lead != []
    ensures (lead + rest)[0] == lead[0]
  {
  }

  /** The text of a separated pattern starts with its first word, or with '-' or a digit. */
  lemma {:induction false} SeparatedStart(p: seq<Item>, xs: seq<Piece>, rest: string)
    requires FitsAll(p, xs) && Separated(p) && p != []
    ensures Text(p, xs) + rest != []
    ensures p[0].Word? ==> (Text(p, xs) + rest)[0] == p[0].text[0]
    ensures p[0] == Number ==> (Text(p, xs) + rest)[0] == '-' || IsDigit((Text(p, xs) + rest)[0])
  {
    var tail := Text(p[1..], xs[1..]) + rest;
    assert Text(p, xs) + rest == PieceText(p[0], xs[0]) + tail;
    PieceStart(p[0], xs[0], tail);
  }

  /** In a separated pattern followed by non-whitespace, no piece is extended. */
  lemma {:induction false} SeparatedReadable(p: seq<Item>, xs: seq<Piece>, rest: string)
    requires FitsAll(p, xs) && Separated(p)
    requires rest == [] || !IsWsp(rest[0])
    ensures Readable(p, xs, rest)
    decreases |p|
  {
    if p != [] {
      var p1, xs1 := p[1..], xs[1..];
      SeparatedReadable(p1, xs1, rest);
      if p1 != [] {
        SeparatedStart(p1, xs1, rest);
      } else {
        assert Text(p1, xs1) + rest == rest;
      }
    }
  }

  /**
   * A separated pattern (both transform patterns are) reads back every text it
   * matches, provided the text after it does not start with whitespace (the
   * trailing \s* is greedy).
   */
  lemma {:induction false} PatternRoundTrip(p: seq<Item>, xs: seq<Piece>, rest: string)
    requires Separated(p)
    requires FitsAll(p, xs)
    requires rest == [] || !IsWsp(rest[0])
    ensures Match(p, Text(p, xs) + rest) == Some((xs, rest))
  {
    SeparatedReadable(p, xs, rest);
    MatchOf(p, xs, rest);
  }
}
