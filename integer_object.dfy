/**
 * The PDF integer object: an immutable 32-bit value with a decimal text form,
 * a constructor that parses that form as Integer.parseInt does, value-based
 * equality against any Java reference, and the hash 41 * 5 + value computed
 * with 32-bit wrap-around.
 */
module IntegerObjects {
  import opened Outcomes
  import opened TransformSyntax

  const MinInt: int := -0x8000_0000
  const MaxInt: int := 0x7FFF_FFFF

  /** Java's int. */
  type Int32 = x: int | MinInt <= x <= MaxInt

  /** An IntegerObject; its one field is set by the constructor and never again. */
  datatype IntegerObject = IntegerObject(value: Int32)

  /** What an Object parameter can hold: null, an IntegerObject, or an instance of another class. */
  datatype Reference = Null | IntegerRef(obj: IntegerObject) | OtherRef(className: string)

  /** The decimal digit of 0 <= d < 10. */
  function DigitChar(d: nat): (c: char)
    requires d < 10
    ensures IsDigit(c) && DigitValue(c) == d
  {
    ('0' as int + d) as char
  }

  /** The digits of n, most significant first, with no leading zero. */
  function Digits(n: nat): (s: string)
    ensures s != [] && All(s, IsDigit)
    ensures DigitsValue(s) == n
    ensures s[0] == '0' <==> n == 0
    ensures n < 10 <==> |s| == 1
  {
    if n < 10 then [DigitChar(n)]
    else
      var s := Digits(n / 10) + [DigitChar(n % 10)];
      assert s[..|s| - 1] == Digits(n / 10);
      s
  }

  /** String.valueOf(int): a minus sign for a negative value, then the digits of its magnitude. */
  function Decimal(v: int): (s: string)
    ensures s != [] && (s[0] == '-' <==> v < 0)
    ensures All(Unsigned(s), IsDigit) && DigitsValue(Unsigned(s)) == if v < 0 then -v else v
  {
    if v < 0 then
      var s := "-" + Digits(-v);
      assert s[1..] == Digits(-v);
      s
    else Digits(v)
  }

  /** Ten to the power k. */
  function Power10(k: nat): (p: nat)
    ensures p >= 1
  {
    if k == 0 then 1 else 10 * Power10(k - 1)
  }

  /** A number below 10^k has at most k digits. */
  lemma {:induction false} DigitsShort(n: nat, k: nat)
    requires 1 <= k && n < Power10(k)
    ensures |Digits(n)| <= k
    decreases k
  {
    if n >= 10 {
      assert k != 1;
      DigitsShort(n / 10, k - 1);
      assert |Digits(n)| == |Digits(n / 10)| + 1;
    }
  }

  /** The digits after an optional sign. */
  function Unsigned(s: string): string {
    if s != [] && (s[0] == '-' || s[0] == '+') then s[1..] else s
  }

  /**
   * Integer.parseInt(s) in radix 10: an optional '-' or '+', then one or more
   * digits, whose value must fit in an int; anything else is a
   * NumberFormatException.
   */
  function ParseInt(s: string): (r: Result<Int32>)
    ensures r.Failure? ==> r.error == NumberFormat(s)
    ensures r.Success? ==> s != [] && IsDigit(s[|s| - 1]) && All(s[1..], IsDigit)
    ensures r.Success? && s[0] == '-' ==> r.value <= 0
  {
    var negative := s != [] && s[0] == '-';
    var body := Unsigned(s);
    if body == [] || !All(body, IsDigit) then Failure(NumberFormat(s))
    else
      var n: int := if negative then -(DigitsValue(body) as int) else DigitsValue(body);
      if MinInt <= n <= MaxInt then
        assert body[|body| - 1] == s[|s| - 1];
        Success(n)
      else Failure(NumberFormat(s))
  }

  /** The String constructor: parse, then the int constructor. */
  function FromString(s: string): (r: Result<IntegerObject>)
    ensures r.Failure? ==> r.error == NumberFormat(s)
    ensures r.Success? ==> Unsigned(s) != [] && All(Unsigned(s), IsDigit)
    ensures r.Success? ==>
      DigitsValue(Unsigned(s)) == (if r.value.value < 0 then -(r.value.value as int) else r.value.value) &&
      (r.value.value < 0 ==> s[0] == '-')
  {
    var v :- ParseInt(s);
    ParsedValue(s);
    Success(IntegerObject(v))
  }

  /** getText. */
  function Text(o: IntegerObject): (s: string)
    ensures 1 <= |s| <= 11
  {
    DecimalShort(o.value);
    Decimal(o.value)
  }

  /** An int has at most ten digits, and a sign. */
  lemma {:induction false} DecimalShort(v: Int32)
    ensures |Decimal(v)| <= 11
  {
    assert Power10(10) == 10000000000;
    DigitsShort(if v < 0 then -(v as int) else v, 10);
  }

  /** Two's-complement wrap-around of an int expression to 32 bits. */
  function Wrap32(x: int): (w: Int32)
    ensures (w - x) % 0x1_0000_0000 == 0
  {
    (x + 0x8000_0000) % 0x1_0000_0000 - 0x8000_0000
  }

  /** hashCode: hash = 5, then hash = 41 * hash + value, in int arithmetic. */
  function HashCode(o: IntegerObject): (h: Int32)
    ensures (h - (41 * 5 + o.value)) % 0x1_0000_0000 == 0
  {
    Wrap32(41 * 5 + o.value)
  }

  /** equals(Object): false for null, false for an instance of another class, else compare the values. */
  function Equals(o: IntegerObject, other: Reference): (b: bool)
    ensures b <==> other == IntegerRef(o)
  {
    if other.Null? then false
    else if !other.IntegerRef? then false
    else o.value == other.obj.value
  }

  /** A digit string without a leading zero (or "0" itself) is what Digits prints for its value. */
  lemma {:induction false} DigitsOfValue(s: string)
    requires s != [] && All(s, IsDigit) && (s[0] == '0' ==> |s| == 1)
    ensures Digits(DigitsValue(s)) == s
    decreases |s|
  {
    var t := s[..|s| - 1];
    var d := DigitValue(s[|s| - 1]);
    if t == [] {
      assert DigitsValue(s) == d;
      assert DigitChar(d) == s[0];
    } else {
      assert All(t, IsDigit);
      LeadingDigitPositive(t);
      DigitsOfValue(t);
      var n := DigitsValue(s);
      assert n == DigitsValue(t) * 10 + d;
      assert n / 10 == DigitsValue(t) && n % 10 == d;
      assert DigitChar(d) == s[|s| - 1];
      assert s == t + [s[|s| - 1]];
    }
  }

  /** A digit string that does not start with '0' has a positive value. */
  lemma {:induction false} LeadingDigitPositive(s: string)
    requires s != [] && All(s, IsDigit) && s[0] != '0'
    ensures DigitsValue(s) > 0
    decreases |s|
  {
    var t := s[..|s| - 1];
    if t != [] {
      assert All(t, IsDigit) && t[0] == s[0];
      LeadingDigitPositive(t);
    }
  }

  /** The forms String.valueOf prints: an optional '-', then digits with no leading zero, and no "-0". */
  predicate Canonical(s: string) {
    var body := if s != [] && s[0] == '-' then s[1..] else s;
    body != [] && All(body, IsDigit) && (body[0] == '0' ==> s == "0")
  }

  /** Parsing a non-negative value's digits, with or without a sign, gives the value back. */
  lemma {:induction false} ParseDigits(n: nat, sign: string)
    requires n <= -MinInt && (sign == "" || sign == "-" || sign == "+")
    requires sign != "-" ==> n <= MaxInt
    ensures ParseInt(sign + Digits(n)) == Success(if sign == "-" then -(n as int) else n)
  {
    var s := sign + Digits(n);
    if sign == "" {
      assert s == Digits(n) && s[0] != '-' && s[0] != '+';
    } else {
      assert s[0] == sign[0] && s[1..] == Digits(n);
    }
    assert Unsigned(s) == Digits(n);
    ParseOf(s, n, sign == "-");
  }

  /** A sign and digits whose signed value is an int parse to that value. */
  lemma {:induction false} ParseOf(s: string, n: nat, negative: bool)
    requires Unsigned(s) != [] && All(Unsigned(s), IsDigit) && DigitsValue(Unsigned(s)) == n
    requires negative <==> s[0] == '-'
    requires MinInt <= (if negative then -(n as int) else n) <= MaxInt
    ensures ParseInt(s) == Success(if negative then -(n as int) else n)
  {
  }

  /**
   * The int and String constructors agree through getText: parsing the text
   * of any object gives back an equal object.
   */
  lemma {:induction false} TextRoundTrip(o: IntegerObject)
    ensures FromString(Text(o)) == Success(o)
    ensures Equals(FromString(Text(o)).value, IntegerRef(o))
  {
    var v: int := o.value;
    if v < 0 {
      ParseDigits(-v, "-");
    } else {
      ParseDigits(v, "");
      assert "" + Digits(v) == Digits(v);
    }
  }

  /** getText prints only canonical forms. */
  lemma {:induction false} TextCanonical(o: IntegerObject)
    ensures Canonical(Text(o))
  {
    var v: int := o.value;
    if v < 0 {
      assert Text(o)[1..] == Digits(-v);
    }
  }

  /** What ParseInt returns when it accepts: the signed value of the digits. */
  lemma {:induction false} ParsedValue(s: string)
    requires ParseInt(s).Success?
    ensures Unsigned(s) != [] && All(Unsigned(s), IsDigit)
    ensures ParseInt(s).value == if s[0] == '-' then -(DigitsValue(Unsigned(s)) as int) else DigitsValue(Unsigned(s))
  {
  }

  /** A canonical form the String constructor accepts is exactly the text of the object it builds. */
  lemma {:induction false} CanonicalText(s: string)
    requires Canonical(s) && FromString(s).Success?
    ensures Text(FromString(s).value) == s
  {
    var body := Unsigned(s);
    ParsedValue(s);
    DecimalOf(body, s[0] == '-');
    if s[0] == '-' {
      assert s == "-" + body;
    }
  }

  /** The decimal form of a signed digit string without leading zeros is that string. */
  lemma {:induction false} DecimalOf(body: string, negative: bool)
    requires body != [] && All(body, IsDigit) && (body[0] == '0' ==> |body| == 1 && !negative)
    ensures Decimal(if negative then -(DigitsValue(body) as int) else DigitsValue(body)) ==
      if negative then "-" + body else body
  {
    DigitsOfValue(body);
    if negative {
      LeadingDigitPositive(body);
    }
  }

  /** The String constructor rejects what Integer.parseInt rejects. */
  lemma {:induction false} ParseIntRejects(s: string)
    ensures FromString("") == Failure(NumberFormat(""))
    ensures FromString("-") == Failure(NumberFormat("-"))
    ensures FromString("+") == Failure(NumberFormat("+"))
    ensures FromString("1x") == Failure(NumberFormat("1x"))
    ensures FromString(" 1") == Failure(NumberFormat(" 1"))
    ensures s != [] && !IsDigit(s[|s| - 1]) ==> FromString(s) == Failure(NumberFormat(s))
  {
    assert !All("1x", IsDigit) by { assert !IsDigit("1x"[1]); }
  }

  /** Values outside the 32-bit range are rejected, whatever their digits. */
  lemma {:induction false} ParseIntRange(ds: string)
    requires ds != [] && All(ds, IsDigit)
    ensures DigitsValue(ds) > MaxInt ==> FromString(ds) == Failure(NumberFormat(ds))
    ensures DigitsValue(ds) > -MinInt ==> FromString("-" + ds) == Failure(NumberFormat("-" + ds))
    ensures DigitsValue(ds) <= MaxInt ==> FromString(ds) == FromString("+" + ds) == Success(IntegerObject(DigitsValue(ds)))
    ensures DigitsValue(ds) <= -MinInt ==> FromString("-" + ds) == Success(IntegerObject(-(DigitsValue(ds) as int)))
  {
    assert ("-" + ds)[1..] == ds && ("+" + ds)[1..] == ds;
  }

  /** Wrap-around on the range hashCode can reach: one subtraction of 2^32 at most. */
  lemma {:induction false} WrapNear(x: int)
    requires MinInt <= x <= MaxInt + 205
    ensures Wrap32(x) == if x <= MaxInt then x else x - 0x1_0000_0000
  {
    var m := x + 0x8000_0000;
    if x <= MaxInt {
      assert 0 <= m < 0x1_0000_0000;
      assert m % 0x1_0000_0000 == m;
    } else {
      assert 0x1_0000_0000 <= m < 2 * 0x1_0000_0000;
      assert m % 0x1_0000_0000 == m - 0x1_0000_0000;
    }
  }

  /** hashCode is 205 + value, wrapped: for the largest values it is negative. */
  lemma {:induction false} HashCodeValue(o: IntegerObject)
    ensures o.value <= MaxInt - 205 ==> HashCode(o) == 205 + o.value
    ensures o.value > MaxInt - 205 ==> HashCode(o) == 205 + o.value - 0x1_0000_0000 < 0
  {
    WrapNear(205 + o.value);
  }

  /**
   * Equal objects have equal hashes, and since the hash is a bijection on the
   * 32-bit values, objects with equal hashes are equal.
   */
  lemma {:induction false} HashCodeAgrees(a: IntegerObject, b: IntegerObject)
    ensures Equals(a, IntegerRef(b)) <==> HashCode(a) == HashCode(b)
  {
    HashCodeValue(a);
    HashCodeValue(b);
  }

  /** equals is an equivalence on IntegerObjects, and false for null and for other classes. */
  lemma {:induction false} EqualsEquivalence(a: IntegerObject, b: IntegerObject, c: IntegerObject, className: string)
    ensures Equals(a, IntegerRef(a))
    ensures Equals(a, IntegerRef(b)) == Equals(b, IntegerRef(a))
    ensures Equals(a, IntegerRef(b)) && Equals(b, IntegerRef(c)) ==> Equals(a, IntegerRef(c))
    ensures !Equals(a, Null) && !Equals(a, OtherRef(className))
    ensures Equals(a, IntegerRef(b)) <==> a.value == b.value
  {
  }
}
