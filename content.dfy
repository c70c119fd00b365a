/**
 * The content-stream vocabulary the handlers append to, the attribute context
 * they read from, and bracket balance of operator sequences.
 *
 * Operators are kept as structured values (opcode and real operands); the
 * decimal rendering that String.format gives them in the stream is not modelled.
 */
module Content {
  import opened Outcomes

  /** A font as handed to the font registry; the registry's tag is not modelled. */
  datatype FontRef =
    | AwtFont(family: string, bold: bool, pointSize: int)  // new Font(family, BOLD or PLAIN, size)
    | NamedFont(name: string)                             // getFontTag("Symbol")

  /** One operator line of a content stream. */
  datatype Operator =
    | Save                                                  // q
    | Restore                                               // Q
    | BeginText                                             // BT
    | EndText                                               // ET
    | Concat(a: real, b: real, c: real, d: real, e: real, f: real)  // a b c d e f cm
    | SetGray(level: real)                                  // level g
    | SelectFont(font: FontRef, size: real)                 // tag size Tf
    | TextPosition(tx: real, ty: real)                      // tx ty Td
    | ShowText(text: string)                                // (text) Tj, written without escaping
    | MoveTo(x: real, y: real)                              // x y m
    | CurveTo(x1: real, y1: real, x2: real, y2: real, x3: real, y3: real)  // ... c

  /** Where the cm operator `m` maps the point (x, y): (a x + c y + e, b x + d y + f). */
  function Apply(m: Operator, x: real, y: real): (real, real)
    requires m.Concat?
  {
    (m.a * x + m.c * y + m.e, m.b * x + m.d * y + m.f)
  }

  /**
   * The attribute context of the open element: raw attribute text by name, and
   * Double.parseDouble, which is external to the core (None where it throws).
   */
  datatype Attributes = Attributes(values: map<string, string>, parseDouble: string -> Option<real>)

  /** getValue: the raw text, or None (Java null) when the attribute is absent. */
  function Value(atts: Attributes, name: string): (r: Option<string>)
    ensures r.Some? <==> name in atts.values
    ensures r.Some? ==> r.value == atts.values[name]
  {
    if name in atts.values then Some(atts.values[name]) else None
  }

  /**
   * Double.parseDouble(getValue(name)): a null value throws before parsing,
   * and text the parser refuses throws NumberFormatException.
   */
  function ValueAsDouble(atts: Attributes, name: string): (r: Result<real>)
    ensures name !in atts.values ==> r == Failure(MissingAttribute(name))
    ensures name in atts.values ==>
      match atts.parseDouble(atts.values[name])
      case Some(v) => r == Success(v)
      case None => r == Failure(NumberFormat(atts.values[name]))
  {
    match Value(atts, name)
    case None => Failure(MissingAttribute(name))
    case Some(text) =>
      match atts.parseDouble(text)
      case Some(v) => Success(v)
      case None => Failure(NumberFormat(text))
  }

  /**
   * The bracket depth after reading `ops` from depth `depth`, or None when a
   * `close` appears with no `open` left to match it.
   */
  function Nesting(ops: seq<Operator>, open: Operator, close: Operator, depth: nat): Option<nat>
    decreases |ops|
  {
    if ops == [] then Some(depth)
    else if ops[0] == open then Nesting(ops[1..], open, close, depth + 1)
    else if ops[0] == close then
      if depth == 0 then None else Nesting(ops[1..], open, close, depth - 1)
    else Nesting(ops[1..], open, close, depth)
  }

  /** Every `close` matches an earlier `open` and none is left open. */
  predicate Balanced(ops: seq<Operator>, open: Operator, close: Operator) {
    Nesting(ops, open, close, 0) == Some(0)
  }

  /** Neither bracket occurs in `ops`. */
  predicate Free(ops: seq<Operator>, open: Operator, close: Operator) {
    forall k :: 0 <= k < |ops| ==> ops[k] != open && ops[k] != close
  }

  lemma {:induction false} NestingAppend(a: seq<Operator>, b: seq<Operator>, open: Operator, close: Operator, depth: nat)
    ensures Nesting(a + b, open, close, depth) ==
      match Nesting(a, open, close, depth)
      case None => None
      case Some(e) => Nesting(b, open, close, e)
  {
    if a != [] {
      assert (a + b)[0] == a[0];
      assert (a + b)[1..] == a[1..] + b;
      if a[0] == open {
        NestingAppend(a[1..], b, open, close, depth + 1);
        assert Nesting(a + b, open, close, depth) == Nesting(a[1..] + b, open, close, depth + 1);
      } else if a[0] == close {
        if depth > 0 {
          NestingAppend(a[1..], b, open, close, depth - 1);
          assert Nesting(a + b, open, close, depth) == Nesting(a[1..] + b, open, close, depth - 1);
        }
      } else {
        NestingAppend(a[1..], b, open, close, depth);
        assert Nesting(a + b, open, close, depth) == Nesting(a[1..] + b, open, close, depth);
      }
    } else {
      assert a + b == b;
    }
  }

  /** Starting deeper only shifts the final depth. */
  lemma {:induction false} NestingShift(ops: seq<Operator>, open: Operator, close: Operator, depth: nat, extra: nat)
    requires Nesting(ops, open, close, depth).Some?
    ensures Nesting(ops, open, close, depth + extra) == Some(Nesting(ops, open, close, depth).value + extra)
    decreases |ops|
  {
    if ops != [] {
      if ops[0] == open {
        NestingShift(ops[1..], open, close, depth + 1, extra);
      } else if ops[0] == close {
        NestingShift(ops[1..], open, close, depth - 1, extra);
      } else {
        NestingShift(ops[1..], open, close, depth, extra);
      }
    }
  }

  lemma {:induction false} FreeKeepsDepth(ops: seq<Operator>, open: Operator, close: Operator, depth: nat)
    requires Free(ops, open, close)
    ensures Nesting(ops, open, close, depth) == Some(depth)
    decreases |ops|
  {
    if ops != [] {
      assert ops[0] != open && ops[0] != close;
      FreeKeepsDepth(ops[1..], open, close, depth);
    }
  }

  lemma {:induction false} BalancedConcat(a: seq<Operator>, b: seq<Operator>, open: Operator, close: Operator)
    requires Balanced(a, open, close) && Balanced(b, open, close)
    ensures Balanced(a + b, open, close)
  {
    NestingAppend(a, b, open, close, 0);
  }

  lemma {:induction false} FreeBalanced(ops: seq<Operator>, open: Operator, close: Operator)
    requires Free(ops, open, close)
    ensures Balanced(ops, open, close)
  {
    FreeKeepsDepth(ops, open, close, 0);
  }

  /** A balanced sequence stays balanced inside one more bracket pair. */
  lemma {:induction false} BalancedWrap(ops: seq<Operator>, open: Operator, close: Operator)
    requires open != close
    requires Balanced(ops, open, close)
    ensures Balanced([open] + ops + [close], open, close)
  {
    var s := [open] + ops + [close];
    assert s[0] == open;
    assert s[1..] == ops + [close];
    NestingShift(ops, open, close, 0, 1);
    NestingAppend(ops, [close], open, close, 1);
  }
}
