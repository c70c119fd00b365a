# SVG-to-PDF converter core, modelled in Dafny

This project models three parts of an SVG-to-PDF converter written in Java and proves properties of the model.

- **Text element handler.** It writes a PDF text object for an SVG `<text>` element.
  - `startElement` appends `q` and `BT`, the element's `transform` attribute as `cm` operators, a black fill (`0.0 g`), the font (`Tf`) and the text position (`Td`).
  - `characters` buffers the character data.
  - `endElement` cuts the buffer into `Tj` show-text runs and closes with `ET` and `Q`:
    - a cut falls at every character above 127;
    - a character above 657 is drawn through a nested Symbol-font bracket and gets two spaces inserted after it;
    - character 177 (plus-minus) gets an extra escaped show-text.
  - The transform parser recognises `translate(tx, ty)` and `rotate(angle)` with two regular expressions, matched at the head of the remaining text.
- **Circle element handler.** `drawPath` draws the circle as one move-to and four cubic Bézier quarter arcs. The control points sit at the offset `(4/3)(√2 − 1)·r` along the tangents.
- **Integer object.** `IntegerObject` is a PDF integer: an immutable `int` with a decimal text form, a constructor from text (`Integer.parseInt`), value equality and a hash code.

Modules and files:

| file | module | what it holds |
|---|---|---|
| `outcomes.dfy` | `Outcomes` | `Option`, `Result`, the exceptions the code throws, and how a call ends (`Done`, `Failed`, and `LoopsForever` for the transform loop as written) |
| `content.dfy` | `Content` | content-stream operators as structured values, the attribute lookup, bracket balance |
| `transform_syntax.dfy` | `TransformSyntax` | a hand-written recognizer for the two transform patterns, and the printer it inverts |
| `text_run.dfy` | `TextRun` | the operators `endElement` emits for a buffer, as functions on the buffer |
| `text_element_handler.dfy` | `TextElementHandlers` | the handler class and its methods, proved against the functions above |
| `text_element_properties.dfy` | `TextElementProperties` | properties of whole calls: transform round trips, operator order, bracket balance |
| `circle_element_handler.dfy` | `CircleElementHandlers` | the circle handler class and the geometry of its path |
| `integer_object.dfy` | `IntegerObjects` | the integer object, its text form, parsing, equality and hash |

Design choices:

- **Handler state.** Each handler is a class. Its stream (`_object`) is a `seq<Operator>` field and its text buffer (`_tagContents`) is a `string` field. Every method states the whole new state and is proved equal to a specification function of the old state, for example `stream == old(stream) + OpenText(...).ops`.
- **Exceptions and failed reads.** A method that throws returns `Failed(error)` and keeps what it appended before the exception. A missing attribute is `MissingAttribute`, because the code dereferences `null`. Text that `Double.parseDouble` refuses is `NumberFormat`.
- **Unknown transforms.** `parseTransform`'s switch has no `default` case: when the remaining transform starts with a character other than `r` or `t`, nothing consumes it and the loop never ends, after `q`, `BT` and the `cm`s of the earlier calls have been appended.
  - `TextElementHandlers.ChainAsWritten` models the loop as written, with the outcome `LoopsForever`; `TextElementProperties.UnknownTransformLoops` exhibits it.
  - The handler uses the corrected `TextElementHandlers.Chain`, which throws an `IllegalArgumentException` there ("Unrecognized transform format"), as `parseRotate` and `parseTranslate` do for a call they do not recognise. `TextElementHandlers.ChainCorrection` proves that the two differ only there. See "## Findings".

## Model

| member | source | states |
|---|---|---|
| TextElementHandlers.SourceCompiled | src/com/johnzeringue/svgtopdf/handlers/TextElementHandler.java:21-29 | the translate pattern has two NUMBER groups and the rotate pattern one; each starts with its name; no item of either can run into the next |
| TextElementHandlers.TextElementHandler.constructor | src/com/johnzeringue/svgtopdf/handlers/TextElementHandler.java:35-41 | a new handler has an empty buffer, an empty stream and the two compiled patterns |
| TextElementHandlers.TranslateStep | src/com/johnzeringue/svgtopdf/handlers/TextElementHandler.java:168-183 | a translate call appends only `cm` operators and leaves a strictly shorter rest; a text that does not start with a translate call throws "Unrecognized translate format" |
| TextElementHandlers.RotateStep | src/com/johnzeringue/svgtopdf/handlers/TextElementHandler.java:144-166 | a rotate call appends only `cm` operators and leaves a strictly shorter rest; it fails either with "Unrecognized rotate format" or with the page height's read error |
| TextElementHandlers.RotationOps | src/com/johnzeringue/svgtopdf/handlers/TextElementHandler.java:148-160 | exactly three `cm`: translation by (0, H), the rotation, translation by (0, −H) |
| TextElementHandlers.Translation | src/com/johnzeringue/svgtopdf/handlers/TextElementHandler.java:175-177 | the `cm` of a pure translation moves every point (x, y) to (x + tx, y + ty) |
| TextElementHandlers.TranslationBy | src/com/johnzeringue/svgtopdf/handlers/TextElementHandler.java:171-177 | translate(tx, ty) moves every point by tx across and by ty down the page: (x + tx, y − ty) |
| TextElementHandlers.RotationRadians | src/com/johnzeringue/svgtopdf/handlers/TextElementHandler.java:148 | the angle in radians is the given degrees negated: θ · 180 = −degrees · π |
| TextElementHandlers.TextElementHandler.ParseTranslate | src/com/johnzeringue/svgtopdf/handlers/TextElementHandler.java:168-183 | succeeds exactly when the pattern matches at the head; then appends `1 0 0 1 tx −ty cm` and returns the text after the match; on failure the stream is unchanged |
| TextElementHandlers.TextElementHandler.ParseRotate | src/com/johnzeringue/svgtopdf/handlers/TextElementHandler.java:144-166 | succeeds exactly when the pattern matches and the page height is readable; then appends the three rotation `cm`s; on failure the stream is unchanged |
| TextElementHandlers.Chain | src/com/johnzeringue/svgtopdf/handlers/TextElementHandler.java:132-141 | the loop, with a default case that throws: it emits only `cm` operators and always ends, normally or with an exception |
| TextElementHandlers.ChainAsWritten | src/com/johnzeringue/svgtopdf/handlers/TextElementHandler.java:132-141 | the loop as written: only `cm` operators; it ends normally, with one call's exception, or never |
| TextElementHandlers.ChainCorrection | src/com/johnzeringue/svgtopdf/handlers/TextElementHandler.java:132-141 | the corrected and the as-written loop append the same operators; the corrected one throws exactly where the as-written one never ends, and otherwise both end alike |
| TextElementHandlers.ChainStep | src/com/johnzeringue/svgtopdf/handlers/TextElementHandler.java:132-141 | one call's operators come first, then those of the rest of the chain; a failing call ends the chain with its error and nothing appended |
| TextElementHandlers.ChainAdvance | src/com/johnzeringue/svgtopdf/handlers/TextElementHandler.java:132-141 | the loop invariant of parseTransform (operators so far plus the chain of the rest) is kept by one call |
| TextElementHandlers.TransformOps | src/com/johnzeringue/svgtopdf/handlers/TextElementHandler.java:130-131 | a missing (null) transform attribute appends nothing and ends normally; otherwise only `cm` operators, and the call always ends |
| TextElementHandlers.TextElementHandler.ParseTransform | src/com/johnzeringue/svgtopdf/handlers/TextElementHandler.java:129-142 | appends exactly the chain of the transform attribute (nothing when it is absent) and ends as that chain ends; a call that is neither a rotate nor a translate throws |
| TextElementHandlers.Required | src/com/johnzeringue/svgtopdf/handlers/TextElementHandler.java:63-66 | a dereferenced attribute succeeds exactly when present, with its text; otherwise MissingAttribute |
| TextElementHandlers.WithoutQuotes | src/com/johnzeringue/svgtopdf/handlers/TextElementHandler.java:63 | the result has the characters of the input other than `'`, each as many times as in the input (multiset), is no longer than it, and equals it when it has no quote |
| TextElementHandlers.WithoutQuotesChar | src/com/johnzeringue/svgtopdf/handlers/TextElementHandler.java:63 | a single character is kept exactly when it is not `'` |
| TextElementHandlers.WithoutQuotesConcat | src/com/johnzeringue/svgtopdf/handlers/TextElementHandler.java:63 | removing quotes distributes over concatenation, so the kept characters stay in order |
| TextElementHandlers.Round | src/com/johnzeringue/svgtopdf/handlers/TextElementHandler.java:67 | the rounded size is within one half of the size, halves rounded up |
| TextElementHandlers.TextFont | src/com/johnzeringue/svgtopdf/handlers/TextElementHandler.java:63-67 | readable exactly when font-family, font-size and font-weight are; the first unreadable of them, in that order, gives the error; the size is font-size and the font is bold exactly when the weight is "bold" |
| TextElementHandlers.TextOrigin | src/com/johnzeringue/svgtopdf/handlers/TextElementHandler.java:73-76 | readable exactly when pageHeight, x and y are; the first unreadable of them, in that order, gives the error; the position is (x, pageHeight − y) |
| TextElementHandlers.OpenText | src/com/johnzeringue/svgtopdf/handlers/TextElementHandler.java:55-76 | startElement's output always starts with q and BT; it ends normally or with an exception, and a normal end closes with the Td |
| TextElementHandlers.TextElementHandler.StartElement | src/com/johnzeringue/svgtopdf/handlers/TextElementHandler.java:55-77 | appends exactly what OpenText says, up to the first exception, and ends as it says |
| TextElementProperties.OpenTextOrder | src/com/johnzeringue/svgtopdf/handlers/TextElementHandler.java:57-76 | a normal startElement appends q, BT, the transform's cm's, `0.0 g`, the Tf of the family without quotes (bold exactly when weight is "bold", size rounded), then Td(x, pageHeight − y); every attribute it reads was readable |
| TextElementProperties.OpenTextFree | src/com/johnzeringue/svgtopdf/handlers/TextElementHandler.java:57-76 | after its q and BT, a normal startElement opens and closes no q/Q and no BT/ET |
| TextElementHandlers.TextElementHandler.Characters | src/com/johnzeringue/svgtopdf/handlers/TextElementHandler.java:80-82 | appends `ch[start .. start+length)` to the buffer and nothing to the stream; a range outside `ch` throws IndexOutOfBounds and changes nothing |
| TextElementHandlers.TextElementHandler.CloseSegment | src/com/johnzeringue/svgtopdf/handlers/TextElementHandler.java:96-120 | for a character above 127: the segment's Tj, then its marks; two spaces inserted after a character above 657; an unreadable font size throws after the q, with the buffer unchanged |
| TextElementHandlers.ScanLoopStep | src/com/johnzeringue/svgtopdf/handlers/TextElementHandler.java:95-121 | one iteration keeps endElement's invariants (emitted + rest-of-scan is fixed, final buffer is fixed) and strictly decreases the measure, though the buffer grows |
| TextElementHandlers.TextElementHandler.ScanStep | src/com/johnzeringue/svgtopdf/handlers/TextElementHandler.java:95-121 | one iteration either keeps the loop's invariants and strictly decreases its measure, or throws the font-size error at a character above 657, having appended the whole scan up to its q |
| TextElementHandlers.TextElementHandler.ScanSegments | src/com/johnzeringue/svgtopdf/handlers/TextElementHandler.java:94-122 | the loop ends normally exactly when the font size is readable or no character exceeds 657; then the buffer is padded and the trailing segment's Tj completes Scan of the old buffer; otherwise it throws with Scan appended and the buffer unchanged |
| TextRun.ScanHalts | src/com/johnzeringue/svgtopdf/handlers/TextElementHandler.java:99-102 | the scan ends with a q exactly when the font size cannot be read and some character exceeds 657; otherwise it ends with a Tj |
| TextElementHandlers.TextElementHandler.EndElement | src/com/johnzeringue/svgtopdf/handlers/TextElementHandler.java:93-127 | ends normally exactly when the font size is readable or no character exceeds 657; then appends Scan of the old buffer plus ET, Q, and leaves the buffer padded (Expand); otherwise throws the font-size error with the buffer unchanged |
| TextRun.Scan | src/com/johnzeringue/svgtopdf/handlers/TextElementHandler.java:94-124 | the scan first shows the pending segment, and ends with the trailing segment's Tj, or with the q of a symbol whose font size cannot be read |
| TextRun.Marks | src/com/johnzeringue/svgtopdf/handlers/TextElementHandler.java:99-118 | a character draws extra operators exactly when it is above 657 or is 177; above 657 they open with q and the Symbol font at the font size |
| TextRun.Expand | src/com/johnzeringue/svgtopdf/handlers/TextElementHandler.java:113 | the buffer grows by exactly two characters per character above 657 |
| TextRun.ExpandSpecials | src/com/johnzeringue/svgtopdf/handlers/TextElementHandler.java:113 | the padded buffer has the same characters above 127 as the buffer, in the same order: the insertion adds only spaces |
| TextRun.MarksCases | src/com/johnzeringue/svgtopdf/handlers/TextElementHandler.java:99-118 | a character above 657 gives q, Symbol Tf, `(l)` for 955 or `(s)` for 963 or nothing, then Q; 177 gives one `(\261) Tj`; any other character above 127 gives nothing |
| TextRun.Specials | src/com/johnzeringue/svgtopdf/handlers/TextElementHandler.java:96 | every character of the result is above 127 |
| TextRun.SpecialsChar | src/com/johnzeringue/svgtopdf/handlers/TextElementHandler.java:96 | a single character is kept exactly when it is above 127 |
| TextRun.SpecialsConcat | src/com/johnzeringue/svgtopdf/handlers/TextElementHandler.java:96 | Specials distributes over concatenation, so every character above 127 is kept, in order |
| TextRun.Segments | src/com/johnzeringue/svgtopdf/handlers/TextElementHandler.java:95-124 | one plain segment per character above 127, plus a trailing one |
| TextRun.ScanIsWeave | src/com/johnzeringue/svgtopdf/handlers/TextElementHandler.java:94-124 | the scan is the plain segments' Tj's, with each separating character's marks between consecutive ones |
| TextRun.SegmentsFlatten | src/com/johnzeringue/svgtopdf/handlers/TextElementHandler.java:94-124 | the segments, concatenated, are the buffer with every character above 127 deleted and two spaces after each above 657 |
| TextRun.MarksBalanced | src/com/johnzeringue/svgtopdf/handlers/TextElementHandler.java:99-112 | each character's marks are balanced in q/Q and hold no BT/ET |
| TextRun.ScanBalanced | src/com/johnzeringue/svgtopdf/handlers/TextElementHandler.java:94-124 | the whole scan is balanced in q/Q and holds no BT/ET |
| TextRun.ScanWithoutSymbols | src/com/johnzeringue/svgtopdf/handlers/TextElementHandler.java:99-104 | without a character above 657 the font size is never read and the buffer is not changed |
| TextRun.Padded | src/com/johnzeringue/svgtopdf/handlers/TextElementHandler.java:113 | the insertion adds two characters exactly at a character above 657 |
| TextRun.ScanAdvance | src/com/johnzeringue/svgtopdf/handlers/TextElementHandler.java:95-121 | the scan at position i is the character's operators followed by the scan of the padded buffer from i + 1, with the segment restarted after a character above 127 |
| TextRun.ExpandAdvance | src/com/johnzeringue/svgtopdf/handlers/TextElementHandler.java:95-113 | the insertion leaves the prefix and the final buffer unchanged, and the remaining length plus twice the remaining symbols strictly decreases |
| TextRun.ScanStops | src/com/johnzeringue/svgtopdf/handlers/TextElementHandler.java:97-102 | with the font size unreadable, the scan stops at a character above 657 after the segment's Tj and the q |
| TransformSyntax.Span | src/com/johnzeringue/svgtopdf/handlers/TextElementHandler.java:21-22 | greedy `\s*`: the longest prefix of whitespace, the rest not starting with whitespace |
| TransformSyntax.SpanOf | src/com/johnzeringue/svgtopdf/handlers/TextElementHandler.java:21-22 | a whitespace run followed by a non-whitespace character is exactly what `\s*` takes |
| TransformSyntax.Keyword | src/com/johnzeringue/svgtopdf/handlers/TextElementHandler.java:25-29 | a literal matches exactly when the input starts with it, and the rest is what follows |
| TransformSyntax.ReadNumeral | src/com/johnzeringue/svgtopdf/handlers/TextElementHandler.java:24 | a read numeral is well formed (`-?\d+(\.\d+)?`) and its text followed by the rest is the input |
| TransformSyntax.ReadNumeralOf | src/com/johnzeringue/svgtopdf/handlers/TextElementHandler.java:24 | any numeral followed by a non-digit, non-dot character is read back exactly |
| TransformSyntax.FractionValue | src/com/johnzeringue/svgtopdf/handlers/TextElementHandler.java:24 | the value of the fraction digits lies in [0, 1) |
| TransformSyntax.Numbers | src/com/johnzeringue/svgtopdf/handlers/TextElementHandler.java:24-29 | one well-formed group per NUMBER item of the pattern |
| TransformSyntax.ReadItem | src/com/johnzeringue/svgtopdf/handlers/TextElementHandler.java:21-29 | one item and its trailing `\s*`: the piece fits the item and is a prefix of the input; the rest does not start with whitespace |
| TransformSyntax.Match | src/com/johnzeringue/svgtopdf/handlers/TextElementHandler.java:145-147 | `lookingAt` (here and at lines 169-171): the matched text followed by the rest is the input; the rest does not start with whitespace; a pattern led by a word consumes input |
| TransformSyntax.MatchOf | src/com/johnzeringue/svgtopdf/handlers/TextElementHandler.java:169-171 | every printed match whose pieces do not run into each other is read back, pieces and rest |
| TransformSyntax.PatternRoundTrip | src/com/johnzeringue/svgtopdf/handlers/TextElementHandler.java:21-29 | a pattern whose items cannot run together matches every text it can print, when the text after it does not start with whitespace |
| TextElementProperties.TranslateRoundTrip | src/com/johnzeringue/svgtopdf/handlers/TextElementHandler.java:168-183 | every translate call parses to the translation (first number, minus the second) and leaves exactly the text after it |
| TextElementProperties.RotateRoundTrip | src/com/johnzeringue/svgtopdf/handlers/TextElementHandler.java:144-166 | every rotate call parses, when the page height is readable, to the three rotation cm's by its number, and leaves exactly the text after it |
| TextElementProperties.UnknownTransformLoops | src/com/johnzeringue/svgtopdf/handlers/TextElementHandler.java:132-141 | as written, a transform starting with neither 'r' nor 't' (`skew(5)`, a leading space) is never consumed: the loop does not end and appends nothing |
| TextElementProperties.UnknownTransformRejected | src/com/johnzeringue/svgtopdf/handlers/TextElementHandler.java:132-141 | corrected, such a transform throws the unknown-transform exception and appends nothing for itself |
| TextElementProperties.ConcatsFree | src/com/johnzeringue/svgtopdf/handlers/TextElementHandler.java:150-177 | transform operators open and close no bracket |
| TextElementProperties.SaveBracketsBalanced | src/com/johnzeringue/svgtopdf/handlers/TextElementHandler.java:100-112 | the outer q … Q (lines 57 and 126) with bracket-free text state and balanced marks inside is balanced |
| TextElementProperties.TextBracketsBalanced | src/com/johnzeringue/svgtopdf/handlers/TextElementHandler.java:59-125 | the BT … ET with no BT/ET inside is balanced |
| TextElementProperties.ElementBalanced | src/com/johnzeringue/svgtopdf/handlers/TextElementHandler.java:55-127 | a normal start/end pair writes a stream balanced in q/Q and in BT/ET, the Symbol brackets included |
| TextElementProperties.LambdaExample | src/com/johnzeringue/svgtopdf/handlers/TextElementHandler.java:95-124 | the text `x=λ` gives `(x=) Tj q /Symbol Tf (l) Tj Q (  ) Tj` |
| TextElementProperties.LambdaExpanded | src/com/johnzeringue/svgtopdf/handlers/TextElementHandler.java:113 | the buffer of `x=λ` becomes `x=λ` plus two spaces |
| Content.Value | src/com/johnzeringue/svgtopdf/handlers/TextElementHandler.java:130 | an attribute's text exactly when it is present, otherwise null |
| Content.ValueAsDouble | src/com/johnzeringue/SVGToPDFConverter/ElementHandler/Graphics/CircleElementHandler.java:17-19 | a missing attribute throws MissingAttribute; text the parser refuses throws NumberFormat; otherwise the parsed value |
| CircleElementHandlers.CircleElementHandler.DrawPath | src/com/johnzeringue/SVGToPDFConverter/ElementHandler/Graphics/CircleElementHandler.java:14-52 | on success appends exactly the circle's path around (cx, invertY(cy)); if r, cx or cy cannot be read, throws that error and appends nothing |
| CircleElementHandlers.CircleElementHandler.constructor | src/com/johnzeringue/SVGToPDFConverter/ElementHandler/Graphics/CircleElementHandler.java:8 | a new handler holds the element's attributes and the base class's invertY, and has appended nothing |
| CircleElementHandlers.Drawn | src/com/johnzeringue/SVGToPDFConverter/ElementHandler/Graphics/CircleElementHandler.java:17-51 | drawPath succeeds exactly when r, cx and cy are readable; then it draws a closed path: a move-to and four curves, the last ending at the move-to |
| CircleElementHandlers.CirclePath | src/com/johnzeringue/SVGToPDFConverter/ElementHandler/Graphics/CircleElementHandler.java:22-51 | the path is one move-to followed by exactly four curves |
| CircleElementHandlers.DrawnCases | src/com/johnzeringue/SVGToPDFConverter/ElementHandler/Graphics/CircleElementHandler.java:17-19 | r, cx, cy are read in that order and the first unreadable one gives the error |
| CircleElementHandlers.Offset | src/com/johnzeringue/SVGToPDFConverter/ElementHandler/Graphics/CircleElementHandler.java:20 | for a non-negative radius the offset lies in [0, r), and is 0 only for r = 0 |
| CircleElementHandlers.KappaBounds | src/com/johnzeringue/SVGToPDFConverter/ElementHandler/Graphics/CircleElementHandler.java:20 | the factor (4/3)(√2 − 1) lies in (0.55, 0.56) |
| CircleElementHandlers.Sqrt2Close | src/com/johnzeringue/SVGToPDFConverter/ElementHandler/Graphics/CircleElementHandler.java:20 | the constant used for Math.sqrt(2) squares to 2 within 10⁻¹⁵ |
| CircleElementHandlers.PathEndPoints | src/com/johnzeringue/SVGToPDFConverter/ElementHandler/Graphics/CircleElementHandler.java:22-51 | the move-to is at angle 0; the curves end at angles π/2, π, 3π/2 and 2π |
| CircleElementHandlers.PathClosed | src/com/johnzeringue/SVGToPDFConverter/ElementHandler/Graphics/CircleElementHandler.java:23-51 | the last curve ends where the move-to started |
| CircleElementHandlers.EndPointsOnCircle | src/com/johnzeringue/SVGToPDFConverter/ElementHandler/Graphics/CircleElementHandler.java:22-51 | every end point is at distance r from the centre |
| CircleElementHandlers.ControlPointsOnTangents | src/com/johnzeringue/SVGToPDFConverter/ElementHandler/Graphics/CircleElementHandler.java:27-51 | each curve's first control point is its start point moved Kappa·r along the tangent in the direction of travel; its second is its end point moved back the same amount |
| CircleElementHandlers.PathInBox | src/com/johnzeringue/SVGToPDFConverter/ElementHandler/Graphics/CircleElementHandler.java:20-51 | for r ≥ 0 every point of the path lies in the square [cx − r, cx + r] × [cy − r, cy + r] |
| CircleElementHandlers.DegenerateCircle | src/com/johnzeringue/SVGToPDFConverter/ElementHandler/Graphics/CircleElementHandler.java:17-51 | a circle of radius 0 puts every point of every operator at the centre |
| IntegerObjects.Digits | src/com/johnzeringue/svgtopdf/objects/IntegerObject.java:22-24 | the digits of n are decimal digits, have value n, and start with '0' only for n = 0 |
| IntegerObjects.Decimal | src/com/johnzeringue/svgtopdf/objects/IntegerObject.java:23 | String.valueOf: a '-' exactly for a negative value, then digits whose value is the magnitude |
| IntegerObjects.DigitsShort | src/com/johnzeringue/svgtopdf/objects/IntegerObject.java:23 | a number below 10^k has at most k digits |
| IntegerObjects.Text | src/com/johnzeringue/svgtopdf/objects/IntegerObject.java:22-24 | getText is one to eleven characters long |
| IntegerObjects.FromString | src/com/johnzeringue/svgtopdf/objects/IntegerObject.java:17-19 | a rejected text throws NumberFormatException on it; an accepted one is a sign and digits whose value is the object's magnitude, with '-' for a negative value |
| IntegerObjects.ParseInt | src/com/johnzeringue/svgtopdf/objects/IntegerObject.java:17-19 | a rejection is a NumberFormatException on the text; an accepted text ends in a digit and holds only digits after its first character; a leading '-' gives a value ≤ 0 |
| IntegerObjects.ParsedValue | src/com/johnzeringue/svgtopdf/objects/IntegerObject.java:17-19 | an accepted text is a sign and digits, with the signed value of the digits |
| IntegerObjects.ParseIntRejects | src/com/johnzeringue/svgtopdf/objects/IntegerObject.java:17-19 | the String constructor rejects "", "-", "+", "1x", " 1" and any text not ending in a digit |
| IntegerObjects.ParseIntRange | src/com/johnzeringue/svgtopdf/objects/IntegerObject.java:17-19 | digits whose value is outside the 32-bit range are rejected, with or without '-'; those within it are accepted with or without '+', with their (negated) value |
| IntegerObjects.ParseDigits | src/com/johnzeringue/svgtopdf/objects/IntegerObject.java:17-19 | a value's digits, unsigned or with a sign, parse back to the (signed) value |
| IntegerObjects.TextRoundTrip | src/com/johnzeringue/svgtopdf/objects/IntegerObject.java:13-24 | building from getText's text gives back an equal object, for every int |
| IntegerObjects.TextCanonical | src/com/johnzeringue/svgtopdf/objects/IntegerObject.java:22-24 | getText prints no '+', no leading zero and no "-0" |
| IntegerObjects.CanonicalText | src/com/johnzeringue/svgtopdf/objects/IntegerObject.java:17-24 | a canonical text the String constructor accepts is exactly the getText of the object it builds |
| IntegerObjects.DigitsOfValue | src/com/johnzeringue/svgtopdf/objects/IntegerObject.java:22-24 | a digit string without a leading zero is the decimal form of its value |
| IntegerObjects.Wrap32 | src/com/johnzeringue/svgtopdf/objects/IntegerObject.java:29 | the wrapped result is an int congruent to the input modulo 2³² |
| IntegerObjects.HashCode | src/com/johnzeringue/svgtopdf/objects/IntegerObject.java:27-31 | the hash is 41 · 5 + value modulo 2³², as int arithmetic computes it |
| IntegerObjects.WrapNear | src/com/johnzeringue/svgtopdf/objects/IntegerObject.java:29 | on the sums hashCode can form, wrapping subtracts 2³² at most once |
| IntegerObjects.HashCodeValue | src/com/johnzeringue/svgtopdf/objects/IntegerObject.java:27-31 | hashCode is 205 + value, and wraps to a negative number for values above 2³¹ − 206 |
| IntegerObjects.HashCodeAgrees | src/com/johnzeringue/svgtopdf/objects/IntegerObject.java:27-46 | equal objects have equal hashes, and objects with equal hashes are equal |
| IntegerObjects.Equals | src/com/johnzeringue/svgtopdf/objects/IntegerObject.java:34-46 | equals holds exactly when the other reference is an IntegerObject with the same value |
| IntegerObjects.EqualsEquivalence | src/com/johnzeringue/svgtopdf/objects/IntegerObject.java:34-46 | equals is reflexive, symmetric and transitive, false for null and for any other class, and compares `_value` |

## Findings

| source | as written | input that shows it | evidently intended | confidence | as-written member | corrected member |
|---|---|---|---|---|---|---|
| src/com/johnzeringue/svgtopdf/handlers/TextElementHandler.java:132-141 | the switch on the transform's first character has cases for 'r' and 't' only, and no default, so any other first character is never consumed and the loop never ends | `transform="skew(5)"`, or a transform with a leading space (`TextElementProperties.UnknownTransformLoops`) | throw IllegalArgumentException, as parseRotate and parseTranslate do for a call they do not recognise (`TextElementProperties.UnknownTransformRejected`, `TextElementHandlers.ChainCorrection`) | high; not executed | TextElementHandlers.ChainAsWritten | TextElementHandlers.Chain |

## Left out

- Operator text. `String.format` renders operands with `%f` and `%.1f`; the model keeps them as real operands. Show-text is written without escaping `(`, `)` or `\`; neither does the model escape.
- The font registry (`Fonts.getInstance().getFontTag`) and `java.awt.Font`. A `Tf` operator holds the font as requested (family, bold, rounded size, or "Symbol"), not the resolved tag.
- Floating point. Doubles are reals, with no rounding:
  - `Math.PI`, `Math.cos` and `Math.sin` are the fields of a `Trig` parameter;
  - `Math.sqrt(2)` is the exact real 1.4142135623730951, the shortest decimal that rounds to the double it returns;
  - `Double.parseDouble` of an attribute is a function parameter of the attributes;
  - the value of a matched NUMBER group is its exact decimal value.
- TextElementHandlers.Round: `Math.round` is floor(x + 0.5) over the reals; the long result's range and the `(int)` cast's truncation are not modelled.
- The base classes:
  - `getValue` and `getValueAsDouble` are modelled as a map lookup (`Content.Value`, `Content.ValueAsDouble`);
  - `invertY` is a function given to the circle handler;
  - `appendToPDFObjectContents` and `StreamObject.append` are appends to a sequence.
- TextElementHandlers.TextElementHandler.ParseRotate: the code reads `pageHeight` twice, once for each translation. The attributes do not change between the reads, so the model reads it once.
- Java `char` values: a Java `char` is a UTF-16 code unit; the model uses Dafny characters (Unicode scalar values). Text with characters outside the Basic Multilingual Plane is not modelled.
- IntegerObjects.ParseInt: accepts ASCII digits only. `Integer.parseInt` also accepts the other Unicode decimal digits, and it throws for a null string; the model's text is never null.
- The SAX event plumbing, handler dispatch, and the trivial `getDirectObject` and `hasDirectObject`.
- The base class that gives the circle handler its attributes and `invertY`. Both are parameters of the model's constructor.
- Concrete instances of the transform round trip (a literal string such as `translate(10, 20)`) are not stated. The general lemmas `TextElementProperties.TranslateRoundTrip` and `TextElementProperties.RotateRoundTrip` cover them.
