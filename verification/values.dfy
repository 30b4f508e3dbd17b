/**
 * The Python values that flow through fields and entries: None, bool, int,
 * str, bytes, lists of values, and references to LDAPNode objects. A node
 * reference carries what the mapper ever asks of a node: the name of its
 * class's primary field ("" when the class has none), that field's value,
 * its DN (which is its repr()) and its str() text, taken as given.
 */
module PyValues {
  import opened Wrappers
  import opened Utf8
  import opened DecimalText

  datatype Value =
    | PyNone
    | Bool(b: bool)
    | Int(i: int)
    | Str(s: string)
    | Bytes(bs: seq<byte>)
    | List(items: seq<Value>)
    | Node(primaryName: string, primaryValue: Value, dn: string, text: string)

  /** Python truthiness; an LDAPNode defines neither __bool__ nor __len__, so it is true. */
  predicate Truthy(v: Value)
  {
    match v
    case PyNone => false
    case Bool(b) => b
    case Int(i) => i != 0
    case Str(s) => s != []
    case Bytes(bs) => bs != []
    case List(items) => items != []
    case Node(_, _, _, _) => true
  }

  /**
   * Whether `hash()` accepts the value, so that it can be a set member: a
   * list is unhashable; an LDAPNode defines `__hash__`.
   */
  predicate Hashable(v: Value)
  {
    !v.List?
  }

  /** Digits parse to their value. */
  lemma ParseDigitText(digits: string, forBytes: bool)
    requires digits != [] && forall i :: 0 <= i < |digits| ==> IsDigit(digits[i])
    ensures ParseInt(digits, forBytes) == Some(DigitsValue(digits))
  {
    StripNothing(digits, forBytes);
    ParseSignedDigits(digits);
  }

  /** A '-' followed by digits parses to the digits' value negated. */
  lemma ParseNegativeText(neg: string, forBytes: bool)
    requires |neg| >= 2 && neg[0] == '-'
    requires forall i :: 1 <= i < |neg| ==> IsDigit(neg[i])
    ensures ParseInt(neg, forBytes) == Some(-(DigitsValue(neg[1..]) as int))
  {
    StripNegative(neg, forBytes);
    ParseSignedNegative(neg);
  }

  /** `int(str(i)) == i` for every int, under either whitespace convention. */
  lemma ParseDecimal(i: int, forBytes: bool)
    ensures ParseInt(IntToDecimal(i), forBytes) == Some(i)
  {
    if i < 0 {
      ParseNegatedDecimal(-i, forBytes);
    } else {
      DigitsValueOfDecimal(i);
      ParseDigitText(NatToDecimal(i), forBytes);
    }
  }

  lemma ParseNegatedDecimal(n: nat, forBytes: bool)
    requires n > 0
    ensures ParseInt("-" + NatToDecimal(n), forBytes) == Some(-(n as int))
  {
    var d := NatToDecimal(n);
    DigitsValueOfDecimal(n);
    var neg := "-" + d;
    assert neg[1..] == d;
    assert forall k :: 1 <= k < |neg| ==> neg[k] == d[k - 1];
    ParseNegativeText(neg, forBytes);
  }

  /** `str(int(s)) == s` for canonical decimal text. */
  lemma DecimalOfParse(s: string, forBytes: bool)
    requires IsCanonicalDecimal(s)
    ensures ParseInt(s, forBytes).Some?
    ensures IntToDecimal(ParseInt(s, forBytes).value) == s
  {
    if s[0] == '-' {
      var body := s[1..];
      assert forall k :: 1 <= k < |s| ==> s[k] == body[k - 1];
      ParseNegativeText(s, forBytes);
      DecimalOfDigits(body);
      DigitsValuePositive(body);
      assert s == "-" + body;
    } else {
      ParseDigitText(s, forBytes);
      DecimalOfDigits(s);
    }
  }

  /** Why `int(value)` failed: ValueError (unparsable text) or TypeError (not a number-like type). */
  datatype IntError = NotNumeric | NotConvertible

  /** Bytes read as Latin-1 text: `int(b)` only ever succeeds on ASCII bytes, which this leaves unchanged. */
  function BytesAsText(b: seq<byte>): (s: string)
    ensures |s| == |b|
  {
    if b == [] then [] else [b[0] as char] + BytesAsText(b[1..])
  }

  /** Python's `int(v)` for the values the model knows. */
  function ToInt(v: Value): Result<int, IntError>
  {
    match v
    case Int(i) => Success(i)
    case Bool(b) => Success(if b then 1 else 0)
    case Str(s) =>
      (match ParseInt(s, false)
       case Some(i) => Success(i)
       case None => Failure(NotNumeric))
    case Bytes(bs) =>
      (match ParseInt(BytesAsText(bs), true)
       case Some(i) => Success(i)
       case None => Failure(NotNumeric))
    case _ => Failure(NotConvertible)
  }

  // ---------------------------------------------------------------------------
  // str() and repr()
  // ---------------------------------------------------------------------------

  function HexDigit(d: int): char
    requires 0 <= d < 16
  {
    "0123456789abcdef"[d]
  }

  function Hex2(n: int): string
    requires 0 <= n < 256
  {
    [HexDigit(n / 16), HexDigit(n % 16)]
  }

  /** The quote repr() picks: a double quote only when the text holds a single quote and no double quote. */
  function QuoteFor(hasSingle: bool, hasDouble: bool): char
  {
    if hasSingle && !hasDouble then '"' else '\''
  }

  function EscapeChar(c: char, quote: char): string
  {
    if c == quote || c == '\\' then ['\\', c]
    else if c == '\t' then "\\t"
    else if c == '\n' then "\\n"
    else if c == '\r' then "\\r"
    else if c as int < 0x20 || c as int == 0x7f then "\\x" + Hex2(c as int)
    else [c]
  }

  function EscapeAll(s: string, quote: char): string
  {
    if s == [] then [] else EscapeChar(s[0], quote) + EscapeAll(s[1..], quote)
  }

  /** `repr(s)` for a str. */
  function StrRepr(s: string): string
  {
    var q := QuoteFor('\'' in s, '"' in s);
    [q] + EscapeAll(s, q) + [q]
  }

  function EscapeByte(b: byte, quote: char): string
  {
    if b == quote as int || b == '\\' as int then ['\\', b as char]
    else if b == 9 then "\\t"
    else if b == 10 then "\\n"
    else if b == 13 then "\\r"
    else if b < 0x20 || b >= 0x7f then "\\x" + Hex2(b)
    else [b as char]
  }

  function EscapeBytes(bs: seq<byte>, quote: char): string
  {
    if bs == [] then [] else EscapeByte(bs[0], quote) + EscapeBytes(bs[1..], quote)
  }

  /** `repr(b)` (and `str(b)`) for bytes. */
  function BytesRepr(bs: seq<byte>): string
  {
    var q := QuoteFor(0x27 in bs, 0x22 in bs);
    "b" + [q] + EscapeBytes(bs, q) + [q]
  }

  /** `str(v)`. */
  function Text(v: Value): string
    decreases v, 1
  {
    match v
    case PyNone => "None"
    case Bool(b) => if b then "True" else "False"
    case Int(i) => IntToDecimal(i)
    case Str(s) => s
    case Bytes(bs) => BytesRepr(bs)
    case List(items) => "[" + ReprJoin(items) + "]"
    case Node(_, _, _, text) => text
  }

  /** `repr(v)`: quoted for str, the DN for an LDAPNode, as `str()` otherwise. */
  function Repr(v: Value): string
    decreases v, 2
  {
    if v.Str? then StrRepr(v.s) else if v.Node? then v.dn else Text(v)
  }

  /** `', '.join(repr(x) for x in items)`. */
  function ReprJoin(items: seq<Value>): string
    decreases items, 0
  {
    if items == [] then ""
    else if |items| == 1 then Repr(items[0])
    else Repr(items[0]) + ", " + ReprJoin(items[1..])
  }

  // ---------------------------------------------------------------------------
  // Ordering (`<`), as LDAPNode.__lt__ applies it to primary values
  // ---------------------------------------------------------------------------

  /** Lexicographic order by code point, which is how Python orders str. */
  predicate StrLess(a: string, b: string)
  {
    if a == [] then b != []
    else if b == [] then false
    else if a[0] != b[0] then a[0] < b[0]
    else StrLess(a[1..], b[1..])
  }

  /** `a < b` for two Python values; None is the TypeError of an unorderable pair. */
  function PyLess(a: Value, b: Value): Option<bool>
  {
    match (a, b)
    case (Str(x), Str(y)) => Some(StrLess(x, y))
    case (Int(x), Int(y)) => Some(x < y)
    case (Int(x), Bool(y)) => Some(x < (if y then 1 else 0))
    case (Bool(x), Int(y)) => Some((if x then 1 else 0) < y)
    case (Bool(x), Bool(y)) => Some(!x && y)
    case _ => None
  }

  lemma {:induction false} StrLessIrreflexive(a: string)
    ensures !StrLess(a, a)
  {
    if a != [] {
      StrLessIrreflexive(a[1..]);
    }
  }

  /** No value is below itself. */
  lemma PyLessIrreflexive(a: Value)
    ensures PyLess(a, a) != Some(true)
  {
    if a.Str? {
      StrLessIrreflexive(a.s);
    }
  }

  lemma {:induction false} StrLessTransitive(a: string, b: string, c: string)
    requires StrLess(a, b) && StrLess(b, c)
    ensures StrLess(a, c)
  {
    if a != [] && a[0] == b[0] && b[0] == c[0] {
      StrLessTransitive(a[1..], b[1..], c[1..]);
    }
  }

  lemma {:induction false} StrLessTotal(a: string, b: string)
    requires a != b
    ensures StrLess(a, b) || StrLess(b, a)
  {
    if a != [] && b != [] && a[0] == b[0] {
      assert a == [a[0]] + a[1..] && b == [b[0]] + b[1..];
      StrLessTotal(a[1..], b[1..]);
    }
  }
}
