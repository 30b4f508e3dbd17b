/**
 * UTF-8, as Python's `str.encode('utf-8')` and strict `bytes.decode('utf-8')`
 * perform it. Dafny's `char` is a Unicode scalar value, which is exactly what
 * a Python 3 `str` holds once lone surrogates are ruled out.
 */
module Utf8 {
  import opened Wrappers

  type byte = x: int | 0 <= x < 256

  predicate IsContinuation(b: byte) { 0x80 <= b < 0xC0 }

  /** The bytes of one character: 1 to 4 of them, by the size of its code point. */
  function EncodeChar(c: char): (r: seq<byte>)
    ensures 1 <= |r| <= 4
    ensures (|r| == 1) == (c as int < 0x80)
  {
    var n := c as int;
    if n < 0x80 then [n]
    else if n < 0x800 then [0xC0 + n / 64, 0x80 + n % 64]
    else if n < 0x1_0000 then [0xE0 + n / 64 / 64, 0x80 + (n / 64) % 64, 0x80 + n % 64]
    else [0xF0 + n / 64 / 64 / 64, 0x80 + (n / 64 / 64) % 64, 0x80 + (n / 64) % 64, 0x80 + n % 64]
  }

  function Encode(s: string): (r: seq<byte>)
    ensures |r| >= |s|
    ensures s != [] ==> r != []
  {
    if s == [] then [] else EncodeChar(s[0]) + Encode(s[1..])
  }

  /**
   * Reads one character off the front of `b` and says how many bytes it took.
   * Like Python's strict decoder it refuses overlong forms, surrogates, code
   * points past U+10FFFF, stray continuation bytes and truncated sequences.
   */
  function DecodeChar(b: seq<byte>): Option<(char, nat)>
  {
    if |b| == 0 then None
    else if b[0] < 0x80 then Some((b[0] as char, 1))
    else if 0xC2 <= b[0] <= 0xDF then
      if |b| >= 2 && IsContinuation(b[1]) then
        Some((((b[0] as int - 0xC0) * 64 + (b[1] as int - 0x80)) as char, 2))
      else None
    else if 0xE0 <= b[0] <= 0xEF then
      if |b| >= 3 && IsContinuation(b[1]) && IsContinuation(b[2]) then
        var cp := (b[0] as int - 0xE0) * 4096 + (b[1] as int - 0x80) * 64 + (b[2] as int - 0x80);
        if 0x800 <= cp && !(0xD800 <= cp <= 0xDFFF) then Some((cp as char, 3)) else None
      else None
    else if 0xF0 <= b[0] <= 0xF4 then
      if |b| >= 4 && IsContinuation(b[1]) && IsContinuation(b[2]) && IsContinuation(b[3]) then
        var cp := (b[0] as int - 0xF0) * 262144 + (b[1] as int - 0x80) * 4096 + (b[2] as int - 0x80) * 64 + (b[3] as int - 0x80);
        if 0x1_0000 <= cp <= 0x10_FFFF then Some((cp as char, 4)) else None
      else None
    else None
  }

  /** `bytes.decode('utf-8')`: None stands for the UnicodeDecodeError. */
  function Decode(b: seq<byte>): Option<string>
    decreases |b|
  {
    if b == [] then Some([])
    else match DecodeChar(b)
      case None => None
      case Some((c, n)) =>
        if 1 <= n <= |b| then
          match Decode(b[n..])
          case None => None
          case Some(rest) => Some([c] + rest)
        else None
  }

  lemma DecodeCharOfEncoded(c: char, rest: seq<byte>)
    ensures DecodeChar(EncodeChar(c) + rest) == Some((c, |EncodeChar(c)|))
  {
    var n := c as int;
    if n < 0x80 {
    } else if n < 0x800 {
      DecodeTwoOfEncoded(c, rest);
    } else if n < 0x1_0000 {
      DecodeThreeOfEncoded(c, rest);
    } else {
      DecodeFourOfEncoded(c, rest);
    }
  }

  /** Splitting off the last six bits: `q * 64 + r` has quotient `q` and remainder `r`. */
  lemma Digits(q: int, r: int)
    requires 0 <= r < 64
    ensures (q * 64 + r) / 64 == q && (q * 64 + r) % 64 == r
  {
  }

  lemma DecodeTwoOfEncoded(c: char, rest: seq<byte>)
    requires 0x80 <= c as int < 0x800
    ensures DecodeChar(EncodeChar(c) + rest) == Some((c, 2))
  {
    var n := c as int;
    var b := EncodeChar(c) + rest;
    assert n == (n / 64) * 64 + n % 64;
    assert b[0] as int - 0xC0 == n / 64 && b[1] as int - 0x80 == n % 64;
  }

  lemma DecodeThreeOfEncoded(c: char, rest: seq<byte>)
    requires 0x800 <= c as int < 0x1_0000
    ensures DecodeChar(EncodeChar(c) + rest) == Some((c, 3))
  {
    var n := c as int;
    var q := n / 64;
    assert n == q * 64 + n % 64;
    assert q == (q / 64) * 64 + q % 64;
    var b := EncodeChar(c) + rest;
    assert b[0] as int - 0xE0 == q / 64 && b[1] as int - 0x80 == q % 64 && b[2] as int - 0x80 == n % 64;
    assert (b[0] as int - 0xE0) * 4096 + (b[1] as int - 0x80) * 64 + (b[2] as int - 0x80) == (q / 64 * 64 + q % 64) * 64 + n % 64;
  }

  lemma DecodeFourOfEncoded(c: char, rest: seq<byte>)
    requires 0x1_0000 <= c as int
    ensures DecodeChar(EncodeChar(c) + rest) == Some((c, 4))
  {
    var n := c as int;
    var q := n / 64;
    var p := q / 64;
    assert n == q * 64 + n % 64;
    assert q == p * 64 + q % 64;
    assert p == (p / 64) * 64 + p % 64;
    var b := EncodeChar(c) + rest;
    assert b[0] as int - 0xF0 == p / 64 && b[1] as int - 0x80 == p % 64;
    assert b[2] as int - 0x80 == q % 64 && b[3] as int - 0x80 == n % 64;
    assert (b[0] as int - 0xF0) * 262144 + (b[1] as int - 0x80) * 4096 + (b[2] as int - 0x80) * 64 + (b[3] as int - 0x80)
           == ((p / 64 * 64 + p % 64) * 64 + q % 64) * 64 + n % 64;
  }

  /** A character the decoder accepts was written in its one canonical form. */
  lemma DecodeCharIsCanonical(b: seq<byte>)
    requires DecodeChar(b).Some?
    ensures 1 <= DecodeChar(b).value.1 <= |b|
    ensures b[..DecodeChar(b).value.1] == EncodeChar(DecodeChar(b).value.0)
  {
    if b[0] < 0x80 {
    } else if 0xC2 <= b[0] <= 0xDF {
      CanonicalTwo(b);
    } else if 0xE0 <= b[0] <= 0xEF {
      CanonicalThree(b);
    } else {
      CanonicalFour(b);
    }
  }

  lemma CanonicalTwo(b: seq<byte>)
    requires DecodeChar(b).Some? && 0xC2 <= b[0] <= 0xDF
    ensures DecodeChar(b).value.1 == 2 <= |b|
    ensures b[..2] == EncodeChar(DecodeChar(b).value.0)
  {
    var x := b[0] as int - 0xC0;
    var y := b[1] as int - 0x80;
    Digits(x, y);
    assert EncodeChar(DecodeChar(b).value.0) == [b[0], b[1]];
  }

  lemma CanonicalThree(b: seq<byte>)
    requires DecodeChar(b).Some? && 0xE0 <= b[0] <= 0xEF
    ensures DecodeChar(b).value.1 == 3 <= |b|
    ensures b[..3] == EncodeChar(DecodeChar(b).value.0)
  {
    var x := b[0] as int - 0xE0;
    var y := b[1] as int - 0x80;
    var z := b[2] as int - 0x80;
    var n := DecodeChar(b).value.0 as int;
    assert n == (x * 64 + y) * 64 + z;
    Digits(x * 64 + y, z);
    Digits(x, y);
    assert EncodeChar(DecodeChar(b).value.0) == [b[0], b[1], b[2]];
  }

  lemma CanonicalFour(b: seq<byte>)
    requires DecodeChar(b).Some? && 0xF0 <= b[0] <= 0xF4
    ensures DecodeChar(b).value.1 == 4 <= |b|
    ensures b[..4] == EncodeChar(DecodeChar(b).value.0)
  {
    var w := b[0] as int - 0xF0;
    var x := b[1] as int - 0x80;
    var y := b[2] as int - 0x80;
    var z := b[3] as int - 0x80;
    var n := DecodeChar(b).value.0 as int;
    assert n == ((w * 64 + x) * 64 + y) * 64 + z;
    Digits((w * 64 + x) * 64 + y, z);
    Digits(w * 64 + x, y);
    Digits(w, x);
    assert EncodeChar(DecodeChar(b).value.0) == [b[0], b[1], b[2], b[3]];
  }

  /** Every string survives encoding and decoding. */
  lemma {:induction false} DecodeEncode(s: string)
    ensures Decode(Encode(s)) == Some(s)
  {
    if s != [] {
      var e := EncodeChar(s[0]);
      DecodeCharOfEncoded(s[0], Encode(s[1..]));
      assert Encode(s) == e + Encode(s[1..]);
      assert Encode(s)[|e|..] == Encode(s[1..]);
      DecodeEncode(s[1..]);
      assert [s[0]] + s[1..] == s;
    }
  }

  /** One step of a successful decode: the first character, then the decoding of what follows it. */
  lemma DecodeStep(b: seq<byte>)
    requires b != [] && Decode(b).Some?
    ensures DecodeChar(b).Some? && 1 <= DecodeChar(b).value.1 <= |b|
    ensures Decode(b[DecodeChar(b).value.1..]).Some?
    ensures Decode(b).value == [DecodeChar(b).value.0] + Decode(b[DecodeChar(b).value.1..]).value
  {
  }

  lemma EncodeCons(c: char, s: string)
    ensures Encode([c] + s) == EncodeChar(c) + Encode(s)
  {
    assert ([c] + s)[0] == c && ([c] + s)[1..] == s;
  }

  /** Every byte string the decoder accepts is re-encoded to exactly the same bytes. */
  lemma {:induction false} EncodeDecode(b: seq<byte>)
    requires Decode(b).Some?
    ensures Encode(Decode(b).value) == b
    decreases |b|
  {
    if b != [] {
      DecodeStep(b);
      var c := DecodeChar(b).value.0;
      var n := DecodeChar(b).value.1;
      var rest := Decode(b[n..]).value;
      EncodeDecode(b[n..]);
      DecodeCharIsCanonical(b);
      EncodeDecodeStep(b, c, n, rest);
    }
  }

  /** The first character re-encoded, followed by the re-encoded rest, gives back the bytes. */
  lemma EncodeDecodeStep(b: seq<byte>, c: char, n: nat, rest: string)
    requires 1 <= n <= |b| && b[..n] == EncodeChar(c) && Encode(rest) == b[n..]
    ensures Encode([c] + rest) == b
  {
    EncodeCons(c, rest);
    assert b[..n] + b[n..] == b;
  }

  /** Decoding succeeds exactly on the encodings of strings. */
  lemma DecodeSucceedsIffEncoding(b: seq<byte>)
    ensures Decode(b).Some? <==> exists s :: Encode(s) == b
  {
    if Decode(b).Some? {
      EncodeDecode(b);
    }
    if exists s :: Encode(s) == b {
      var s :| Encode(s) == b;
      DecodeEncode(s);
    }
  }

  lemma {:induction false} EncodeAppend(s: string, t: string)
    ensures Encode(s + t) == Encode(s) + Encode(t)
  {
    if s == [] {
      assert s + t == t;
    } else {
      assert (s + t)[0] == s[0] && (s + t)[1..] == s[1..] + t;
      EncodeAppend(s[1..], t);
    }
  }

  /** ASCII text is encoded one byte per character, each byte the code point. */
  lemma {:induction false} EncodeAscii(s: string)
    requires forall i :: 0 <= i < |s| ==> s[i] as int < 0x80
    ensures |Encode(s)| == |s|
    ensures forall i :: 0 <= i < |s| ==> Encode(s)[i] == s[i] as int
  {
    if s != [] {
      EncodeAscii(s[1..]);
    }
  }
}
