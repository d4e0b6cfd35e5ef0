/** Python text: sequences of code points, their UTF-8 and UTF-16-LE forms, and decimal integers. */
module Text {
  import opened Bytes

  /** A code point; unlike a Unicode scalar value it may be a surrogate, as in a Python str. */
  newtype CodePoint = x: int | 0 <= x < 0x11_0000

  type Str = seq<CodePoint>

  datatype Encoding = Utf8 | Utf16LE

  /** str.encode raises on surrogates. */
  predicate Scalar(c: CodePoint) {
    !(0xD800 <= c < 0xE000)
  }

  predicate IsAscii(s: Str) {
    forall i :: 0 <= i < |s| ==> s[i] < 0x80
  }

  // ---- one character ----

  /** Section 3 of RFC 3629, and section 2.1 of RFC 2781 for the little-endian UTF-16 form. */
  function EncodeChar(e: Encoding, c: CodePoint): (r: bytes)
    requires Scalar(c)
    ensures 1 <= |r| <= 4
    ensures e.Utf8? ==> (|r| == 1 <==> c < 0x80)
  {
    var n := c as int;
    match e
    case Utf8 =>
      if n < 0x80 then [n as byte]
      else if n < 0x800 then [(0xC0 + n / 0x40) as byte, Continuation(n)]
      else if n < 0x1_0000 then [(0xE0 + n / 0x1000) as byte, Continuation(n / 0x40), Continuation(n)]
      else [(0xF0 + n / 0x4_0000) as byte, Continuation(n / 0x1000), Continuation(n / 0x40), Continuation(n)]
    case Utf16LE =>
      if n < 0x1_0000 then Unit(n)
      else Unit(0xD800 + (n - 0x1_0000) / 0x400) + Unit(0xDC00 + (n - 0x1_0000) % 0x400)
  }

  function Continuation(n: nat): byte {
    (0x80 + n % 0x40) as byte
  }

  function Unit(n: nat): bytes
    requires n < 0x1_0000
  {
    [(n % 256) as byte, (n / 256) as byte]
  }

  datatype Char = Char(c: CodePoint, width: nat)

  /** The strict decoders: overlong forms, surrogates, lone halves and truncated input are errors. */
  function DecodeChar(e: Encoding, bs: bytes): (r: Option<Char>)
    requires bs != []
    ensures r.Some? ==> 1 <= r.value.width <= |bs|
  {
    match e
    case Utf8 => DecodeUtf8Char(bs)
    case Utf16LE => DecodeUtf16Char(bs)
  }

  function Six(b: byte): Option<nat> {
    if 0x80 <= b < 0xC0 then Some(b as int - 0x80) else None
  }

  function DecodeUtf8Char(bs: bytes): (r: Option<Char>)
    requires bs != []
    ensures r.Some? ==> 1 <= r.value.width <= |bs|
  {
    var b := bs[0] as int;
    if b < 0x80 then Some(Char(b as CodePoint, 1))
    else if 0xC2 <= b < 0xE0 && |bs| >= 2 then
      var x :- Six(bs[1]);
      Some(Char(((b - 0xC0) * 0x40 + x) as CodePoint, 2))
    else if 0xE0 <= b < 0xF0 && |bs| >= 3 then
      var x :- Six(bs[1]);
      var y :- Six(bs[2]);
      var n := (b - 0xE0) * 0x1000 + x * 0x40 + y;
      if 0x800 <= n && Scalar(n as CodePoint) then Some(Char(n as CodePoint, 3)) else None
    else if 0xF0 <= b < 0xF5 && |bs| >= 4 then
      var x :- Six(bs[1]);
      var y :- Six(bs[2]);
      var z :- Six(bs[3]);
      var n := (b - 0xF0) * 0x4_0000 + x * 0x1000 + y * 0x40 + z;
      if 0x1_0000 <= n < 0x11_0000 then Some(Char(n as CodePoint, 4)) else None
    else None
  }

  function UnitAt(bs: bytes, i: nat): (n: nat)
    requires i + 1 < |bs|
    ensures n < 0x1_0000
  {
    bs[i] as int + 256 * bs[i + 1] as int
  }

  function DecodeUtf16Char(bs: bytes): (r: Option<Char>)
    requires bs != []
    ensures r.Some? ==> 1 <= r.value.width <= |bs|
  {
    if |bs| < 2 then None
    else
      var hi := UnitAt(bs, 0);
      if Scalar(hi as CodePoint) then Some(Char(hi as CodePoint, 2))
      else if hi < 0xDC00 && |bs| >= 4 && 0xDC00 <= UnitAt(bs, 2) < 0xE000 then
        Some(Char((0x1_0000 + (hi - 0xD800) * 0x400 + (UnitAt(bs, 2) - 0xDC00)) as CodePoint, 4))
      else None
  }

  lemma Split64(n: nat)
    ensures n == n / 0x40 * 0x40 + n % 0x40
    ensures n / 0x1000 == n / 0x40 / 0x40 && n / 0x4_0000 == n / 0x1000 / 0x40
  {}

  lemma Utf8RoundTrip(c: CodePoint, rest: bytes)
    requires Scalar(c)
    ensures DecodeUtf8Char(EncodeChar(Utf8, c) + rest) == Some(Char(c, |EncodeChar(Utf8, c)|))
  {
    var p := EncodeChar(Utf8, c);
    var bs := p + rest;
    assert bs[..|p|] == p && bs[0] == p[0];
    if 0x80 <= c < 0x800 {
      TwoRoundTrip(c, bs);
    } else if 0x800 <= c < 0x1_0000 {
      ThreeRoundTrip(c, bs);
    } else if 0x1_0000 <= c {
      FourRoundTrip(c, bs);
    }
  }

  lemma TwoRoundTrip(c: CodePoint, bs: bytes)
    requires Scalar(c) && 0x80 <= c < 0x800 && EncodeChar(Utf8, c) <= bs
    ensures DecodeUtf8Char(bs) == Some(Char(c, 2))
  {
    var n, p := c as int, EncodeChar(Utf8, c);
    Split64(n);
    assert bs[0] == p[0] && bs[1] == p[1];
    assert Six(bs[1]) == Some(n % 0x40);
  }

  lemma ThreeRoundTrip(c: CodePoint, bs: bytes)
    requires Scalar(c) && 0x800 <= c < 0x1_0000 && EncodeChar(Utf8, c) <= bs
    ensures DecodeUtf8Char(bs) == Some(Char(c, 3))
  {
    var n, p := c as int, EncodeChar(Utf8, c);
    Split64(n);
    Split64(n / 0x40);
    assert bs[0] == p[0] && bs[1] == p[1] && bs[2] == p[2];
    assert Six(bs[1]) == Some(n / 0x40 % 0x40) && Six(bs[2]) == Some(n % 0x40);
  }

  lemma FourRoundTrip(c: CodePoint, bs: bytes)
    requires Scalar(c) && 0x1_0000 <= c && EncodeChar(Utf8, c) <= bs
    ensures DecodeUtf8Char(bs) == Some(Char(c, 4))
  {
    var n, p := c as int, EncodeChar(Utf8, c);
    Split64(n);
    Split64(n / 0x40);
    Split64(n / 0x1000);
    assert bs[0] == p[0] && bs[1] == p[1] && bs[2] == p[2] && bs[3] == p[3];
    assert Six(bs[1]) == Some(n / 0x1000 % 0x40);
    assert Six(bs[2]) == Some(n / 0x40 % 0x40) && Six(bs[3]) == Some(n % 0x40);
  }

  /** The bytes of a code point in UTF-8: a lead byte that tells their number, and six bits in each of the others. */
  lemma Utf8Form(c: CodePoint)
    requires Scalar(c)
    ensures var r := EncodeChar(Utf8, c);
            && |r| == (if c < 0x80 then 1 else if c < 0x800 then 2 else if c < 0x1_0000 then 3 else 4)
            && (forall i :: 1 <= i < |r| ==> 0x80 <= r[i] < 0xC0)
            && c as int == match |r|
                           case 1 => r[0] as int
                           case 2 => (r[0] as int - 0xC0) * 0x40 + (r[1] as int - 0x80)
                           case 3 => (r[0] as int - 0xE0) * 0x1000 + (r[1] as int - 0x80) * 0x40 + (r[2] as int - 0x80)
                           case _ => (r[0] as int - 0xF0) * 0x4_0000 + (r[1] as int - 0x80) * 0x1000
                                     + (r[2] as int - 0x80) * 0x40 + (r[3] as int - 0x80)
  {
    var n := c as int;
    Split64(n);
    Split64(n / 0x40);
    Split64(n / 0x1000);
  }

  /** In UTF-16LE: one unit, or a high and a low surrogate, each with its low byte first. */
  lemma Utf16Form(c: CodePoint)
    requires Scalar(c)
    ensures var r := EncodeChar(Utf16LE, c);
            if c < 0x1_0000 then |r| == 2 && c as int == r[0] as int + 256 * r[1] as int
            else
              && |r| == 4
              && var hi, lo := r[0] as int + 256 * r[1] as int, r[2] as int + 256 * r[3] as int;
                 && 0xD800 <= hi < 0xDC00 <= lo < 0xE000
                 && c as int == 0x1_0000 + (hi - 0xD800) * 0x400 + (lo - 0xDC00)
  {}

  lemma UnitRoundTrip(n: nat, bs: bytes, i: nat)
    requires n < 0x1_0000 && i + 1 < |bs| && bs[i..i + 2] == Unit(n)
    ensures UnitAt(bs, i) == n
  {
    assert bs[i] == bs[i..i + 2][0] && bs[i + 1] == bs[i..i + 2][1];
  }

  lemma Utf16RoundTrip(c: CodePoint, rest: bytes)
    requires Scalar(c)
    ensures DecodeUtf16Char(EncodeChar(Utf16LE, c) + rest) == Some(Char(c, |EncodeChar(Utf16LE, c)|))
  {
    var n := c as int;
    var bs := EncodeChar(Utf16LE, c) + rest;
    if n < 0x1_0000 {
      UnitRoundTrip(n, bs, 0);
    } else {
      UnitRoundTrip(0xD800 + (n - 0x1_0000) / 0x400, bs, 0);
      UnitRoundTrip(0xDC00 + (n - 0x1_0000) % 0x400, bs, 2);
    }
  }

  lemma CharRoundTrip(e: Encoding, c: CodePoint, rest: bytes)
    requires Scalar(c)
    ensures DecodeChar(e, EncodeChar(e, c) + rest) == Some(Char(c, |EncodeChar(e, c)|))
  {
    match e
    case Utf8 => Utf8RoundTrip(c, rest);
    case Utf16LE => Utf16RoundTrip(c, rest);
  }

  lemma JoinSix(high: nat, x: nat)
    requires x < 0x40
    ensures (high * 0x40 + x) / 0x40 == high && (high * 0x40 + x) % 0x40 == x
  {}

  lemma SixContinues(b: byte, n: nat)
    requires Six(b) == Some(n % 0x40)
    ensures Continuation(n) == b
  {}

  lemma Utf8Canonical(bs: bytes)
    requires bs != [] && DecodeUtf8Char(bs).Some?
    ensures var r := DecodeUtf8Char(bs).value; Scalar(r.c) && EncodeChar(Utf8, r.c) == bs[..r.width]
  {
    var r := DecodeUtf8Char(bs).value;
    if r.width == 2 {
      TwoCanonical(bs);
    } else if r.width == 3 {
      ThreeCanonical(bs);
    } else if r.width == 4 {
      FourCanonical(bs);
    }
  }

  lemma TwoCanonical(bs: bytes)
    requires bs != [] && DecodeUtf8Char(bs).Some? && DecodeUtf8Char(bs).value.width == 2
    ensures var r := DecodeUtf8Char(bs).value; Scalar(r.c) && EncodeChar(Utf8, r.c) == bs[..2]
  {
    JoinSix(bs[0] as int - 0xC0, Six(bs[1]).value);
    SixContinues(bs[1], DecodeUtf8Char(bs).value.c as int);
  }

  lemma ThreeCanonical(bs: bytes)
    requires bs != [] && DecodeUtf8Char(bs).Some? && DecodeUtf8Char(bs).value.width == 3
    ensures var r := DecodeUtf8Char(bs).value; Scalar(r.c) && EncodeChar(Utf8, r.c) == bs[..3]
  {
    var n := DecodeUtf8Char(bs).value.c as int;
    var b, x, y := bs[0] as int, Six(bs[1]).value, Six(bs[2]).value;
    Split64(n);
    JoinSix(b - 0xE0, x);
    JoinSix((b - 0xE0) * 0x40 + x, y);
    SixContinues(bs[2], n);
    SixContinues(bs[1], n / 0x40);
  }

  lemma FourCanonical(bs: bytes)
    requires bs != [] && DecodeUtf8Char(bs).Some? && DecodeUtf8Char(bs).value.width == 4
    ensures var r := DecodeUtf8Char(bs).value; Scalar(r.c) && EncodeChar(Utf8, r.c) == bs[..4]
  {
    var n := DecodeUtf8Char(bs).value.c as int;
    var b, x, y, z := bs[0] as int, Six(bs[1]).value, Six(bs[2]).value, Six(bs[3]).value;
    Split64(n);
    JoinSix(b - 0xF0, x);
    JoinSix((b - 0xF0) * 0x40 + x, y);
    JoinSix(((b - 0xF0) * 0x40 + x) * 0x40 + y, z);
    SixContinues(bs[3], n);
    SixContinues(bs[2], n / 0x40);
    SixContinues(bs[1], n / 0x1000);
  }

  lemma UnitCanonical(bs: bytes, i: nat)
    requires i + 1 < |bs|
    ensures Unit(UnitAt(bs, i)) == bs[i..i + 2]
  {}

  lemma Utf16Canonical(bs: bytes)
    requires bs != [] && DecodeUtf16Char(bs).Some?
    ensures var r := DecodeUtf16Char(bs).value; Scalar(r.c) && EncodeChar(Utf16LE, r.c) == bs[..r.width]
  {
    var r := DecodeUtf16Char(bs).value;
    UnitCanonical(bs, 0);
    if r.width == 4 {
      UnitCanonical(bs, 2);
      var m := r.c as int - 0x1_0000;
      assert m / 0x400 == UnitAt(bs, 0) - 0xD800 && m % 0x400 == UnitAt(bs, 2) - 0xDC00;
      assert bs[..4] == bs[0..2] + bs[2..4];
    }
  }

  lemma CharCanonical(e: Encoding, bs: bytes)
    requires bs != [] && DecodeChar(e, bs).Some?
    ensures var r := DecodeChar(e, bs).value; Scalar(r.c) && EncodeChar(e, r.c) == bs[..r.width]
  {
    match e
    case Utf8 => Utf8Canonical(bs);
    case Utf16LE => Utf16Canonical(bs);
  }

  // ---- whole strings ----

  function Encode(e: Encoding, s: Str): Option<bytes> {
    if s == [] then Some([])
    else if !Scalar(s[0]) then None
    else
      var t :- Encode(e, s[1..]);
      Some(EncodeChar(e, s[0]) + t)
  }

  function Decode(e: Encoding, bs: bytes): Option<Str>
    decreases |bs|
  {
    if bs == [] then Some([])
    else
      var r :- DecodeChar(e, bs);
      var t :- Decode(e, bs[r.width..]);
      Some([r.c] + t)
  }

  lemma {:induction false} TextRoundTrip(e: Encoding, s: Str)
    requires Encode(e, s).Some?
    ensures Decode(e, Encode(e, s).value) == Some(s)
  {
    if s == [] {
    } else {
      TextRoundTrip(e, s[1..]);
      var t := Encode(e, s[1..]).value;
      var h := EncodeChar(e, s[0]);
      CharRoundTrip(e, s[0], t);
      assert (h + t)[|h|..] == t;
      assert s == [s[0]] + s[1..];
    }
  }

  lemma EncodeHead(e: Encoding, c: CodePoint, s: Str)
    requires Scalar(c) && Encode(e, s).Some?
    ensures Encode(e, [c] + s) == Some(EncodeChar(e, c) + Encode(e, s).value)
  {
    hide EncodeChar, Scalar;
    assert ([c] + s)[1..] == s;
  }

  /** Strictness: the only bytes that decode to s are the encoding of s. */
  lemma {:induction false} TextCanonical(e: Encoding, bs: bytes)
    requires Decode(e, bs).Some?
    ensures Encode(e, Decode(e, bs).value) == Some(bs)
    decreases |bs|
  {
    hide DecodeChar, EncodeChar, Scalar;
    if bs == [] {
    } else {
      var r := DecodeChar(e, bs).value;
      CharCanonical(e, bs);
      var rest := bs[r.width..];
      TextCanonical(e, rest);
      EncodeHead(e, r.c, Decode(e, rest).value);
      assert bs == bs[..r.width] + rest;
    }
  }

  /** UTF-8 has one byte per code point exactly on ASCII text. */
  lemma {:induction false} Utf8Length(s: Str)
    requires Encode(Utf8, s).Some?
    ensures |Encode(Utf8, s).value| >= |s|
    ensures |Encode(Utf8, s).value| == |s| <==> IsAscii(s)
  {
    if s == [] {
    } else {
      Utf8Length(s[1..]);
      assert IsAscii(s) <==> s[0] < 0x80 && IsAscii(s[1..]) by {
        if s[0] < 0x80 && IsAscii(s[1..]) {
          forall i | 0 <= i < |s| ensures s[i] < 0x80 {
            if i > 0 {
              assert s[i] == s[1..][i - 1];
            }
          }
        }
      }
    }
  }

  lemma {:induction false} AsciiEncodes(e: Encoding, s: Str)
    requires IsAscii(s)
    ensures Encode(e, s).Some?
  {
    if s == [] {
    } else {
      AsciiEncodes(e, s[1..]);
    }
  }

  // ---- decimal integers ----

  function Digits(n: nat): (r: Str)
    ensures r != [] && forall i :: 0 <= i < |r| ==> IsDigit(r[i])
  {
    if n < 10 then [(48 + n) as CodePoint] else Digits(n / 10) + [(48 + n % 10) as CodePoint]
  }

  /** str(n) */
  function Decimal(n: int): Str {
    if n < 0 then [45] + Digits(-n) else Digits(n)
  }

  predicate IsDigit(c: CodePoint) {
    48 <= c < 58
  }

  predicate IsSpace(c: CodePoint) {
    c == 32 || 9 <= c < 14
  }

  /** Digits with single underscores allowed between them. */
  function ParseDigits(s: Str): Option<nat>
    decreases |s|
  {
    if s == [] || !IsDigit(s[|s| - 1]) then None
    else
      var d := s[|s| - 1] as int - 48;
      if |s| == 1 then Some(d)
      else
        var high :- ParseDigits(if s[|s| - 2] == 95 then s[..|s| - 2] else s[..|s| - 1]);
        Some(10 * high + d)
  }

  function Strip(s: Str): Str
    decreases |s|
  {
    if s == [] then s
    else if IsSpace(s[0]) then Strip(s[1..])
    else if IsSpace(s[|s| - 1]) then Strip(s[..|s| - 1])
    else s
  }

  /** int(s) for text over the ASCII digits, signs, underscores and white space. */
  function ParseInt(s: Str): Option<int> {
    var t := Strip(s);
    if t != [] && (t[0] == 43 || t[0] == 45) then
      var n: nat :- ParseDigits(t[1..]);
      var i: int := n;
      Some(if t[0] == 45 then -i else i)
    else
      var n: nat :- ParseDigits(t);
      var i: int := n;
      Some(i)
  }

  lemma {:induction false} ParseDigitsRoundTrip(n: nat)
    ensures ParseDigits(Digits(n)) == Some(n)
  {
    if n < 10 {
    } else {
      ParseDigitsRoundTrip(n / 10);
      assert Digits(n)[..|Digits(n)| - 1] == Digits(n / 10);
    }
  }

  lemma DecimalRoundTrip(n: int)
    ensures ParseInt(Decimal(n)) == Some(n)
  {
    var s := Decimal(n);
    ParseDigitsRoundTrip(if n < 0 then -n else n);
    assert !IsSpace(s[0]) && !IsSpace(s[|s| - 1]);
    if n < 0 {
      assert s[1..] == Digits(-n);
    }
  }

  /** str(n): a minus sign for a negative number, then digits, of which the first is zero for zero only. */
  lemma DecimalForm(n: int)
    ensures var s := Decimal(n);
            var digits := if n < 0 then s[1..] else s;
            && (n < 0 ==> s[0] == 45) && digits != [] && (digits[0] == 48 <==> n == 0)
            && (forall i :: 0 <= i < |digits| ==> 48 <= digits[i] < 58)
            && (digits[|digits| - 1] as int - 48) == (if n < 0 then -n else n) % 10
  {
    LeadingDigit(if n < 0 then -n else n);
  }

  lemma {:induction false} LeadingDigit(n: nat)
    ensures Digits(n)[0] == 48 <==> n == 0
  {
    if n >= 10 {
      LeadingDigit(n / 10);
    }
  }

  lemma DecimalEncodes(n: int)
    ensures IsAscii(Decimal(n)) && Encode(Utf8, Decimal(n)).Some?
  {
    AsciiEncodes(Utf8, Decimal(n));
  }
}
