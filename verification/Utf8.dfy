/** UTF-8 as RFC 3629 defines it, over plain bytes.
    Section 4 of the RFC gives a grammar of well-formed byte strings (`Valid`, the
    test that Go's utf8.Valid performs) and section 3 an encoding of characters
    (`Encode`); the lemmas at the end prove that they describe the same strings. */
module Utf8 {

  type byte = x: int | 0 <= x < 0x100

  /** A byte of the form 10xxxxxx, which continues a character. */
  predicate Tail(b: byte) { 0x80 <= b <= 0xBF }

  /** Go's utf8.RuneStart: a byte that may begin a character. */
  predicate RuneStart(b: byte) { !Tail(b) }

  /** The first two bytes of a three-byte character: no overlong forms, no surrogates. */
  predicate Lead3(a: byte, b: byte) {
    || (a == 0xE0 && 0xA0 <= b <= 0xBF)
    || ((0xE1 <= a <= 0xEC || 0xEE <= a <= 0xEF) && Tail(b))
    || (a == 0xED && 0x80 <= b <= 0x9F)
  }

  /** The first two bytes of a four-byte character: no overlong forms, at most U+10FFFF. */
  predicate Lead4(a: byte, b: byte) {
    || (a == 0xF0 && 0x90 <= b <= 0xBF)
    || (0xF1 <= a <= 0xF3 && Tail(b))
    || (a == 0xF4 && 0x80 <= b <= 0x8F)
  }

  /** The length of the well-formed character that `s` starts with, 0 if there is none. */
  function RuneLen(s: seq<byte>): (n: nat)
    ensures n <= 4 && n <= |s|
  {
    if |s| >= 1 && s[0] <= 0x7F then 1
    else if |s| >= 2 && 0xC2 <= s[0] <= 0xDF && Tail(s[1]) then 2
    else if |s| >= 3 && Lead3(s[0], s[1]) && Tail(s[2]) then 3
    else if |s| >= 4 && Lead4(s[0], s[1]) && Tail(s[2]) && Tail(s[3]) then 4
    else 0
  }

  predicate Valid(s: seq<byte>) {
    s == [] || (RuneLen(s) > 0 && Valid(s[RuneLen(s)..]))
  }

  /** `cut` is the longest well-formed prefix of `s` within `limit` bytes. */
  ghost predicate IsFloor(s: seq<byte>, limit: nat, cut: nat)
    requires limit <= |s|
  {
    && cut <= limit
    && Valid(s[..cut])
    && forall d :: cut < d <= limit ==> !Valid(s[..d])
  }

  /** A character is recognised from its own bytes alone, and no shorter prefix of it is one. */
  lemma RuneLenLocal(s: seq<byte>, c: nat)
    requires c <= |s|
    ensures RuneLen(s) <= c ==> RuneLen(s) == 0 || RuneLen(s[..c]) == RuneLen(s)
    ensures c < RuneLen(s) ==> RuneLen(s[..c]) == 0
  {
  }

  lemma RuneLenExtends(s: seq<byte>, t: seq<byte>)
    requires RuneLen(s) > 0
    ensures RuneLen(s + t) == RuneLen(s)
  {
    assert (s + t)[..|s|] == s;
  }

  lemma {:induction false} ValidConcat(s: seq<byte>, t: seq<byte>)
    requires Valid(s) && Valid(t)
    ensures Valid(s + t)
  {
    if s == [] {
      assert s + t == t;
    } else {
      var n, u := RuneLen(s), s + t;
      assert u[n..] == s[n..] + t;
      ValidConcat(s[n..], t);
      assert RuneLen(u) == n by { RuneLenExtends(s, t); }
    }
  }

  /** Inside well-formed text, the prefixes that are themselves well-formed end exactly
      where Go's utf8.RuneStart sees the start of a character. */
  lemma {:induction false} BoundaryIsRuneStart(s: seq<byte>, c: nat)
    requires Valid(s) && c <= |s|
    ensures Valid(s[..c]) <==> (c == |s| || RuneStart(s[c]))
  {
    if c == |s| {
      assert s[..c] == s;
    } else if c > 0 {
      var n := RuneLen(s);
      RuneLenLocal(s, c);
      if n <= c {
        BoundaryIsRuneStart(s[n..], c - n);
        assert s[..c][n..] == s[n..][..c - n];
      }
    }
  }

  /** A cut in well-formed text is at most three bytes past a character boundary. */
  lemma {:induction false} BoundaryNearby(s: seq<byte>, c: nat) returns (b: nat)
    requires Valid(s) && c <= |s|
    ensures b <= c <= b + 3 && Valid(s[..b])
  {
    if c == 0 {
      b := 0;
    } else {
      var n := RuneLen(s);
      if c < n {
        b := 0;
      } else {
        var b' := BoundaryNearby(s[n..], c - n);
        b := b' + n;
        RuneLenLocal(s, b);
        assert s[..b][n..] == s[n..][..b'];
      }
    }
  }

  lemma {:induction false} AsciiValid(s: seq<byte>)
    requires forall i :: 0 <= i < |s| ==> s[i] <= 0x7F
    ensures Valid(s)
  {
    if s != [] {
      AsciiValid(s[1..]);
    }
  }

  /** The bytes of an ASCII literal. */
  function Ascii(s: string): (b: seq<byte>)
    requires forall i :: 0 <= i < |s| ==> s[i] as int <= 0x7F
    ensures |b| == |s|
    ensures forall i :: 0 <= i < |s| ==> b[i] == s[i] as int
    ensures forall i :: 0 <= i < |s| ==> b[i] <= 0x7F
  {
    seq(|s|, i requires 0 <= i < |s| => s[i] as int)
  }

  lemma LiteralValid(s: string)
    requires forall i :: 0 <= i < |s| ==> s[i] as int <= 0x7F
    ensures Valid(Ascii(s))
  {
    AsciiValid(Ascii(s));
  }

  // ----- section 3: characters and their encoding

  function Encode(c: char): (b: seq<byte>)
    ensures 1 <= |b| <= 4
  {
    EncodeInt(c as int)
  }

  function EncodeInt(n: int): (b: seq<byte>)
    requires 0 <= n < 0x110000
    ensures 1 <= |b| <= 4
  {
    if n < 0x80 then [n]
    else if n < 0x800 then [0xC0 + n / 0x40, 0x80 + n % 0x40]
    else if n < 0x10000 then [0xE0 + n / 0x1000, 0x80 + n / 0x40 % 0x40, 0x80 + n % 0x40]
    else [0xF0 + n / 0x40000, 0x80 + n / 0x1000 % 0x40, 0x80 + n / 0x40 % 0x40, 0x80 + n % 0x40]
  }

  /** The code point of the character that a well-formed byte string starts with. */
  function CodePoint(s: seq<byte>): (n: int)
    requires RuneLen(s) > 0
    ensures 0 <= n < 0xD800 || 0xE000 <= n < 0x110000
  {
    var len := RuneLen(s);
    var a: int := s[0];
    if len == 1 then a
    else
      var b: int := s[1];
      if len == 2 then (a - 0xC0) * 0x40 + (b - 0x80)
      else
        var c: int := s[2];
        if len == 3 then (a - 0xE0) * 0x1000 + (b - 0x80) * 0x40 + (c - 0x80)
        else
          var d: int := s[3];
          (a - 0xF0) * 0x40000 + (b - 0x80) * 0x1000 + (c - 0x80) * 0x40 + (d - 0x80)
  }

  function Decode(s: seq<byte>): char
    requires RuneLen(s) > 0
  {
    CodePoint(s) as char
  }

  function EncodeText(t: string): seq<byte> {
    if t == [] then [] else Encode(t[0]) + EncodeText(t[1..])
  }

  function DecodeText(s: seq<byte>): string
    requires Valid(s)
  {
    if s == [] then [] else [Decode(s)] + DecodeText(s[RuneLen(s)..])
  }

  /** The digits of a number in base 64. */
  lemma Base64(hi: int, lo: int)
    requires 0 <= lo < 0x40
    ensures (hi * 0x40 + lo) / 0x40 == hi && (hi * 0x40 + lo) % 0x40 == lo
  {
  }

  /** The base-64 digits below the leading one. */
  lemma LowDigits(a: int, b: int, c: int)
    requires 0 <= b < 0x40 && 0 <= c < 0x40
    ensures var n := (a * 0x40 + b) * 0x40 + c;
            n / 0x1000 == a && n / 0x40 % 0x40 == b && n % 0x40 == c
  {
    var hi := a * 0x40 + b;
    Base64(a, b);
    Base64(hi, c);
    assert (hi * 0x40 + c) / 0x1000 == hi / 0x40;
  }

  lemma EncodeDecode4(s: seq<byte>)
    requires RuneLen(s) == 4
    ensures EncodeInt(CodePoint(s)) == s[..4]
  {
    var a: int, b: int, c: int, d: int := s[0] - 0xF0, s[1] - 0x80, s[2] - 0x80, s[3] - 0x80;
    var hi, n := a * 0x40 + b, CodePoint(s);
    assert n == (hi * 0x40 + c) * 0x40 + d;
    LowDigits(hi, c, d);
    Base64(a, b);
    assert n / 0x40000 == hi / 0x40;
  }

  lemma EncodeDecode3(s: seq<byte>)
    requires RuneLen(s) == 3
    ensures EncodeInt(CodePoint(s)) == s[..3]
  {
    var a: int, b: int, c: int := s[0] - 0xE0, s[1] - 0x80, s[2] - 0x80;
    assert CodePoint(s) == (a * 0x40 + b) * 0x40 + c;
    LowDigits(a, b, c);
  }

  lemma EncodeDecode2(s: seq<byte>)
    requires RuneLen(s) == 2
    ensures EncodeInt(CodePoint(s)) == s[..2]
  {
    Base64(s[0] - 0xC0, s[1] - 0x80);
  }

  lemma EncodeDecode(s: seq<byte>)
    requires RuneLen(s) > 0
    ensures Encode(Decode(s)) == s[..RuneLen(s)]
  {
    match RuneLen(s)
    case 1 =>
    case 2 => EncodeDecode2(s);
    case 3 => EncodeDecode3(s);
    case _ => EncodeDecode4(s);
  }

  lemma DecodeEncode(c: char)
    ensures RuneLen(Encode(c)) == |Encode(c)| && Decode(Encode(c)) == c
  {
    var n := c as int;
    assert n / 0x1000 == n / 0x40 / 0x40 && n / 0x40000 == n / 0x40 / 0x40 / 0x40;
  }

  lemma DecodePrefix(s: seq<byte>, t: seq<byte>)
    requires RuneLen(s) > 0
    ensures RuneLen(s + t) == RuneLen(s) && Decode(s + t) == Decode(s)
  {
    RuneLenExtends(s, t);
  }

  /** Each well-formed byte string is the encoding of the text it decodes to. */
  lemma {:induction false} DecodeThenEncode(s: seq<byte>)
    requires Valid(s)
    ensures EncodeText(DecodeText(s)) == s
  {
    if s != [] {
      var n := RuneLen(s);
      DecodeThenEncode(s[n..]);
      assert DecodeText(s)[1..] == DecodeText(s[n..]);
      assert s == s[..n] + s[n..];
      assert Encode(Decode(s)) == s[..n] by { EncodeDecode(s); }
    }
  }

  lemma {:induction false} EncodeThenDecode(t: string)
    ensures Valid(EncodeText(t)) && DecodeText(EncodeText(t)) == t
  {
    if t != [] {
      var e, rest := Encode(t[0]), EncodeText(t[1..]);
      EncodeThenDecode(t[1..]);
      assert (e + rest)[|e|..] == rest;
      assert RuneLen(e) == |e| && Decode(e) == t[0] by { DecodeEncode(t[0]); }
      DecodePrefix(e, rest);
    }
  }

  /** The grammar of section 4 accepts exactly the encodings of section 3. */
  lemma ValidIsEncoding(s: seq<byte>)
    ensures Valid(s) <==> exists t: string :: EncodeText(t) == s
  {
    if Valid(s) {
      DecodeThenEncode(s);
    }
    forall t: string | EncodeText(t) == s ensures Valid(s) {
      EncodeThenDecode(t);
    }
  }
}
