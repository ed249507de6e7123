/** UTF-8 as in section 3 of RFC 3629. */
module Utf8 {
  import opened Wrappers
  import opened Base64

  function EncodeChar(c: char): (r: seq<Byte>)
    ensures 1 <= |r| <= 4
  {
    var n := c as int;
    if n < 0x80 then [n]
    else if n < 0x800 then [0xC0 + n / 64, 0x80 + n % 64]
    else if n < 0x10000 then [0xE0 + n / 4096, 0x80 + n / 64 % 64, 0x80 + n % 64]
    else [0xF0 + n / 262144, 0x80 + n / 4096 % 64, 0x80 + n / 64 % 64, 0x80 + n % 64]
  }

  function Utf8(s: string): seq<Byte> {
    if s == "" then [] else EncodeChar(s[0]) + Utf8(s[1..])
  }

  /** The low bits of a continuation byte. */
  function Tail(b: seq<Byte>, i: nat): Option<int> {
    if i < |b| && 0x80 <= b[i] < 0xC0 then Some(b[i] - 0x80) else None
  }

  /** The length that a first byte announces, and the bits it holds. */
  function Lead(b: Byte): Option<(nat, int)> {
    if b < 0x80 then Some((1, b))
    else if 0xC0 <= b < 0xE0 then Some((2, b - 0xC0))
    else if 0xE0 <= b < 0xF0 then Some((3, b - 0xE0))
    else if 0xF0 <= b < 0xF8 then Some((4, b - 0xF0))
    else None
  }

  /** The bits of the first character, if all its bytes are there. */
  function Bits(b: seq<Byte>, length: nat, bits: int, i: nat): Option<int>
    decreases length - i
  {
    if i >= length then Some(bits)
    else
      match Tail(b, i)
      case None => None
      case Some(t) => Bits(b, length, bits * 64 + t, i + 1)
  }

  predicate Scalar(n: int) { 0 <= n < 0xD800 || 0xE000 <= n < 0x110000 }

  function Shortest(n: int): nat { if n < 0x80 then 1 else if n < 0x800 then 2 else if n < 0x10000 then 3 else 4 }

  /** The first character and its length; longer forms than needed, surrogates
      and what lies beyond the last character are refused. */
  function DecodeChar(b: seq<Byte>): (r: Option<(char, nat)>)
    ensures r.Some? ==> 1 <= r.value.1 <= |b|
  {
    if b == [] then None
    else
      match Lead(b[0])
      case None => None
      case Some(lead) =>
        match Bits(b, lead.0, lead.1, 1)
        case None => None
        case Some(n) =>
          if Scalar(n) && Shortest(n) == lead.0 && lead.0 <= |b| then Some((n as char, lead.0)) else None
  }

  function Decode(b: seq<Byte>): Option<string> {
    if b == [] then Some("")
    else
      match DecodeChar(b)
      case None => None
      case Some(first) =>
        match Decode(b[first.1..])
        case None => None
        case Some(rest) => Some([first.0] + rest)
  }

  lemma Sixes(n: nat)
    ensures n / 64 * 64 + n % 64 == n
    ensures n / 4096 * 64 + n / 64 % 64 == n / 64
    ensures n / 262144 * 64 + n / 4096 % 64 == n / 4096
  {
  }

  lemma NextBits(b: seq<Byte>, length: nat, bits: int, i: nat, t: int)
    requires i < length && i < |b| && b[i] == 0x80 + t && 0 <= t < 64
    ensures Bits(b, length, bits, i) == Bits(b, length, bits * 64 + t, i + 1)
  {
  }

  lemma CharBits(c: char, rest: seq<Byte>)
    ensures var b, n := EncodeChar(c) + rest, c as int;
            && Lead(b[0]).Some? && Lead(b[0]).value.0 == |EncodeChar(c)| == Shortest(n)
            && Bits(b, Shortest(n), Lead(b[0]).value.1, 1) == Some(n)
  {
    var b, n := EncodeChar(c) + rest, c as int;
    Sixes(n);
    if n < 0x80 {
      assert b[0] == n;
    } else if n < 0x800 {
      NextBits(b, 2, n / 64, 1, n % 64);
    } else if n < 0x10000 {
      NextBits(b, 3, n / 4096, 1, n / 64 % 64);
      NextBits(b, 3, n / 64, 2, n % 64);
    } else {
      NextBits(b, 4, n / 262144, 1, n / 4096 % 64);
      NextBits(b, 4, n / 4096, 2, n / 64 % 64);
      NextBits(b, 4, n / 64, 3, n % 64);
    }
  }

  lemma CharReadsBack(c: char, rest: seq<Byte>)
    ensures DecodeChar(EncodeChar(c) + rest) == Some((c, |EncodeChar(c)|))
  {
    CharBits(c, rest);
  }

  lemma {:induction false} DecodeUtf8(s: string)
    ensures Decode(Utf8(s)) == Some(s)
  {
    if s != "" {
      var first, rest := EncodeChar(s[0]), Utf8(s[1..]);
      CharReadsBack(s[0], rest);
      assert (first + rest)[|first|..] == rest;
      DecodeUtf8(s[1..]);
      assert [s[0]] + s[1..] == s;
    }
  }

  lemma BitsUndone(b: seq<Byte>, length: nat, bits: int, i: nat)
    requires i < length && Bits(b, length, bits, i).Some?
    ensures i < |b| && 0x80 <= b[i] < 0xC0
    ensures Bits(b, length, bits, i) == Bits(b, length, bits * 64 + (b[i] - 0x80), i + 1)
  {
  }

  lemma HighAndLow(high: nat, low: nat)
    requires low < 64
    ensures (high * 64 + low) / 64 == high && (high * 64 + low) % 64 == low
  {
  }

  lemma Quotients(n: nat)
    ensures n / 64 / 64 == n / 4096 && n / 64 / 64 / 64 == n / 262144 && n / 4096 / 64 == n / 262144
  {
  }

  lemma TwoBytesCanonical(h: nat, t: nat, c: char)
    requires h < 32 && t < 64 && c as int == h * 64 + t && Shortest(c as int) == 2
    ensures EncodeChar(c) == [0xC0 + h, 0x80 + t]
  {
    HighAndLow(h, t);
  }

  lemma ThreeBytesCanonical(h: nat, t: nat, u: nat, c: char)
    requires h < 16 && t < 64 && u < 64 && c as int == (h * 64 + t) * 64 + u && Shortest(c as int) == 3
    ensures EncodeChar(c) == [0xE0 + h, 0x80 + t, 0x80 + u]
  {
    HighAndLow(h, t);
    HighAndLow(h * 64 + t, u);
    Quotients(c as int);
  }

  lemma FourBytesCanonical(h: nat, t: nat, u: nat, v: nat, c: char)
    requires h < 8 && t < 64 && u < 64 && v < 64
    requires c as int == ((h * 64 + t) * 64 + u) * 64 + v && Shortest(c as int) == 4
    ensures EncodeChar(c) == [0xF0 + h, 0x80 + t, 0x80 + u, 0x80 + v]
  {
    HighAndLow(h, t);
    HighAndLow(h * 64 + t, u);
    HighAndLow((h * 64 + t) * 64 + u, v);
    Quotients(c as int);
  }

  /** What is decoded is the one encoding of its character. */
  lemma CharIsCanonical(b: seq<Byte>)
    requires DecodeChar(b).Some?
    ensures EncodeChar(DecodeChar(b).value.0) == b[..DecodeChar(b).value.1]
  {
    var lead, c := Lead(b[0]).value, DecodeChar(b).value.0;
    var h: int := lead.1;
    if lead.0 == 2 {
      BitsUndone(b, 2, h, 1);
      TwoBytesCanonical(h, b[1] - 0x80, c);
    } else if lead.0 == 3 {
      BitsUndone(b, 3, h, 1);
      var t: int := b[1] - 0x80;
      BitsUndone(b, 3, h * 64 + t, 2);
      ThreeBytesCanonical(h, t, b[2] - 0x80, c);
    } else if lead.0 == 4 {
      BitsUndone(b, 4, h, 1);
      var t: int := b[1] - 0x80;
      BitsUndone(b, 4, h * 64 + t, 2);
      var u: int := b[2] - 0x80;
      BitsUndone(b, 4, (h * 64 + t) * 64 + u, 3);
      FourBytesCanonical(h, t, u, b[3] - 0x80, c);
    }
  }

  /** Decoding accepts exactly the encodings of strings. */
  lemma {:induction false} DecodeIsExact(b: seq<Byte>, s: string)
    ensures Decode(b) == Some(s) <==> b == Utf8(s)
  {
    DecodeUtf8(s);
    if Decode(b) == Some(s) && b != [] {
      var first := DecodeChar(b).value;
      CharIsCanonical(b);
      assert s[1..] == Decode(b[first.1..]).value;
      DecodeIsExact(b[first.1..], s[1..]);
      assert b == b[..first.1] + b[first.1..];
    }
  }
}
