/** Base64 as in section 4 of RFC 4648. */
module Base64 {
  import opened Wrappers

  type Byte = b: int | 0 <= b < 256

  type Sextet = b: int | 0 <= b < 64

  function Letter(n: Sextet): char {
    if n < 26 then (n + 'A' as int) as char
    else if n < 52 then (n - 26 + 'a' as int) as char
    else if n < 62 then (n - 52 + '0' as int) as char
    else if n == 62 then '+'
    else '/'
  }

  function Sextets(c: char): Option<Sextet> {
    if 'A' <= c <= 'Z' then Some(c as int - 'A' as int)
    else if 'a' <= c <= 'z' then Some(c as int - 'a' as int + 26)
    else if '0' <= c <= '9' then Some(c as int - '0' as int + 52)
    else if c == '+' then Some(62)
    else if c == '/' then Some(63)
    else None
  }

  function Encode(b: seq<Byte>): string {
    if b == [] then ""
    else if |b| == 1 then [Letter(b[0] / 4), Letter(b[0] % 4 * 16), '=', '=']
    else if |b| == 2 then [Letter(b[0] / 4), Letter(b[0] % 4 * 16 + b[1] / 16), Letter(b[1] % 16 * 4), '=']
    else
      [Letter(b[0] / 4), Letter(b[0] % 4 * 16 + b[1] / 16), Letter(b[1] % 16 * 4 + b[2] / 64), Letter(b[2] % 64)]
      + Encode(b[3..])
  }

  /** Bits after the last whole byte are not looked at. */
  function Decode(s: string): Option<seq<Byte>> {
    if s == "" then Some([])
    else if |s| < 4 then None
    else
      var w, x, y, z := Sextets(s[0]), Sextets(s[1]), Sextets(s[2]), Sextets(s[3]);
      if w.None? || x.None? then None
      else
        var first := w.value * 4 + x.value / 16;
        if |s| == 4 && s[2] == '=' && s[3] == '=' then Some([first])
        else if y.None? then None
        else
          var second := x.value % 16 * 16 + y.value / 4;
          if |s| == 4 && s[3] == '=' then Some([first, second])
          else if z.None? then None
          else
            match Decode(s[4..])
            case None => None
            case Some(rest) => Some([first, second, y.value % 4 * 64 + z.value] + rest)
  }

  lemma LetterReadsBack(n: Sextet)
    ensures Sextets(Letter(n)) == Some(n) && Letter(n) != '='
  {
  }

  lemma Joined(a: Byte, b: Byte, c: Byte)
    ensures a / 4 * 4 + (a % 4 * 16 + b / 16) / 16 == a
    ensures (a % 4 * 16 + b / 16) % 16 * 16 + (b % 16 * 4 + c / 64) / 4 == b
    ensures (b % 16 * 4 + c / 64) % 4 * 64 + c % 64 == c
  {
  }

  lemma PairReadsBack(w: Sextet, x: Sextet)
    ensures Decode([Letter(w), Letter(x), '=', '=']) == Some([w * 4 + x / 16])
  {
    LetterReadsBack(w);
    LetterReadsBack(x);
  }

  lemma TripleReadsBack(w: Sextet, x: Sextet, y: Sextet)
    ensures Decode([Letter(w), Letter(x), Letter(y), '=']) == Some([w * 4 + x / 16, x % 16 * 16 + y / 4])
  {
    LetterReadsBack(w);
    LetterReadsBack(x);
    LetterReadsBack(y);
  }

  lemma QuadReadsBack(w: Sextet, x: Sextet, y: Sextet, z: Sextet, rest: string, b: seq<Byte>)
    requires Decode(rest) == Some(b)
    ensures Decode([Letter(w), Letter(x), Letter(y), Letter(z)] + rest)
         == Some([w * 4 + x / 16, x % 16 * 16 + y / 4, y % 4 * 64 + z] + b)
  {
    LetterReadsBack(w);
    LetterReadsBack(x);
    LetterReadsBack(y);
    LetterReadsBack(z);
    assert ([Letter(w), Letter(x), Letter(y), Letter(z)] + rest)[4..] == rest;
  }

  lemma OneByte(a: Byte)
    ensures Decode(Encode([a])) == Some([a])
  {
    PairReadsBack(a / 4, a % 4 * 16);
    Joined(a, 0, 0);
  }

  lemma TwoBytes(a: Byte, b: Byte)
    ensures Decode(Encode([a, b])) == Some([a, b])
  {
    TripleReadsBack(a / 4, a % 4 * 16 + b / 16, b % 16 * 4);
    Joined(a, b, 0);
  }

  lemma ThreeEncoded(a: Byte, b: Byte, c: Byte, rest: seq<Byte>)
    ensures Encode([a, b, c] + rest)
         == [Letter(a / 4), Letter(a % 4 * 16 + b / 16), Letter(b % 16 * 4 + c / 64), Letter(c % 64)] + Encode(rest)
  {
    assert ([a, b, c] + rest)[3..] == rest;
  }

  lemma QuadGives(w: Sextet, x: Sextet, y: Sextet, z: Sextet, b: seq<Byte>, text: string, rest: seq<Byte>)
    requires Decode(text) == Some(rest) && |b| == 3
    requires w * 4 + x / 16 == b[0] && x % 16 * 16 + y / 4 == b[1] && y % 4 * 64 + z == b[2]
    ensures Decode([Letter(w), Letter(x), Letter(y), Letter(z)] + text) == Some(b + rest)
  {
    QuadReadsBack(w, x, y, z, text, rest);
    assert b == [b[0], b[1], b[2]];
  }

  lemma ThreeBytes(a: Byte, b: Byte, c: Byte, rest: seq<Byte>)
    requires Decode(Encode(rest)) == Some(rest)
    ensures Decode(Encode([a, b, c] + rest)) == Some([a, b, c] + rest)
  {
    ThreeEncoded(a, b, c, rest);
    Joined(a, b, c);
    QuadGives(a / 4, a % 4 * 16 + b / 16, b % 16 * 4 + c / 64, c % 64, [a, b, c], Encode(rest), rest);
  }

  lemma {:induction false} DecodeEncode(b: seq<Byte>)
    ensures Decode(Encode(b)) == Some(b)
  {
    if |b| == 1 {
      OneByte(b[0]);
      assert b == [b[0]];
    } else if |b| == 2 {
      TwoBytes(b[0], b[1]);
      assert b == [b[0], b[1]];
    } else if |b| > 2 {
      DecodeEncode(b[3..]);
      ThreeBytes(b[0], b[1], b[2], b[3..]);
      assert b == [b[0], b[1], b[2]] + b[3..];
    }
  }

  predicate InAlphabet(c: char) { Sextets(c).Some? || c == '=' }

  lemma {:induction false} EncodeInAlphabet(b: seq<Byte>, c: char)
    requires c in Encode(b)
    ensures InAlphabet(c)
  {
    if |b| == 1 {
      LetterReadsBack(b[0] / 4);
      LetterReadsBack(b[0] % 4 * 16);
    } else if |b| == 2 {
      LetterReadsBack(b[0] / 4);
      LetterReadsBack(b[0] % 4 * 16 + b[1] / 16);
      LetterReadsBack(b[1] % 16 * 4);
    } else if |b| > 2 {
      LetterReadsBack(b[0] / 4);
      LetterReadsBack(b[0] % 4 * 16 + b[1] / 16);
      LetterReadsBack(b[1] % 16 * 4 + b[2] / 64);
      LetterReadsBack(b[2] % 64);
      if c in Encode(b[3..]) {
        EncodeInAlphabet(b[3..], c);
      }
    }
  }
}
