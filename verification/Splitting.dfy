/** Text cut at every occurrence of one character, or where a kind of characters ends. */
module Splitting {
  function Split(s: string, c: char): (r: seq<string>)
    ensures r != [] && forall i | 0 <= i < |r| :: c !in r[i]
  {
    if s == "" then [""]
    else
      var rest := Split(s[1..], c);
      if s[0] == c then [""] + rest else [[s[0]] + rest[0]] + rest[1..]
  }

  lemma {:induction false} SplitFirst(a: string, c: char, rest: string)
    requires c !in a
    ensures Split(a + [c] + rest, c) == [a] + Split(rest, c)
  {
    var s := a + [c] + rest;
    if a == "" {
      assert s[1..] == rest;
    } else {
      assert s[1..] == a[1..] + [c] + rest;
      SplitFirst(a[1..], c, rest);
      assert [a[0]] + a[1..] == a;
    }
  }

  lemma {:induction false} SplitWhole(s: string, c: char)
    requires c !in s
    ensures Split(s, c) == [s]
  {
    if s != "" {
      SplitWhole(s[1..], c);
      assert [s[0]] + s[1..] == s;
    }
  }

  /** The length of the longest prefix of characters that satisfy `p`. */
  function Span(s: string, p: char -> bool): (n: nat)
    ensures n <= |s|
  {
    if s == "" || !p(s[0]) then 0 else 1 + Span(s[1..], p)
  }

  lemma {:induction false} SpanAll(s: string, p: char -> bool)
    ensures forall i | 0 <= i < Span(s, p) :: p(s[i])
  {
    if s != "" && p(s[0]) {
      SpanAll(s[1..], p);
      forall i | 0 <= i < Span(s, p) ensures p(s[i]) {
        if i > 0 {
          assert s[i] == s[1..][i - 1];
        }
      }
    }
  }

  lemma {:induction false} SpanOf(a: string, b: string, p: char -> bool)
    requires (forall i | 0 <= i < |a| :: p(a[i])) && (b == "" || !p(b[0]))
    ensures Span(a + b, p) == |a|
  {
    if a == "" {
      assert a + b == b;
    } else {
      assert (a + b)[1..] == a[1..] + b;
      SpanOf(a[1..], b, p);
    }
  }

  /** A cut shortens the prefix only if it lies within it. */
  lemma {:induction false} SpanCut(s: string, n: nat, p: char -> bool)
    requires n <= |s|
    ensures Span(s[..n], p) == if n <= Span(s, p) then n else Span(s, p)
  {
    if n > 0 && p(s[0]) {
      assert s[..n][1..] == s[1..][..n - 1];
      SpanCut(s[1..], n - 1, p);
    }
  }

  lemma SpanStops(s: string, n: nat, p: char -> bool)
    requires n < |s| && !p(s[n])
    ensures Span(s, p) <= n
  {
    SpanAll(s, p);
  }
}
