/** Saved manifest checkpoints as text: what is valid, the one canonical form of
    each, and why decimal version strings may be compared as text. */
module CheckpointCodec {
  import opened Wrappers
  import opened Decimals

  const MAX_VERSION := 0x7FFF_FFFF_FFFF_FFFF
  const MAX_TEXT := 1024

  predicate HexDigit(c: char) { Digit(c) || 'a' <= c <= 'f' }

  /** A lower-case UUID other than the zero one. */
  predicate Id(s: string) {
    && |s| == 36
    && (forall i | 0 <= i < 36 :: if i in {8, 13, 18, 23} then s[i] == '-' else HexDigit(s[i]))
    && (exists i | 0 <= i < 36 :: s[i] !in {'0', '-'})
  }

  /** A SHA-256 value in lower-case hexadecimal, other than zero. */
  predicate Hash(s: string) {
    && |s| == 64
    && (forall i | 0 <= i < 64 :: HexDigit(s[i]))
    && (exists i | 0 <= i < 64 :: s[i] != '0')
  }

  /** Decimal digits without a leading zero. */
  predicate Canonical(s: string) {
    s != "" && s[0] != '0' && forall i | 0 <= i < |s| :: Digit(s[i])
  }

  predicate Number(s: string) { Canonical(s) && |s| <= 19 && Value(s) <= MAX_VERSION }

  lemma {:induction false} CanonicalIsPositive(s: string)
    requires Canonical(s)
    ensures Value(s) > 0
  {
    if |s| > 1 {
      CanonicalIsPositive(s[..|s| - 1]);
    }
  }

  /** Canonical decimals are the same text exactly when they are the same number. */
  lemma {:induction false} CanonicalByValue(s: string, t: string)
    requires Canonical(s) && Canonical(t)
    ensures s == t <==> Value(s) == Value(t)
  {
    if Value(s) == Value(t) {
      var m, n := |s| - 1, |t| - 1;
      assert Value(s[..m]) == Value(t[..n]) && s[m] == t[n];
      if m > 0 {
        CanonicalIsPositive(s[..m]);
      }
      if n > 0 {
        CanonicalIsPositive(t[..n]);
      }
      if m > 0 && n > 0 {
        CanonicalByValue(s[..m], t[..n]);
      }
      assert s == s[..m] + [s[m]] && t == t[..n] + [t[n]];
    }
  }

  datatype Checkpoint = Checkpoint(
    bindingId: string, originalIdentity: string, version: string, digest: string, ancestry: string)

  predicate Valid(c: Checkpoint) {
    Id(c.bindingId) && Number(c.version) && Hash(c.originalIdentity) && Hash(c.digest) && Hash(c.ancestry)
  }

  const HEAD := "{\"v\":1,\"binding_id\":\""
  const IDENTITY := "\",\"original_identity\":\""
  const VERSION := "\",\"version\":\""
  const DIGEST := "\",\"digest\":\""
  const ANCESTRY := "\",\"ancestry_sha256\":\""
  const TAIL := "\"}"

  /** The text that `JSON.stringify` gives a checkpoint. */
  function Stringify(c: Checkpoint): string {
    HEAD + c.bindingId + IDENTITY + c.originalIdentity + VERSION + c.version + DIGEST + c.digest + ANCESTRY + c.ancestry + TAIL
  }

  const BEFORE_VERSION := |HEAD| + 36 + |IDENTITY| + 64 + |VERSION|
  const AFTER_VERSION := |DIGEST| + 64 + |ANCESTRY| + 64 + |TAIL|

  /** Reads the fields off their places and accepts only the canonical text.
      The version is the one field whose length varies. */
  function Decode(raw: string): Option<Checkpoint> {
    if |raw| > MAX_TEXT || |raw| < BEFORE_VERSION + AFTER_VERSION then None
    else
      var b, v := |HEAD|, |raw| - AFTER_VERSION;
      var o := b + 36 + |IDENTITY|;
      var d := v + |DIGEST|;
      var a := d + 64 + |ANCESTRY|;
      var c := Checkpoint(raw[b..b + 36], raw[o..o + 64], raw[BEFORE_VERSION..v], raw[d..d + 64], raw[a..a + 64]);
      if Valid(c) && Stringify(c) == raw then Some(c) else None
  }

  lemma StringifyFields(c: Checkpoint)
    requires Valid(c)
    ensures var raw := Stringify(c);
            var v := |raw| - AFTER_VERSION;
            && |raw| == BEFORE_VERSION + |c.version| + AFTER_VERSION
            && raw[|HEAD|..|HEAD| + 36] == c.bindingId
            && raw[|HEAD| + 36 + |IDENTITY|..|HEAD| + 36 + |IDENTITY| + 64] == c.originalIdentity
            && raw[BEFORE_VERSION..v] == c.version
            && raw[v + |DIGEST|..v + |DIGEST| + 64] == c.digest
            && raw[v + |DIGEST| + 64 + |ANCESTRY|..v + |DIGEST| + 64 + |ANCESTRY| + 64] == c.ancestry
  {
  }

  /** Decoding accepts exactly the canonical text of each valid checkpoint, and
      gives that checkpoint back; so no two checkpoints share a text. */
  lemma DecodeExact(raw: string, c: Checkpoint)
    ensures Decode(raw) == Some(c) <==> Valid(c) && raw == Stringify(c)
  {
    if Valid(c) && raw == Stringify(c) {
      StringifyFields(c);
    }
  }

  lemma DecodedIsValid(raw: string)
    ensures Decode(raw).Some? ==> Valid(Decode(raw).value) && Stringify(Decode(raw).value) == raw
  {
  }

  /** Checkpoints may be compared by their texts. */
  lemma SameText(a: Checkpoint, b: Checkpoint)
    requires Valid(a) && Valid(b)
    ensures Stringify(a) == Stringify(b) <==> a == b
  {
    DecodeExact(Stringify(a), a);
    DecodeExact(Stringify(a), b);
  }

  // ----- The key under which a scope's checkpoint is stored

  /** `origin` stands for the escaped text of the origin. */
  datatype Scope = Scope(
    origin: string, account: string, user: string, device: string, line: string,
    rootFingerprint: string, pairedFingerprint: string, priorVersion: string, priorDigest: string)

  predicate ValidScope(s: Scope) {
    && Id(s.account) && Id(s.user) && Id(s.device) && Id(s.line)
    && Hash(s.rootFingerprint) && Hash(s.pairedFingerprint) && Hash(s.priorDigest) && Number(s.priorVersion)
  }

  const SEPARATOR := "\",\""

  function Middle(s: Scope): string {
    SEPARATOR + s.account + SEPARATOR + s.user + SEPARATOR + s.device + SEPARATOR + s.line
    + SEPARATOR + s.rootFingerprint + SEPARATOR + s.pairedFingerprint + SEPARATOR
  }

  /** The text that `JSON.stringify` gives the array of a scope's fields. */
  function Key(s: Scope): string {
    "[\"" + s.origin + Middle(s) + s.priorVersion + SEPARATOR + s.priorDigest + "\"]"
  }

  lemma MiddleFields(s: Scope)
    requires ValidScope(s)
    ensures var m := Middle(s);
            && |m| == 293
            && m[3..39] == s.account && m[42..78] == s.user && m[81..117] == s.device && m[120..156] == s.line
            && m[159..223] == s.rootFingerprint && m[226..290] == s.pairedFingerprint
  {
  }

  lemma MiddleDetermines(s: Scope, t: Scope)
    requires ValidScope(s) && ValidScope(t) && Middle(s) == Middle(t)
    ensures s.account == t.account && s.user == t.user && s.device == t.device && s.line == t.line
    ensures s.rootFingerprint == t.rootFingerprint && s.pairedFingerprint == t.pairedFingerprint
  {
    MiddleFields(s);
    MiddleFields(t);
  }

  /** Digits before a tail of known length start behind the last quote. */
  lemma DigitsDelimited(a: string, v: string, x: string, b: string, w: string, y: string)
    requires a + v + x == b + w + y && |x| == |y| && |v| <= |w|
    requires a != "" && a[|a| - 1] == '\"' && forall i | 0 <= i < |w| :: Digit(w[i])
    ensures a == b && v == w && x == y
  {
    var k := a + v + x;
    forall i | |b| <= i < |b| + |w| ensures k[i] != '\"' {
      assert (b + w + y)[i] == w[i - |b|];
    }
    assert k[|a| - 1] == '\"';
    assert a == k[..|a|] && b == (b + w + y)[..|b|];
    assert v == k[|a|..|a| + |v|] && w == (b + w + y)[|b|..|b| + |w|];
    assert x == k[|a| + |v|..] && y == (b + w + y)[|b| + |w|..];
  }

  /** Two fields vary in length, the origin and the prior version; the quote
      before the version, read from the right, tells them apart. */
  lemma KeyDeterminesScope(s: Scope, t: Scope)
    requires ValidScope(s) && ValidScope(t) && Key(s) == Key(t)
    ensures s == t
  {
    var a, x := "[\"" + s.origin + Middle(s), SEPARATOR + s.priorDigest + "\"]";
    var b, y := "[\"" + t.origin + Middle(t), SEPARATOR + t.priorDigest + "\"]";
    assert Key(s) == a + s.priorVersion + x && Key(t) == b + t.priorVersion + y;
    if |s.priorVersion| <= |t.priorVersion| {
      DigitsDelimited(a, s.priorVersion, x, b, t.priorVersion, y);
    } else {
      DigitsDelimited(b, t.priorVersion, y, a, s.priorVersion, x);
    }
    assert s.priorDigest == x[3..67] && t.priorDigest == y[3..67];
    OriginThenMiddle(s, t);
    MiddleDetermines(s, t);
  }

  lemma OriginThenMiddle(s: Scope, t: Scope)
    requires ValidScope(s) && ValidScope(t) && "[\"" + s.origin + Middle(s) == "[\"" + t.origin + Middle(t)
    ensures s.origin == t.origin && Middle(s) == Middle(t)
  {
    var a, b := "[\"" + s.origin + Middle(s), "[\"" + t.origin + Middle(t);
    MiddleFields(s);
    MiddleFields(t);
    var n := 2 + |s.origin|;
    assert s.origin == a[2..n] && t.origin == b[2..n];
    assert Middle(s) == a[n..] && Middle(t) == b[n..];
  }
}
