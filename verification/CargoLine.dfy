/** One line of Cargo's depth-prefixed tree: the pattern that recognises it, and
    the record that its parts and the lock file make up. */
module CargoLine {
  import opened Wrappers
  import opened Decimals
  import opened Splitting
  import opened TextLines
  import opened Graphs
  import opened CargoTree

  const REGISTRY := "registry+https://github.com/rust-lang/crates.io-index"
  const MACRO := " (proc-macro)"
  const REPEAT := " (*)"
  const CARGO := "pkg:cargo/"

  predicate NameChar(c: char) { 'A' <= c <= 'Z' || 'a' <= c <= 'z' || Digit(c) || c == '_' || c == '-' }

  predicate VersionChar(c: char) { NameChar(c) || c == '.' || c == '+' }

  datatype Parts = Parts(depth: string, name: string, version: string, suffix: string)

  /** Depth, name and version; if everything before the space is digits, the last
      of them is the name. */
  function ParseHead(s: string): Option<Parts> {
    var word := Span(s, NameChar);
    var digits := Span(s[..word], Digit);
    var depth := if digits == word && digits > 0 then digits - 1 else digits;
    if depth == 0 || !(" v" <= s[word..]) then None
    else
      var rest := s[word + 2..];
      var version := Span(rest, VersionChar);
      if version == 0 then None
      else Some(Parts(s[..depth], s[depth..word], rest[..version], rest[version..]))
  }

  function Ref(name: string, version: string): Id { CARGO + name + "@" + version }

  // ----- The parts of a line

  predicate EndsWith(s: string, t: string) { |t| <= |s| && s[|s| - |t|..] == t }

  function WithoutEnd(s: string, t: string): string { if EndsWith(s, t) then s[..|s| - |t|] else s }

  function Removed(s: string, t: string): string
    requires t != ""
  {
    if s == "" then "" else if t <= s then Removed(s[|t|..], t) else [s[0]] + Removed(s[1..], t)
  }

  function Stripped(s: string): string
    decreases |s|
  {
    if s == "" then ""
    else if White(s[0]) then Stripped(s[1..])
    else if White(s[|s| - 1]) then Stripped(s[..|s| - 1])
    else s
  }

  predicate Hex(s: string) {
    |s| == 64 && forall i | 0 <= i < |s| :: Digit(s[i]) || 'a' <= s[i] <= 'f'
  }

  /** A registry package has no path and a checksum, a workspace package a path
      within the source that was reviewed. */
  predicate Placed(lock: Package, suffix: string, inside: string -> bool) {
    if lock.source != "" then lock.source == REGISTRY && suffix == "" && Hex(lock.checksum)
    else "(" <= suffix && EndsWith(suffix, ")") && 2 <= |suffix| && inside(suffix[1..|suffix| - 1])
  }

  function RecordOf(line: string, locked: Lock, inside: string -> bool): Option<Record> {
    var parts := Split(line, '|');
    if |parts| != 3 || ParseHead(parts[0]).None? then None
    else
      var head := ParseHead(parts[0]).value;
      HeadDigits(parts[0]);
      var identity := Ref(head.name, head.version);
      Some(Record(Value(head.depth), identity, parts[1], WithoutEnd(parts[2], REPEAT), EndsWith(parts[2], REPEAT),
                  identity in locked && Placed(locked[identity], Stripped(Removed(head.suffix, MACRO)), inside)))
  }

  lemma HeadDigits(s: string)
    requires ParseHead(s).Some?
    ensures forall i | 0 <= i < |ParseHead(s).value.depth| :: Digit(ParseHead(s).value.depth[i])
  {
    var word := Span(s, NameChar);
    SpanAll(s[..word], Digit);
    forall i | 0 <= i < |ParseHead(s).value.depth| ensures Digit(ParseHead(s).value.depth[i]) {
      assert s[..word][i] == s[i];
    }
  }

  /** Whatever is recognised names a package without a query. */
  predicate Plainly(x: Id) { CARGO <= x && '?' !in x }

  lemma RecordIsPlain(line: string, locked: Lock, inside: string -> bool)
    requires RecordOf(line, locked, inside).Some?
    ensures Plainly(RecordOf(line, locked, inside).value.identity)
  {
    HeadIsPlain(Split(line, '|')[0]);
  }

  lemma HeadIsPlain(s: string)
    requires ParseHead(s).Some?
    ensures '?' !in ParseHead(s).value.name && '?' !in ParseHead(s).value.version
  {
    var word := Span(s, NameChar);
    SpanAll(s, NameChar);
    SpanAll(s[word + 2..], VersionChar);
  }

  // ----- What Cargo prints reads back

  /** How a package appears in a line; `path` is that of a workspace package. */
  datatype Spelling = Spelling(name: string, version: string, isMacro: bool, path: string)

  function Place(sp: Spelling, lock: Package): string { if lock.source == "" then " (" + sp.path + ")" else "" }

  function Suffix(sp: Spelling, lock: Package): string { (if sp.isMacro then MACRO else "") + Place(sp, lock) }

  function Head(depth: nat, sp: Spelling, lock: Package): string {
    Decimal(depth) + sp.name + (" v" + (sp.version + Suffix(sp, lock)))
  }

  function LineText(depth: nat, sp: Spelling, f: Facts, repeat: bool): string {
    Head(depth, sp, f.lock) + "|" + (f.license + "|" + (f.features + if repeat then REPEAT else ""))
  }

  predicate Printable(s: string) { Plain(s) && '|' !in s }

  predicate Spells(sp: Spelling, f: Facts, inside: string -> bool) {
    && sp.name != "" && !Digit(sp.name[0]) && (forall i | 0 <= i < |sp.name| :: NameChar(sp.name[i]))
    && sp.version != "" && (forall i | 0 <= i < |sp.version| :: VersionChar(sp.version[i]))
    && Printable(f.license) && Printable(f.features) && !EndsWith(f.features, REPEAT)
    && (if f.lock.source != "" then f.lock.source == REGISTRY && Hex(f.lock.checksum)
        else Printable(sp.path) && inside(sp.path) && Free(Place(sp, f.lock)))
  }

  /** The mark of a procedural macro occurs nowhere. */
  predicate Free(s: string) { forall i | 0 <= i <= |s| :: !(MACRO <= s[i..]) }

  lemma {:induction false} NothingRemoved(s: string)
    requires Free(s)
    ensures Removed(s, MACRO) == s
  {
    if s != "" {
      assert s[0..] == s;
      forall i | 0 <= i <= |s[1..]| ensures !(MACRO <= s[1..][i..]) {
        assert s[1..][i..] == s[i + 1..];
      }
      NothingRemoved(s[1..]);
      assert [s[0]] + s[1..] == s;
    }
  }

  lemma MacroRemoved(place: string)
    requires Free(place)
    ensures Removed(MACRO + place, MACRO) == place && Removed("" + place, MACRO) == place
  {
    NothingRemoved(place);
    assert (MACRO + place)[|MACRO|..] == place && MACRO <= MACRO + place;
    assert "" + place == place;
  }

  lemma PathStripped(path: string)
    ensures Stripped(" (" + path + ")") == "(" + path + ")"
  {
    var s, inner := " (" + path + ")", "(" + path + ")";
    assert s[1..] == inner;
    assert !White(inner[0]) && !White(inner[|inner| - 1]);
  }

  lemma PathPlaced(lock: Package, path: string, inside: string -> bool)
    requires lock.source == "" && inside(path)
    ensures Placed(lock, "(" + path + ")", inside)
  {
    var s := "(" + path + ")";
    assert s[1..|s| - 1] == path && s[|s| - 1..] == ")";
  }

  lemma SuffixReadsBack(sp: Spelling, f: Facts, inside: string -> bool)
    requires Spells(sp, f, inside)
    ensures Placed(f.lock, Stripped(Removed(Suffix(sp, f.lock), MACRO)), inside)
  {
    MacroRemoved(Place(sp, f.lock));
    if f.lock.source == "" {
      PathStripped(sp.path);
      PathPlaced(f.lock, sp.path, inside);
    }
  }

  lemma WordSpans(digits: string, name: string, tail: string)
    requires Digits(digits) && name != "" && !Digit(name[0]) && (forall i | 0 <= i < |name| :: NameChar(name[i]))
    requires tail != "" && tail[0] == ' '
    ensures Span(digits + name + tail, NameChar) == |digits + name|
    ensures Span((digits + name + tail)[..|digits + name|], Digit) == |digits|
  {
    SpanOf(digits + name, tail, NameChar);
    SpanOf(digits, name, Digit);
    assert (digits + name + tail)[..|digits + name|] == digits + name;
  }

  lemma HeadSlices(digits: string, name: string, version: string, suffix: string)
    ensures var s, n := digits + name + (" v" + (version + suffix)), |digits + name|;
            && s[..|digits|] == digits && s[|digits|..n] == name && " v" <= s[n..] && s[n + 2..] == version + suffix
            && (version + suffix)[..|version|] == version && (version + suffix)[|version|..] == suffix
  {
  }

  lemma HeadOf(digits: string, name: string, version: string, suffix: string)
    requires Digits(digits) && name != "" && !Digit(name[0]) && (forall i | 0 <= i < |name| :: NameChar(name[i]))
    requires version != "" && (forall i | 0 <= i < |version| :: VersionChar(version[i]))
    requires suffix == "" || suffix[0] == ' '
    ensures ParseHead(digits + name + (" v" + (version + suffix))) == Some(Parts(digits, name, version, suffix))
  {
    WordSpans(digits, name, " v" + (version + suffix));
    HeadSlices(digits, name, version, suffix);
    SpanOf(version, suffix, VersionChar);
  }

  lemma HeadReadsBack(depth: nat, sp: Spelling, f: Facts, inside: string -> bool)
    requires Spells(sp, f, inside)
    ensures ParseHead(Head(depth, sp, f.lock)) == Some(Parts(Decimal(depth), sp.name, sp.version, Suffix(sp, f.lock)))
  {
    DecimalReadsBack(depth);
    HeadOf(Decimal(depth), sp.name, sp.version, Suffix(sp, f.lock));
  }

  lemma PrintableAppend(a: string, b: string)
    requires Printable(a) && Printable(b)
    ensures Printable(a + b)
  {
  }

  lemma VersionIsPrintable(s: string)
    requires forall i | 0 <= i < |s| :: VersionChar(s[i])
    ensures Printable(s)
  {
  }

  lemma SuffixIsPrintable(sp: Spelling, f: Facts, inside: string -> bool)
    requires Spells(sp, f, inside)
    ensures Printable(Suffix(sp, f.lock))
  {
    assert Printable(MACRO) && Printable("") && Printable(" (") && Printable(")");
    if f.lock.source == "" {
      PrintableAppend(" (", sp.path);
      PrintableAppend(" (" + sp.path, ")");
    }
    PrintableAppend(if sp.isMacro then MACRO else "", Place(sp, f.lock));
  }

  lemma HeadIsPrintable(depth: nat, sp: Spelling, f: Facts, inside: string -> bool)
    requires Spells(sp, f, inside)
    ensures Printable(Head(depth, sp, f.lock))
  {
    var suffix := Suffix(sp, f.lock);
    DecimalReadsBack(depth);
    VersionIsPrintable(Decimal(depth));
    VersionIsPrintable(sp.name);
    VersionIsPrintable(sp.version);
    SuffixIsPrintable(sp, f, inside);
    PrintableAppend(sp.version, suffix);
    PrintableAppend(" v", sp.version + suffix);
    PrintableAppend(Decimal(depth), sp.name);
    PrintableAppend(Decimal(depth) + sp.name, " v" + (sp.version + suffix));
  }

  lemma ThreeParts(a: string, b: string, c: string)
    requires '|' !in a && '|' !in b && '|' !in c
    ensures Split(a + "|" + (b + "|" + c), '|') == [a, b, c]
  {
    SplitFirst(a, '|', b + "|" + c);
    SplitFirst(b, '|', c);
    SplitWhole(c, '|');
  }

  lemma RepeatReadsBack(features: string, repeat: bool)
    requires Printable(features) && !EndsWith(features, REPEAT)
    ensures var s := features + if repeat then REPEAT else "";
            Printable(s) && EndsWith(s, REPEAT) == repeat && WithoutEnd(s, REPEAT) == features
  {
    var s := features + if repeat then REPEAT else "";
    if repeat {
      assert s[|features|..] == REPEAT && s[..|features|] == features;
    } else {
      assert s == features;
    }
  }

  lemma BarsArePlain(a: string, b: string, c: string)
    requires Printable(a) && Printable(b) && Printable(c)
    ensures Plain(a + "|" + (b + "|" + c))
  {
  }

  /** A printed line is recognised and gives back its record. */
  lemma LineReadsBack(depth: nat, sp: Spelling, f: Facts, repeat: bool, locked: Lock, inside: string -> bool)
    requires Spells(sp, f, inside) && Ref(sp.name, sp.version) in locked && locked[Ref(sp.name, sp.version)] == f.lock
    ensures Plain(LineText(depth, sp, f, repeat))
    ensures RecordOf(LineText(depth, sp, f, repeat), locked, inside)
         == Some(Record(depth, Ref(sp.name, sp.version), f.license, f.features, repeat, true))
  {
    var head, last := Head(depth, sp, f.lock), f.features + if repeat then REPEAT else "";
    HeadIsPrintable(depth, sp, f, inside);
    RepeatReadsBack(f.features, repeat);
    BarsArePlain(head, f.license, last);
    ThreeParts(head, f.license, last);
    HeadReadsBack(depth, sp, f, inside);
    SuffixReadsBack(sp, f, inside);
    DecimalReadsBack(depth);
  }
}
