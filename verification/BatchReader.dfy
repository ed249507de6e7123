/** The length-framed output of `git cat-file --batch`, and reading it back. A
    byte is taken as a character. */
module BatchReader {
  import opened Wrappers
  import opened Decimals

  type Oid = string
  type Bytes = string

  datatype Object = Object(kind: string, data: Bytes)

  datatype Error = Missing | Malformed

  // ----- What git writes

  function Header(oid: Oid, o: Object): string { oid + " " + o.kind + " " + Decimal(|o.data|) }

  function Frame(objects: map<Oid, Object>, oid: Oid): Bytes {
    if oid in objects then Header(oid, objects[oid]) + "\n" + objects[oid].data + "\n"
    else oid + " missing" + "\n"
  }

  function Batch(objects: map<Oid, Object>, oids: seq<Oid>): Bytes {
    if oids == [] then "" else Frame(objects, oids[0]) + Batch(objects, oids[1..])
  }

  // ----- What the reader makes of it

  predicate Space(c: char) { c == ' ' || '\t' <= c <= '\r' }

  function IndexOf(s: Bytes, c: char): Option<nat> {
    if s == "" then None
    else if s[0] == c then Some(0)
    else
      match IndexOf(s[1..], c)
      case None => None
      case Some(i) => Some(i + 1)
  }

  /** The words of a line, as `split` gives them; `word` is the one being read. */
  function Words(s: string, word: string): seq<string> {
    if s == "" then if word == "" then [] else [word]
    else if !Space(s[0]) then Words(s[1..], word + [s[0]])
    else (if word == "" then [] else [word]) + Words(s[1..], "")
  }

  /** An index as Python takes it: counted from the end if negative, and clamped. */
  function Index(s: Bytes, i: int): (r: nat)
    ensures r <= |s|
  {
    if i > |s| then |s| else if i >= 0 then i else if i + |s| >= 0 then i + |s| else 0
  }

  function Slice(s: Bytes, i: int, j: int): Bytes {
    if Index(s, i) <= Index(s, j) then s[Index(s, i)..Index(s, j)] else ""
  }

  function From(s: Bytes, i: int): Bytes { s[Index(s, i)..] }

  /** Digits, with single underscores between them. */
  predicate Grouped(s: string) {
    && s != "" && Digit(s[0]) && Digit(s[|s| - 1])
    && forall i | 0 < i < |s| :: Digit(s[i]) || (s[i] == '_' && Digit(s[i - 1]))
  }

  function Ungrouped(s: string): (r: string)
    ensures forall i | 0 <= i < |r| :: Digit(r[i])
  {
    if s == "" then "" else (if Digit(s[0]) then [s[0]] else "") + Ungrouped(s[1..])
  }

  /** What `int` makes of a word. */
  function Int(s: string): Option<int> {
    if s != "" && s[0] in {'+', '-'} then
      if !Grouped(s[1..]) then None
      else
        var n: int := Value(Ungrouped(s[1..]));
        Some(if s[0] == '-' then -n else n)
    else if Grouped(s) then Some(Value(Ungrouped(s)))
    else None
  }

  /** The size a header announces, if it is the header of a blob. */
  function Size(header: string): Result<int, Error> {
    var fields := Words(header, "");
    if |fields| != 3 || fields[1] != "blob" then Err(Missing)
    else if Int(fields[2]).None? then Err(Malformed)
    else Ok(Int(fields[2]).value)
  }

  type Sizes = string -> Result<int, Error>

  /** The blob at an offset, and the offset of the frame after it, with a reading of
      headers. */
  function FrameWith(size: Sizes, output: Bytes, offset: int): Result<(Bytes, int), Error> {
    match IndexOf(From(output, offset), '\n')
    case None => Err(Malformed)
    case Some(n) =>
      var end := Index(output, offset) + n;
      match size(Slice(output, offset, end))
      case Err(e) => Err(e)
      case Ok(size) => Ok((Slice(output, end + 1, end + 1 + size), end + size + 2))
  }

  function FrameAt(output: Bytes, offset: int): Result<(Bytes, int), Error> { FrameWith(Size, output, offset) }

  function Unframed(output: Bytes, offset: int, oids: seq<Oid>, blobs: map<Oid, Bytes>): Result<map<Oid, Bytes>, Error>
    decreases |oids|
  {
    if oids == [] then Ok(blobs)
    else
      match FrameAt(output, offset)
      case Err(e) => Err(e)
      case Ok(frame) => Unframed(output, frame.1, oids[1..], blobs[oids[0] := frame.0])
  }

  method ReadFrame(output: Bytes, offset: int) returns (r: Result<(Bytes, int), Error>)
    ensures r == FrameAt(output, offset)
  {
    var found := IndexOf(From(output, offset), '\n');
    if found.None? {
      return Err(Malformed);
    }
    var end := Index(output, offset) + found.value;
    var size := Size(Slice(output, offset, end));
    if size.Err? {
      return Err(size.error);
    }
    return Ok((Slice(output, end + 1, end + 1 + size.value), end + size.value + 2));
  }

  method ReadBlobs(output: Bytes, oids: seq<Oid>) returns (r: Result<map<Oid, Bytes>, Error>)
    ensures r == Unframed(output, 0, oids, map[])
  {
    var offset: int, blobs: map<Oid, Bytes> := 0, map[];
    for i := 0 to |oids|
      invariant Unframed(output, offset, oids[i..], blobs) == Unframed(output, 0, oids, map[])
    {
      assert oids[i..][1..] == oids[i + 1..];
      var frame := ReadFrame(output, offset);
      if frame.Err? {
        return Err(frame.error);
      }
      blobs := blobs[oids[i] := frame.value.0];
      offset := frame.value.1;
    }
    return Ok(blobs);
  }

  // ----- The one undoes the other

  predicate Word(s: string) { s != "" && forall i | 0 <= i < |s| :: !Space(s[i]) }

  lemma {:induction false} WordThenSpace(w: string, rest: string, word: string)
    requires (forall i | 0 <= i < |w| :: !Space(w[i])) && word + w != ""
    ensures Words(w + " " + rest, word) == [word + w] + Words(rest, "")
    decreases |w|
  {
    var s := w + " " + rest;
    if w == "" {
      assert s[1..] == rest && word + w == word;
    } else {
      assert s[1..] == w[1..] + " " + rest;
      assert word + [w[0]] + w[1..] == word + w;
      WordThenSpace(w[1..], rest, word + [w[0]]);
    }
  }

  lemma {:induction false} LastWord(w: string, word: string)
    requires (forall i | 0 <= i < |w| :: !Space(w[i])) && word + w != ""
    ensures Words(w, word) == [word + w]
    decreases |w|
  {
    if w == "" {
      assert word + w == word;
    } else {
      assert word + [w[0]] + w[1..] == word + w;
      LastWord(w[1..], word + [w[0]]);
    }
  }

  lemma DigitsAreWord(s: string)
    requires Digits(s)
    ensures Word(s)
  {
    forall i | 0 <= i < |s| ensures !Space(s[i]) {
      assert Digit(s[i]);
    }
  }

  lemma ThreeWords(a: string, b: string, c: string)
    requires Word(a) && Word(b) && Word(c)
    ensures Words(a + " " + b + " " + c, "") == [a, b, c]
  {
    assert a + " " + b + " " + c == a + " " + (b + " " + c);
    WordThenSpace(a, b + " " + c, "");
    WordThenSpace(b, c, "");
    LastWord(c, "");
    assert "" + a == a && "" + b == b && "" + c == c;
  }

  lemma {:induction false} DigitsUngrouped(s: string)
    requires forall i | 0 <= i < |s| :: Digit(s[i])
    ensures Ungrouped(s) == s
  {
    if s != "" {
      DigitsUngrouped(s[1..]);
      assert [s[0]] + s[1..] == s;
    }
  }

  lemma IntReadsBack(n: nat)
    ensures Int(Decimal(n)) == Some(n)
  {
    var s := Decimal(n);
    DecimalReadsBack(n);
    DigitsUngrouped(s);
    assert Digit(s[0]) && Digit(s[|s| - 1]);
  }

  lemma HeaderWords(oid: Oid, o: Object)
    requires Word(oid) && Word(o.kind)
    ensures Words(Header(oid, o), "") == [oid, o.kind, Decimal(|o.data|)]
    ensures '\n' !in Header(oid, o)
    ensures Size(Header(oid, o)) == if o.kind == "blob" then Ok(|o.data|) else Err(Missing)
  {
    var size := Decimal(|o.data|);
    DecimalReadsBack(|o.data|);
    DigitsAreWord(size);
    IntReadsBack(|o.data|);
    ThreeWords(oid, o.kind, size);
    assert Space('\n');
    assert '\n' !in oid && '\n' !in o.kind && '\n' !in size;
  }

  lemma MissingWords(oid: Oid)
    requires Word(oid)
    ensures Size(oid + " missing") == Err(Missing)
    ensures '\n' !in oid + " missing"
  {
    assert Space('\n');
    assert oid + " missing" == oid + " " + "missing";
    WordThenSpace(oid, "missing", "");
    LastWord("missing", "");
  }

  lemma {:induction false} FirstIndex(s: Bytes, c: char, k: nat)
    requires k < |s| && s[k] == c && c !in s[..k]
    ensures IndexOf(s, c) == Some(k)
    decreases k
  {
    if k > 0 {
      assert s[..k] == [s[0]] + s[1..][..k - 1];
      FirstIndex(s[1..], c, k - 1);
    }
  }

  lemma LineEnd(line: string, rest: Bytes)
    requires '\n' !in line
    ensures IndexOf(line + "\n" + rest, '\n') == Some(|line|)
  {
    assert (line + "\n" + rest)[..|line|] == line;
    FirstIndex(line + "\n" + rest, '\n', |line|);
  }

  lemma FrameCut(prefix: Bytes, line: string, data: Bytes, rest: Bytes)
    ensures var s, n := prefix + (line + "\n" + data + "\n") + rest, |prefix|;
            && From(s, n) == line + "\n" + (data + "\n" + rest)
            && Slice(s, n, n + |line|) == line
            && Slice(s, n + |line| + 1, n + |line| + 1 + |data|) == data
  {
    var s, n := prefix + (line + "\n" + data + "\n") + rest, |prefix|;
    assert From(s, n) == s[n..];
    assert s[n..] == line + "\n" + (data + "\n" + rest);
    assert s[n..n + |line|] == line;
    assert s[n + |line| + 1..n + |line| + 1 + |data|] == data;
  }

  lemma LineCut(prefix: Bytes, line: string, rest: Bytes)
    ensures var s, n := prefix + (line + "\n") + rest, |prefix|;
            From(s, n) == line + "\n" + rest && Slice(s, n, n + |line|) == line
  {
    var s, n := prefix + (line + "\n") + rest, |prefix|;
    assert From(s, n) == s[n..];
    assert s[n..] == line + "\n" + rest;
    assert s[n..n + |line|] == line;
  }

  predicate IsBlob(objects: map<Oid, Object>, oid: Oid) { oid in objects && objects[oid].kind == "blob" }

  lemma FrameStarts(size: Sizes, output: Bytes, offset: nat, n: nat, line: string)
    requires offset <= |output| && IndexOf(From(output, offset), '\n') == Some(n)
    requires Slice(output, offset, offset + n) == line
    ensures size(line).Err? ==> FrameWith(size, output, offset) == Err(size(line).error)
    ensures size(line).Ok? ==>
              FrameWith(size, output, offset)
              == Ok((Slice(output, offset + n + 1, offset + n + 1 + size(line).value), offset + n + size(line).value + 2))
  {
    assert Index(output, offset) == offset;
  }

  lemma FramedReadsBack(size: Sizes, prefix: Bytes, line: string, data: Bytes, rest: Bytes)
    requires '\n' !in line
    ensures var r := FrameWith(size, prefix + (line + "\n" + data + "\n") + rest, |prefix|);
            && (size(line) == Ok(|data|) ==> r == Ok((data, |prefix| + |line| + |data| + 2)))
            && (size(line).Err? ==> r == Err(size(line).error))
  {
    LineEnd(line, data + "\n" + rest);
    FrameCut(prefix, line, data, rest);
    FrameStarts(size, prefix + (line + "\n" + data + "\n") + rest, |prefix|, |line|, line);
  }

  lemma LineReadsBack(size: Sizes, prefix: Bytes, line: string, rest: Bytes)
    requires '\n' !in line && size(line).Err?
    ensures FrameWith(size, prefix + (line + "\n") + rest, |prefix|) == Err(size(line).error)
  {
    LineEnd(line, rest);
    LineCut(prefix, line, rest);
    FrameStarts(size, prefix + (line + "\n") + rest, |prefix|, |line|, line);
  }

  lemma FoundReadsBack(oid: Oid, o: Object, prefix: Bytes, rest: Bytes)
    requires Word(oid) && Word(o.kind)
    ensures var frame := Header(oid, o) + "\n" + o.data + "\n";
            FrameAt(prefix + frame + rest, |prefix|)
            == if o.kind == "blob" then Ok((o.data, |prefix + frame|)) else Err(Missing)
  {
    HeaderWords(oid, o);
    FramedReadsBack(Size, prefix, Header(oid, o), o.data, rest);
  }

  lemma MissingReadsBack(oid: Oid, prefix: Bytes, rest: Bytes)
    requires Word(oid)
    ensures FrameAt(prefix + (oid + " missing" + "\n") + rest, |prefix|) == Err(Missing)
  {
    MissingWords(oid);
    LineReadsBack(Size, prefix, oid + " missing", rest);
  }

  lemma FrameReadsBack(objects: map<Oid, Object>, oid: Oid, prefix: Bytes, rest: Bytes)
    requires Word(oid) && forall o | o in objects :: Word(objects[o].kind)
    ensures FrameAt(prefix + Frame(objects, oid) + rest, |prefix|)
         == if IsBlob(objects, oid) then Ok((objects[oid].data, |prefix + Frame(objects, oid)|)) else Err(Missing)
  {
    if oid in objects {
      FoundReadsBack(oid, objects[oid], prefix, rest);
    } else {
      MissingReadsBack(oid, prefix, rest);
    }
  }

  ghost predicate Readable(objects: map<Oid, Object>, oids: seq<Oid>) {
    forall i | 0 <= i < |oids| :: IsBlob(objects, oids[i])
  }

  function Contents(objects: map<Oid, Object>, oids: seq<Oid>): map<Oid, Bytes> {
    map oid | oid in oids && oid in objects :: objects[oid].data
  }

  lemma {:induction false} SuffixReadsBack(
      objects: map<Oid, Object>, prefix: Bytes, oids: seq<Oid>, blobs: map<Oid, Bytes>)
    requires forall i | 0 <= i < |oids| :: Word(oids[i])
    requires forall o | o in objects :: Word(objects[o].kind)
    ensures Unframed(prefix + Batch(objects, oids), |prefix|, oids, blobs)
         == if Readable(objects, oids) then Ok(blobs + Contents(objects, oids)) else Err(Missing)
    decreases |oids|
  {
    if oids == [] {
      assert blobs + Contents(objects, oids) == blobs;
    } else {
      var frame, rest := Frame(objects, oids[0]), Batch(objects, oids[1..]);
      assert prefix + Batch(objects, oids) == (prefix + frame) + rest;
      FrameReadsBack(objects, oids[0], prefix, rest);
      if IsBlob(objects, oids[0]) {
        SuffixReadsBack(objects, prefix + frame, oids[1..], blobs[oids[0] := objects[oids[0]].data]);
        FirstContents(objects, oids, blobs);
        assert Readable(objects, oids) <==> Readable(objects, oids[1..]) by { RestReadable(objects, oids); }
      }
    }
  }

  lemma FirstContents(objects: map<Oid, Object>, oids: seq<Oid>, blobs: map<Oid, Bytes>)
    requires oids != [] && oids[0] in objects
    ensures blobs[oids[0] := objects[oids[0]].data] + Contents(objects, oids[1..]) == blobs + Contents(objects, oids)
  {
    assert oids == [oids[0]] + oids[1..];
  }

  lemma RestReadable(objects: map<Oid, Object>, oids: seq<Oid>)
    requires oids != [] && IsBlob(objects, oids[0])
    ensures Readable(objects, oids) <==> Readable(objects, oids[1..])
  {
    assert oids == [oids[0]] + oids[1..];
  }

  /** Whatever the contents, also with newlines or headers of their own inside:
      the reader returns exactly the blobs asked for, and fails exactly if one of
      them is missing or is not a blob. */
  lemma BatchReadsBack(objects: map<Oid, Object>, oids: seq<Oid>)
    requires forall i | 0 <= i < |oids| :: Word(oids[i])
    requires forall o | o in objects :: Word(objects[o].kind)
    ensures Unframed(Batch(objects, oids), 0, oids, map[])
         == if Readable(objects, oids) then Ok(Contents(objects, oids)) else Err(Missing)
  {
    SuffixReadsBack(objects, "", oids, map[]);
    assert "" + Batch(objects, oids) == Batch(objects, oids);
    assert map[] + Contents(objects, oids) == Contents(objects, oids);
  }
}
