/** Text as lines, with the line breaks and white space that Python knows. */
module TextLines {
  predicate White(c: char) {
    || '\t' <= c <= '\r' || '\U{1C}' <= c <= ' ' || c == '\U{85}' || c == '\U{A0}' || c == '\U{1680}'
    || '\U{2000}' <= c <= '\U{200A}' || '\U{2028}' <= c <= '\U{2029}' || c == '\U{202F}' || c == '\U{205F}'
    || c == '\U{3000}'
  }

  predicate Break(c: char) {
    '\n' <= c <= '\r' || '\U{1C}' <= c <= '\U{1E}' || c == '\U{85}' || '\U{2028}' <= c <= '\U{2029}'
  }

  predicate Plain(s: string) { forall i | 0 <= i < |s| :: !Break(s[i]) }

  /** The lines of a text, as `splitlines` gives them; `line` is the one being read. */
  function SplitLines(s: string, line: string): seq<string>
    decreases |s|
  {
    if s == "" then if line == "" then [] else [line]
    else if !Break(s[0]) then SplitLines(s[1..], line + [s[0]])
    else [line] + SplitLines(if |s| > 1 && s[0] == '\r' && s[1] == '\n' then s[2..] else s[1..], "")
  }

  function Unlines(lines: seq<string>): string {
    if lines == [] then "" else lines[0] + "\n" + Unlines(lines[1..])
  }

  lemma {:induction false} FirstLine(s: string, rest: string, line: string)
    requires Plain(s)
    ensures SplitLines(s + "\n" + rest, line) == [line + s] + SplitLines(rest, "")
    decreases |s|
  {
    var text := s + "\n" + rest;
    if s == "" {
      assert text[1..] == rest && line + s == line;
    } else {
      assert text[1..] == s[1..] + "\n" + rest;
      assert line + [s[0]] + s[1..] == line + s;
      FirstLine(s[1..], rest, line + [s[0]]);
    }
  }

  lemma {:induction false} LinesReadBack(lines: seq<string>)
    requires forall i | 0 <= i < |lines| :: Plain(lines[i])
    ensures SplitLines(Unlines(lines), "") == lines
  {
    if lines != [] {
      FirstLine(lines[0], Unlines(lines[1..]), "");
      LinesReadBack(lines[1..]);
      assert "" + lines[0] == lines[0];
      assert lines == [lines[0]] + lines[1..];
    }
  }
}
