/** The string operations of the host library that the service definitions are read with. */
module Text {
  import opened Prelude

  /** Every non-overlapping occurrence of `from`, left to right, replaced by `to`. */
  function Replace(s: string, from: string, to: string): string
    requires from != ""
    decreases |s|
  {
    if s == "" then ""
    else if from <= s then to + Replace(s[|from|..], from, to)
    else [s[0]] + Replace(s[1..], from, to)
  }

  /** Text before and after the first occurrence of `mark`. */
  datatype Split = Absent | Found(before: string, after: string)

  function SplitOnce(s: string, mark: string): (r: Split)
    ensures r.Found? ==> s == r.before + mark + r.after
    decreases |s|
  {
    if mark <= s then Found("", s[|mark|..])
    else if s == "" then Absent
    else Behind([s[0]], SplitOnce(s[1..], mark))
  }

  function Behind(prefix: string, r: Split): Split {
    match r
    case Absent => Absent
    case Found(before, after) => Found(prefix + before, after)
  }

  function Between(s: string, start: string, end: string): Option<string> {
    match SplitOnce(s, start)
    case Absent => None
    case Found(_, after) =>
      match SplitOnce(after, end)
      case Absent => None
      case Found(inside, _) => Some(inside)
  }

  // ---------------------------------------------------------------- lines

  function WithoutReturn(line: string): string {
    if line != "" && line[|line| - 1] == '\r' then line[..|line| - 1] else line
  }

  /** Position of the first newline, or the length. */
  function LineEnd(s: string): (n: nat)
    ensures n <= |s| && '\n' !in s[..n] && (n < |s| ==> s[n] == '\n')
  {
    if s == "" || s[0] == '\n' then 0
    else
      var n := LineEnd(s[1..]);
      assert s[..n + 1] == [s[0]] + s[1..][..n];
      n + 1
  }

  function Lines(s: string): seq<string>
    decreases |s|
  {
    if s == "" then []
    else if LineEnd(s) == |s| then [s]
    else [WithoutReturn(s[..LineEnd(s)])] + Lines(s[LineEnd(s) + 1..])
  }

  /** What follows `prefix` on the first line that starts with it. */
  function FindPrefixed(lines: seq<string>, prefix: string): Option<string> {
    if lines == [] then None
    else if prefix <= lines[0] then Some(lines[0][|prefix|..])
    else FindPrefixed(lines[1..], prefix)
  }

  function Unlines(lines: seq<string>): string {
    if lines == [] then "" else lines[0] + "\n" + Unlines(lines[1..])
  }

  // ---------------------------------------------------------------- searching past inert text

  lemma BehindBoth(a: string, b: string, r: Split)
    ensures Behind(a, Behind(b, r)) == Behind(a + b, r)
  {
    if r.Found? { assert a + (b + r.before) == (a + b) + r.before; }
  }

  lemma OneIsSkipped(c: char, mark: string, rest: string)
    requires mark != "" && !(mark <= [c] + rest)
    ensures SplitOnce([c] + rest, mark) == Behind([c], SplitOnce(rest, mark))
  {
    assert ([c] + rest)[1..] == rest;
  }

  lemma HeadSplits(plain: string, rest: string)
    requires plain != ""
    ensures plain == [plain[0]] + plain[1..] && plain + rest == [plain[0]] + (plain[1..] + rest)
  {}

  lemma {:induction false} PlainIsSkipped(plain: string, mark: string, rest: string)
    requires mark != "" && mark[0] !in plain
    ensures SplitOnce(plain + rest, mark) == Behind(plain, SplitOnce(rest, mark))
    decreases |plain|
  {
    if plain == "" {
      assert plain + rest == rest;
    } else {
      var c, tail := plain[0], plain[1..];
      HeadSplits(plain, rest);
      PlainIsSkipped(tail, mark, rest);
      HeadIsSkipped(c, tail, mark, rest);
    }
  }

  lemma HeadIsSkipped(c: char, tail: string, mark: string, rest: string)
    requires mark != "" && !(mark <= [c] + (tail + rest))
    requires SplitOnce(tail + rest, mark) == Behind(tail, SplitOnce(rest, mark))
    ensures SplitOnce([c] + (tail + rest), mark) == Behind([c] + tail, SplitOnce(rest, mark))
  {
    OneIsSkipped(c, mark, tail + rest);
    BehindBoth([c], tail, SplitOnce(rest, mark));
  }

  /** Markup as it is written: every piece opens with `<`. */
  function Tags(bodies: seq<string>): string {
    if bodies == [] then "" else "<" + bodies[0] + Tags(bodies[1..])
  }

  /** The body of a tag that is not `name` and has no other tag in it, whatever follows. */
  ghost predicate Foreign(body: string, name: string) {
    '<' !in body && exists j :: 0 <= j < |body| && j < |name| && body[j] != name[j]
  }

  ghost predicate AllForeign(bodies: seq<string>, name: string) {
    forall i :: 0 <= i < |bodies| ==> Foreign(bodies[i], name)
  }

  lemma ForeignIsSkipped(body: string, name: string, rest: string)
    requires Foreign(body, name)
    ensures SplitOnce("<" + body + rest, "<" + name) == Behind("<" + body, SplitOnce(rest, "<" + name))
  {
    var mark := "<" + name;
    var whole := ['<'] + (body + rest);
    var j :| 0 <= j < |body| && j < |name| && body[j] != name[j];
    assert whole[j + 1] == body[j] && mark[j + 1] == name[j];
    PlainIsSkipped(body, mark, rest);
    HeadIsSkipped('<', body, mark, rest);
    assert "<" + body + rest == whole;
  }

  lemma {:induction false} TagsAreSkipped(bodies: seq<string>, name: string, rest: string)
    requires AllForeign(bodies, name)
    ensures SplitOnce(Tags(bodies) + rest, "<" + name) == Behind(Tags(bodies), SplitOnce(rest, "<" + name))
    decreases |bodies|
  {
    if bodies == [] {
      assert Tags(bodies) + rest == rest;
    } else {
      var more := Tags(bodies[1..]);
      assert Tags(bodies) + rest == "<" + bodies[0] + (more + rest);
      ForeignIsSkipped(bodies[0], name, more + rest);
      TagsAreSkipped(bodies[1..], name, rest);
      BehindBoth("<" + bodies[0], more, SplitOnce(rest, "<" + name));
    }
  }

  /** The first such tag after text and other tags is the one written there. */
  lemma FirstTag(plain: string, bodies: seq<string>, name: string, rest: string)
    requires '<' !in plain && AllForeign(bodies, name)
    ensures SplitOnce(plain + Tags(bodies) + ("<" + name) + rest, "<" + name) == Found(plain + Tags(bodies), rest)
  {
    var mark, tags := "<" + name, Tags(bodies);
    assert plain + tags + mark + rest == plain + (tags + (mark + rest));
    PlainIsSkipped(plain, mark, tags + (mark + rest));
    TagsAreSkipped(bodies, name, mark + rest);
    MarkIsFound(mark, rest);
    BehindBoth(plain, tags, Found("", rest));
    assert plain + tags + "" == plain + tags;
  }

  lemma MarkIsFound(mark: string, rest: string)
    ensures SplitOnce(mark + rest, mark) == Found("", rest)
  {
    assert (mark + rest)[|mark|..] == rest;
  }

  // ---------------------------------------------------------------- searching past other lines

  lemma {:induction false} LineEndIs(line: string, rest: string)
    requires '\n' !in line
    ensures LineEnd(line + "\n" + rest) == |line|
    decreases |line|
  {
    if line != "" {
      assert (line + "\n" + rest)[1..] == line[1..] + "\n" + rest;
      LineEndIs(line[1..], rest);
    }
  }

  predicate Passed(line: string, prefix: string) {
    '\n' !in line && (line == "" || prefix == "" || line[0] != prefix[0])
  }

  lemma {:induction false} OtherLinesArePassed(lines: seq<string>, prefix: string, rest: string)
    requires prefix != "" && forall i :: 0 <= i < |lines| ==> Passed(lines[i], prefix)
    ensures FindPrefixed(Lines(Unlines(lines) + rest), prefix) == FindPrefixed(Lines(rest), prefix)
    decreases |lines|
  {
    if lines == [] {
      assert Unlines(lines) + rest == rest;
    } else {
      var tail := Unlines(lines[1..]) + rest;
      var s := lines[0] + "\n" + tail;
      assert Unlines(lines) + rest == s;
      LineEndIs(lines[0], tail);
      assert s[..|lines[0]|] == lines[0] && s[|lines[0]| + 1..] == tail;
      var line := WithoutReturn(lines[0]);
      assert !(prefix <= line);
      assert Lines(s) == [line] + Lines(tail);
      OtherLinesArePassed(lines[1..], prefix, rest);
    }
  }

  lemma FirstLineIsFound(line: string, rest: string, prefix: string)
    requires '\n' !in line && prefix <= WithoutReturn(line)
    ensures FindPrefixed(Lines(line + "\n" + rest), prefix) == Some(WithoutReturn(line)[|prefix|..])
  {
    var s := line + "\n" + rest;
    LineEndIs(line, rest);
    assert s[..|line|] == line;
  }

  lemma ReturnIsBehind(prefix: string, line: string)
    requires '\r' !in prefix
    ensures WithoutReturn(prefix + line) == prefix + WithoutReturn(line)
  {
  }

  lemma WholeLineIsFound(prefix: string, line: string, rest: string)
    requires '\n' !in prefix && '\r' !in prefix && '\n' !in line
    ensures FindPrefixed(Lines((prefix + line) + "\n" + rest), prefix) == Some(WithoutReturn(line))
  {
    ReturnIsBehind(prefix, line);
    FirstLineIsFound(prefix + line, rest, prefix);
  }

  /** The first line of a text that has one, and what follows it. */
  lemma LineSplit(s: string) returns (line: string, rest: string)
    requires '\n' in s
    ensures line == s[..LineEnd(s)] && '\n' !in line && s == line + "\n" + rest
  {
    var n := LineEnd(s);
    BreakSplits(s, n);
    line, rest := s[..n], s[n + 1..];
  }

  lemma BreakSplits(s: string, n: nat)
    requires '\n' in s && n <= |s| && '\n' !in s[..n] && (n < |s| ==> s[n] == '\n')
    ensures n < |s| && s == s[..n] + "\n" + s[n + 1..]
  {
    assert s[..|s|] == s;
  }

  lemma Regroup(prefix: string, line: string, rest: string)
    ensures prefix + (line + "\n" + rest) == (prefix + line) + "\n" + rest
  {}

  /** On a line that starts with `prefix`, the rest of the line is found, less a final return. */
  lemma OwnLineIsFound(prefix: string, body: string)
    requires '\n' !in prefix && '\r' !in prefix && '\n' in body
    ensures FindPrefixed(Lines(prefix + body), prefix) == Some(WithoutReturn(body[..LineEnd(body)]))
  {
    var line, rest := LineSplit(body);
    Regroup(prefix, line, rest);
    WholeLineIsFound(prefix, line, rest);
  }
}
