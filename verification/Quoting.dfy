/**
  The quoting of service definitions: one printer per format, and the parser that must undo it.
 */
module Quoting {
  import opened Prelude
  import opened Text

  // ---------------------------------------------------------------- systemd

  /** Every percent sign doubled. */
  function Doubled(s: string): string {
    if s == "" then ""
    else if s[0] == '%' then "%%" + Doubled(s[1..])
    else [s[0]] + Doubled(s[1..])
  }

  function Backslashed(s: string): string {
    if s == "" then ""
    else if s[0] == '\\' || s[0] == '"' then ['\\', s[0]] + Backslashed(s[1..])
    else [s[0]] + Backslashed(s[1..])
  }

  function SystemdArg(path: string): string { "\"" + Backslashed(Doubled(path)) + "\"" }

  function Ahead(prefix: string, r: Option<string>): Option<string> {
    if r.Some? then Some(prefix + r.value) else None
  }

  /** The text up to the first bare quote, backslashes undone; none without a closing quote. */
  function Scan(s: string, escaped: bool): Option<string> {
    if s == "" then None
    else if escaped then Ahead([s[0]], Scan(s[1..], false))
    else if s[0] == '\\' then Scan(s[1..], true)
    else if s[0] == '"' then Some("")
    else Ahead([s[0]], Scan(s[1..], false))
  }

  function ParseFirstArgument(s: string): Option<string> {
    if s == "" || s[0] != '"' then None
    else
      match Scan(s[1..], false)
      case None => None
      case Some(output) => Some(Replace(output, "%%", "%"))
  }

  method DoublePercent(path: string) returns (value: string)
    ensures value == Doubled(path)
  {
    value := "";
    for i := 0 to |path|
      invariant value + Doubled(path[i..]) == Doubled(path)
    {
      ghost var before := value;
      value := value + (if path[i] == '%' then "%%" else [path[i]]);
      assert path[i..][1..] == path[i + 1..];
      assert value + Doubled(path[i + 1..]) == before + Doubled(path[i..]);
    }
  }

  /** Prints a path as a quoted argument. */
  method PrintSystemdArg(path: string) returns (output: string)
    ensures output == SystemdArg(path)
    ensures forall suffix :: ParseFirstArgument(output + suffix) == Some(path)
  {
    var value := DoublePercent(path);
    output := "\"";
    for i := 0 to |value|
      invariant output + Backslashed(value[i..]) == "\"" + Backslashed(value)
    {
      ghost var before := output;
      if value[i] == '\\' || value[i] == '"' {
        output := output + "\\";
        output := output + [value[i]];
      } else {
        output := output + [value[i]];
      }
      assert value[i..][1..] == value[i + 1..];
      assert output + Backslashed(value[i + 1..]) == before + Backslashed(value[i..]);
    }
    output := output + "\"";
    assert output == SystemdArg(path);
    forall suffix ensures ParseFirstArgument(output + suffix) == Some(path) {
      SystemdRoundTrip(path, suffix);
    }
  }

  method ReadFirstArgument(text: string) returns (r: Option<string>)
    ensures r == ParseFirstArgument(text)
  {
    if text == "" || text[0] != '"' { return None; }
    var value := text[1..];
    var output, escaped := "", false;
    AheadNothing(value);
    for i := 0 to |value|
      invariant Scan(value, false) == Ahead(output, Scan(value[i..], escaped))
    {
      assert value[i..][1..] == value[i + 1..];
      ghost var before := output;
      if escaped {
        output := output + [value[i]];
        escaped := false;
        AheadBoth(before, [value[i]], Scan(value[i + 1..], false));
      } else if value[i] == '\\' {
        escaped := true;
      } else if value[i] == '"' {
        assert output + "" == output;
        return Some(Replace(output, "%%", "%"));
      } else {
        output := output + [value[i]];
        AheadBoth(before, [value[i]], Scan(value[i + 1..], false));
      }
    }
    return None;
  }

  lemma AheadBoth(a: string, b: string, r: Option<string>)
    ensures Ahead(a, Ahead(b, r)) == Ahead(a + b, r)
  {
    if r.Some? { assert a + (b + r.value) == (a + b) + r.value; }
  }

  lemma AheadNothing(s: string)
    ensures Scan(s, false) == Ahead("", Scan(s[0..], false))
  {
    assert s[0..] == s;
    if Scan(s, false).Some? { assert "" + Scan(s, false).value == Scan(s, false).value; }
  }

  lemma {:induction false} PercentRoundTrip(s: string)
    ensures Replace(Doubled(s), "%%", "%") == s
    decreases |s|
  {
    if s != "" {
      PercentRoundTrip(s[1..]);
      var d := Doubled(s);
      if s[0] == '%' {
        assert d[2..] == Doubled(s[1..]);
        assert Replace(d, "%%", "%") == "%" + s[1..];
      } else {
        assert d[1..] == Doubled(s[1..]);
        assert Replace(d, "%%", "%") == [s[0]] + s[1..];
      }
    }
  }

  lemma {:induction false} ScanRoundTrip(s: string, suffix: string)
    ensures Scan(Backslashed(s) + "\"" + suffix, false) == Some(s)
    decreases |s|
  {
    var b := Backslashed(s) + "\"" + suffix;
    if s != "" {
      ScanRoundTrip(s[1..], suffix);
      var rest := Backslashed(s[1..]) + "\"" + suffix;
      if s[0] == '\\' || s[0] == '"' {
        assert b[1..][1..] == rest;
      } else {
        assert b[1..] == rest;
      }
      assert [s[0]] + s[1..] == s;
    }
  }

  /** Whatever follows the printed argument, the parser gives the path back. */
  lemma SystemdRoundTrip(path: string, suffix: string)
    ensures ParseFirstArgument(SystemdArg(path) + suffix) == Some(path)
  {
    var s := SystemdArg(path) + suffix;
    assert s[1..] == Backslashed(Doubled(path)) + "\"" + suffix;
    ScanRoundTrip(Doubled(path), suffix);
    PercentRoundTrip(path);
  }

  /** No printed argument is a proper prefix of another: texts that agree come from one path. */
  lemma SystemdIsPrefixFree(p: string, s: string, q: string, t: string)
    requires SystemdArg(p) + s == SystemdArg(q) + t
    ensures p == q && s == t
  {
    SystemdRoundTrip(p, s);
    SystemdRoundTrip(q, t);
    assert s == (SystemdArg(p) + s)[|SystemdArg(p)|..];
    assert t == (SystemdArg(q) + t)[|SystemdArg(q)|..];
  }

  /** Cut anywhere before its closing quote, a printed argument is refused. */
  lemma {:induction false} CutScanFails(s: string, n: nat)
    requires n <= |Backslashed(s)|
    ensures Scan(Backslashed(s)[..n], false) == None
    decreases |s|
  {
    var b := Backslashed(s);
    if s != "" && n != 0 {
      var cut := b[..n];
      if s[0] == '\\' || s[0] == '"' {
        if n == 1 {
          assert cut[1..] == "";
        } else {
          assert cut[1..][1..] == Backslashed(s[1..])[..n - 2];
          CutScanFails(s[1..], n - 2);
        }
      } else {
        assert cut[1..] == Backslashed(s[1..])[..n - 1];
        CutScanFails(s[1..], n - 1);
      }
    }
  }

  // ---------------------------------------------------------------- XML

  const SPECIAL: set<char> := {'&', '<', '>', '"', '\''}

  function Entity(c: char): string {
    if c == '&' then "&amp;" else if c == '<' then "&lt;" else if c == '>' then "&gt;"
    else if c == '"' then "&quot;" else "&apos;"
  }

  /** Every character of `special` written as its entity. */
  function Escape(s: string, special: set<char>): string {
    if s == "" then ""
    else (if s[0] in special then Entity(s[0]) else [s[0]]) + Escape(s[1..], special)
  }

  function Xml(s: string): string { Escape(s, SPECIAL) }

  function XmlUnescape(s: string): string {
    var a := Replace(s, "&quot;", "\"");
    var b := Replace(a, "&apos;", "'");
    var c := Replace(b, "&gt;", ">");
    var d := Replace(c, "&lt;", "<");
    Replace(d, "&amp;", "&")
  }

  method PrintXml(value: string) returns (output: string)
    ensures output == Xml(value)
    ensures XmlUnescape(output) == value && '<' !in output && '>' !in output
  {
    output := "";
    for i := 0 to |value|
      invariant output + Xml(value[i..]) == Xml(value)
    {
      XmlStep(output, value, i);
      match value[i] {
        case '&' => output := output + "&amp;";
        case '<' => output := output + "&lt;";
        case '>' => output := output + "&gt;";
        case '"' => output := output + "&quot;";
        case '\'' => output := output + "&apos;";
        case _ => output := output + [value[i]];
      }
    }
    XmlRoundTrip(value);
    XmlHasNoTags(value);
  }

  lemma XmlStep(before: string, value: string, i: nat)
    requires i < |value|
    ensures before + Xml(value[i..]) ==
            (before + if value[i] in SPECIAL then Entity(value[i]) else [value[i]]) + Xml(value[i + 1..])
  {
    assert value[i..][1..] == value[i + 1..];
  }

  lemma {:induction false} XmlHasNoTags(s: string)
    ensures '<' !in Xml(s) && '>' !in Xml(s)
    decreases |s|
  {
    if s != "" { XmlHasNoTags(s[1..]); }
  }

  lemma {:induction false} PlainIsKept(plain: string, rest: string, from: string, to: string)
    requires from != "" && from[0] !in plain
    ensures Replace(plain + rest, from, to) == plain + Replace(rest, from, to)
    decreases |plain|
  {
    if plain == "" {
      assert plain + rest == rest;
    } else {
      assert (plain + rest)[1..] == plain[1..] + rest;
      PlainIsKept(plain[1..], rest, from, to);
    }
  }

  /** Entities of different characters differ before either can end. */
  lemma EntitiesDiffer(h: char, c: char)
    requires h in SPECIAL && c in SPECIAL && h != c
    ensures 3 <= |Entity(h)| && 3 <= |Entity(c)| && (Entity(h)[1] != Entity(c)[1] || Entity(h)[2] != Entity(c)[2])
  {
  }

  lemma EntityShape(h: char)
    ensures 1 <= |Entity(h)| && Entity(h)[0] == '&' && '&' !in Entity(h)[1..]
  {
  }

  /** Text that starts with `&` and differs from the entity is kept. */
  lemma OtherIsKept(tail: string, rest: string, from: string, to: string)
    requires from != "" && from[0] == '&' && '&' !in tail && !(from <= ['&'] + (tail + rest))
    ensures Replace(['&'] + (tail + rest), from, to) == ['&'] + tail + Replace(rest, from, to)
  {
    var s := ['&'] + (tail + rest);
    assert s[1..] == tail + rest;
    PlainIsKept(tail, rest, from, to);
  }

  lemma EntityIsKept(h: char, c: char, rest: string)
    requires h in SPECIAL && c in SPECIAL && h != c
    ensures Replace(Entity(h) + rest, Entity(c), [c]) == Entity(h) + Replace(rest, Entity(c), [c])
  {
    EntitiesDiffer(h, c);
    EntityShape(h);
    EntityShape(c);
    KeptWhole(Entity(h), Entity(c), [c], rest);
  }

  lemma KeptWhole(entity: string, from: string, to: string, rest: string)
    requires 3 <= |entity| && 3 <= |from| && (entity[1] != from[1] || entity[2] != from[2])
    requires entity[0] == '&' && '&' !in entity[1..] && from[0] == '&'
    ensures Replace(entity + rest, from, to) == entity + Replace(rest, from, to)
  {
    var tail := entity[1..];
    assert entity == ['&'] + tail;
    assert entity + rest == ['&'] + (tail + rest);
    assert (entity + rest)[1] == entity[1] && (entity + rest)[2] == entity[2];
    OtherIsKept(tail, rest, from, to);
  }

  lemma EntityIsReplaced(c: char, rest: string)
    requires c in SPECIAL
    ensures Replace(Entity(c) + rest, Entity(c), [c]) == [c] + Replace(rest, Entity(c), [c])
  {
    assert (Entity(c) + rest)[|Entity(c)|..] == rest;
  }

  /** One replacement undoes the escaping of one character, as long as `&` is still escaped. */
  lemma {:induction false} OneStage(s: string, special: set<char>, c: char)
    requires c in special && '&' in special && special <= SPECIAL
    ensures Replace(Escape(s, special), Entity(c), [c]) == Escape(s, special - {c})
    decreases |s|
  {
    if s != "" {
      var h, rest := s[0], Escape(s[1..], special);
      OneStage(s[1..], special, c);
      if h == c {
        EntityIsReplaced(c, rest);
      } else if h in special {
        EntityIsKept(h, c, rest);
      } else {
        PlainIsKept([h], rest, Entity(c), [c]);
      }
    }
  }

  lemma {:induction false} NothingEscaped(s: string)
    ensures Escape(s, {}) == s
    decreases |s|
  {
    if s != "" { NothingEscaped(s[1..]); }
  }

  /** The five replacements in a row undo the one-pass escaping. */
  lemma XmlRoundTrip(s: string)
    ensures XmlUnescape(Xml(s)) == s
  {
    OneStage(s, {'&', '<', '>', '"', '\''}, '"');
    assert {'&', '<', '>', '"', '\''} - {'"'} == {'&', '<', '>', '\''};
    OneStage(s, {'&', '<', '>', '\''}, '\'');
    assert {'&', '<', '>', '\''} - {'\''} == {'&', '<', '>'};
    OneStage(s, {'&', '<', '>'}, '>');
    assert {'&', '<', '>'} - {'>'} == {'&', '<'};
    OneStage(s, {'&', '<'}, '<');
    assert {'&', '<'} - {'<'} == {'&'};
    OneStage(s, {'&'}, '&');
    assert {'&'} - {'&'} == {};
    NothingEscaped(s);
  }
}
