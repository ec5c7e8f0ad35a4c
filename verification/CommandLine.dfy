/**
  Windows command-line quoting, against the argument rules of the Microsoft C runtime:
  2n backslashes before a quote are n backslashes and a delimiter, 2n+1 are n backslashes and a
  literal quote, and backslashes before anything else stand for themselves.
 */
module CommandLine {

  function Backslashes(n: nat): string { seq(n, i => '\\') }

  /** What is still to be written of `s` when `n` backslashes are pending. */
  function Quoted(s: string, n: nat): string
    decreases |s|
  {
    if s == "" then Backslashes(2 * n)
    else if s[0] == '\\' then Quoted(s[1..], n + 1)
    else if s[0] == '"' then Backslashes(2 * n + 1) + "\"" + Quoted(s[1..], 0)
    else Backslashes(n) + [s[0]] + Quoted(s[1..], 0)
  }

  function WindowsArgument(path: string): string { "\"" + Quoted(path, 0) + "\"" }

  // ---------------------------------------------------------------- the runtime's rules

  /** How many backslashes `s` starts with. */
  function Leading(s: string): (n: nat)
    ensures n <= |s|
  {
    if s == "" || s[0] != '\\' then 0 else Leading(s[1..]) + 1
  }

  datatype Parsed = Parsed(argument: string, rest: string)

  function After(prefix: string, p: Parsed): Parsed { Parsed(prefix + p.argument, p.rest) }

  predicate Separates(c: char) { c == ' ' || c == '\t' }

  /**
    One argument from the front of a command line.  `doubling` selects the runtimes in which
    two quotes inside a quoted part are one literal quote.
   */
  function Parse(s: string, quoted: bool, doubling: bool): Parsed
    decreases |s|
  {
    var n := Leading(s);
    if n == |s| then Parsed(Backslashes(n), "")
    else if s[n] == '"' then
      if n % 2 == 1 then After(Backslashes(n / 2) + "\"", Parse(s[n + 1..], quoted, doubling))
      else if quoted && doubling && n + 1 < |s| && s[n + 1] == '"' then
        After(Backslashes(n / 2) + "\"", Parse(s[n + 2..], quoted, doubling))
      else After(Backslashes(n / 2), Parse(s[n + 1..], !quoted, doubling))
    else if !quoted && Separates(s[n]) then Parsed(Backslashes(n), s[n..])
    else After(Backslashes(n) + [s[n]], Parse(s[n + 1..], quoted, doubling))
  }

  // ---------------------------------------------------------------- the printer

  method PrintArgument(path: string) returns (output: string)
    ensures output == WindowsArgument(path)
    ensures forall doubling :: Parse(output, false, doubling) == Parsed(path, "")
  {
    output := "\"";
    var pending := 0;
    for i := 0 to |path|
      invariant output + Quoted(path[i..], pending) == "\"" + Quoted(path, 0)
    {
      assert path[i..][1..] == path[i + 1..];
      ghost var before := output;
      if path[i] == '\\' {
        pending := pending + 1;
        continue;
      }
      if path[i] == '"' {
        output := output + Backslashes(pending * 2 + 1);
        output := output + "\"";
      } else {
        output := output + Backslashes(pending);
        output := output + [path[i]];
      }
      assert output + Quoted(path[i + 1..], 0) == before + Quoted(path[i..], pending);
      pending := 0;
    }
    output := output + Backslashes(pending * 2);
    output := output + "\"";
    assert output == WindowsArgument(path);
    forall doubling ensures Parse(output, false, doubling) == Parsed(path, "") {
      SeparatedRoundTrip(path, "", doubling);
      assert output + "" == output;
    }
  }

  // ---------------------------------------------------------------- the round trip

  lemma {:induction false} LeadingIs(n: nat, c: char, rest: string)
    requires c != '\\'
    ensures Leading(Backslashes(n) + [c] + rest) == n
  {
    var s := Backslashes(n) + [c] + rest;
    if n != 0 {
      assert s[1..] == Backslashes(n - 1) + [c] + rest;
      LeadingIs(n - 1, c, rest);
    }
  }

  lemma AfterBoth(a: string, b: string, p: Parsed)
    ensures After(a, After(b, p)) == After(a + b, p)
  {
    assert a + (b + p.argument) == (a + b) + p.argument;
  }

  lemma ClosingQuote(s: string, m: nat, doubling: bool)
    requires Leading(s) == m < |s| && s[m] == '"' && m % 2 == 0
    requires doubling && m + 1 < |s| ==> s[m + 1] != '"'
    ensures Parse(s, true, doubling) == After(Backslashes(m / 2), Parse(s[m + 1..], false, doubling))
  {
  }

  lemma LiteralQuote(s: string, m: nat, doubling: bool)
    requires Leading(s) == m < |s| && s[m] == '"' && m % 2 == 1
    ensures Parse(s, true, doubling) == After(Backslashes(m / 2) + ['"'], Parse(s[m + 1..], true, doubling))
  {
  }

  lemma Ordinary(s: string, m: nat, doubling: bool)
    requires Leading(s) == m < |s| && s[m] != '"'
    ensures Parse(s, true, doubling) == After(Backslashes(m) + [s[m]], Parse(s[m + 1..], true, doubling))
  {
  }

  lemma QuotedParts(s: string, n: nat, tail: string)
    requires s != "" && s[0] != '\\'
    ensures var m := if s[0] == '"' then 2 * n + 1 else n;
      Quoted(s, n) + tail == Backslashes(m) + [s[0]] + (Quoted(s[1..], 0) + tail)
  {
  }

  lemma PartsAt(m: nat, c: char, rest: string)
    ensures var s := Backslashes(m) + [c] + rest; m < |s| && s[m] == c && s[m + 1..] == rest
  {
  }

  lemma EndRoundTrip(n: nat, suffix: string, doubling: bool)
    requires doubling ==> suffix == "" || suffix[0] != '"'
    ensures Parse(Backslashes(2 * n) + ['"'] + suffix, true, doubling)
        == After(Backslashes(n), Parse(suffix, false, doubling))
  {
    var m := 2 * n;
    LeadingIs(m, '"', suffix);
    PartsAt(m, '"', suffix);
    assert m % 2 == 0 && m / 2 == n;
    ClosingQuote(Backslashes(m) + ['"'] + suffix, m, doubling);
  }

  lemma CharacterRoundTrip(c: char, n: nat, rest: string, doubling: bool)
    requires c != '\\'
    ensures var m := if c == '"' then 2 * n + 1 else n;
      Parse(Backslashes(m) + [c] + rest, true, doubling) == After(Backslashes(n) + [c], Parse(rest, true, doubling))
  {
    var m := if c == '"' then 2 * n + 1 else n;
    LeadingIs(m, c, rest);
    PartsAt(m, c, rest);
    if c == '"' {
      assert m % 2 == 1 && m / 2 == n;
      LiteralQuote(Backslashes(m) + [c] + rest, m, doubling);
    } else {
      Ordinary(Backslashes(m) + [c] + rest, m, doubling);
    }
  }

  lemma PathParts(s: string, n: nat)
    requires s != ""
    ensures Backslashes(n) + [s[0]] + s[1..] == Backslashes(n) + s
    ensures s[0] == '\\' ==> Backslashes(n + 1) + s[1..] == Backslashes(n) + s
    ensures Backslashes(0) + s[1..] == s[1..]
  {
  }

  /** Inside the quotes the runtime reads back the pending backslashes and the rest of the path. */
  lemma {:induction false} QuotedRoundTrip(s: string, n: nat, suffix: string, doubling: bool)
    requires doubling ==> suffix == "" || suffix[0] != '"'
    ensures Parse(Quoted(s, n) + (['"'] + suffix), true, doubling)
        == After(Backslashes(n) + s, Parse(suffix, false, doubling))
    decreases |s|
  {
    var tail := ['"'] + suffix;
    if s == "" {
      EndRoundTrip(n, suffix, doubling);
      assert Backslashes(n) + s == Backslashes(n);
      assert Quoted(s, n) + tail == Backslashes(2 * n) + ['"'] + suffix;
    } else if s[0] == '\\' {
      QuotedRoundTrip(s[1..], n + 1, suffix, doubling);
      PathParts(s, n);
    } else {
      QuotedRoundTrip(s[1..], 0, suffix, doubling);
      FirstRead(s, n, tail, doubling);
      PathParts(s, n);
      AfterBoth(Backslashes(n) + [s[0]], s[1..], Parse(suffix, false, doubling));
    }
  }

  lemma FirstRead(s: string, n: nat, tail: string, doubling: bool)
    requires s != "" && s[0] != '\\'
    ensures Parse(Quoted(s, n) + tail, true, doubling)
        == After(Backslashes(n) + [s[0]], Parse(Quoted(s[1..], 0) + tail, true, doubling))
  {
    CharacterRoundTrip(s[0], n, Quoted(s[1..], 0) + tail, doubling);
    QuotedParts(s, n, tail);
  }

  lemma Opening(rest: string, doubling: bool)
    ensures Parse(['"'] + rest, false, doubling) == After("", Parse(rest, true, doubling))
  {
    var s := ['"'] + rest;
    assert Leading(s) == 0;
    assert s[1..] == rest;
  }

  /**
    The runtime's argument starts with the path and goes on exactly as it would after it; only a
    quote directly after the printed text, under the doubling rule, could change that.
   */
  lemma WindowsRoundTrip(path: string, suffix: string, doubling: bool)
    requires doubling ==> suffix == "" || suffix[0] != '"'
    ensures Parse(WindowsArgument(path) + suffix, false, doubling) == After(path, Parse(suffix, false, doubling))
  {
    var rest := Quoted(path, 0) + (['"'] + suffix);
    assert WindowsArgument(path) + suffix == ['"'] + rest;
    Opening(rest, doubling);
    QuotedRoundTrip(path, 0, suffix, doubling);
    var p := Parse(suffix, false, doubling);
    AfterBoth("", Backslashes(0) + path, p);
    assert "" + (Backslashes(0) + path) == path;
  }

  /** At the end of the line or before a separator the argument is the path. */
  lemma SeparatedRoundTrip(path: string, suffix: string, doubling: bool)
    requires suffix == "" || Separates(suffix[0])
    ensures Parse(WindowsArgument(path) + suffix, false, doubling) == Parsed(path, suffix)
  {
    WindowsRoundTrip(path, suffix, doubling);
    assert Leading(suffix) == 0;
    assert suffix[0..] == suffix;
    assert path + Backslashes(0) == path;
  }
}
