/**
  The whole command line of a service definition, read back by a reader of its own: the words of
  the systemd line, and the strings of the property list's array.
 */
module ServiceArguments {
  import opened Prelude
  import opened Text
  import opened Quoting
  import opened ServiceDefinition

  /** What the gateway is started with. */
  function Command(executable: string, config: string): seq<string> { [executable, "--config", config, "run"] }

  // ---------------------------------------------------------------- words of a systemd line

  datatype Quote = Unclosed | Closed(word: string, rest: string)

  function Letter(c: char, q: Quote): (r: Quote)
    ensures r.Closed? <==> q.Closed?
    ensures r.Closed? ==> r.rest == q.rest
  {
    if q.Closed? then Closed([c] + q.word, q.rest) else Unclosed
  }

  /** A quoted word and what follows its closing quote. */
  function Quoted(s: string): (r: Quote)
    ensures r.Closed? ==> |r.rest| < |s|
  {
    if s == "" then Unclosed
    else if s[0] == '"' then Closed("", s[1..])
    else if s[0] != '\\' then Letter(s[0], Quoted(s[1..]))
    else if |s| == 1 then Unclosed
    else Letter(s[1], Quoted(s[2..]))
  }

  /** Length of the word that `s` begins with. */
  function WordEnd(s: string): (n: nat)
    ensures n <= |s|
  {
    if s == "" || s[0] == ' ' then 0 else 1 + WordEnd(s[1..])
  }

  function Before(word: string, more: Option<seq<string>>): Option<seq<string>> {
    if more.Some? then Some([word] + more.value) else None
  }

  /** The words of a line: bare, or quoted with a doubled percent sign for a single one. */
  function Words(s: string): Option<seq<string>>
    decreases |s|
  {
    if s == "" then Some([])
    else if s[0] == ' ' then Words(s[1..])
    else if s[0] == '"' then
      (match Quoted(s[1..])
       case Unclosed => None
       case Closed(word, rest) => Before(Replace(word, "%%", "%"), Words(rest)))
    else
      Before(s[..WordEnd(s)], Words(s[WordEnd(s)..]))
  }

  /** The command line that a unit file starts. */
  function UnitCommand(definition: string): Option<seq<string>> {
    match FindPrefixed(Lines(definition), EXEC_START)
    case None => None
    case Some(line) => Words(line)
  }

  lemma {:induction false} QuotedRead(s: string, rest: string)
    ensures Quoted(Backslashed(s) + "\"" + rest) == Closed(s, rest)
    decreases |s|
  {
    var b := Backslashed(s) + "\"" + rest;
    if s == "" {
      assert b[1..] == rest;
    } else {
      QuotedRead(s[1..], rest);
      LetterRead(s, rest);
      assert [s[0]] + s[1..] == s;
    }
  }

  lemma LetterRead(s: string, rest: string)
    requires s != ""
    ensures Quoted(Backslashed(s) + "\"" + rest) == Letter(s[0], Quoted(Backslashed(s[1..]) + "\"" + rest))
  {
    var b, more := Backslashed(s) + "\"" + rest, Backslashed(s[1..]) + "\"" + rest;
    if s[0] == '\\' || s[0] == '"' {
      assert b[2..] == more;
    } else {
      assert b[1..] == more;
    }
  }

  /** Cut anywhere before its closing quote, a quoted word is not closed. */
  lemma {:induction false} CutIsUnclosed(s: string, n: nat)
    requires n <= |Backslashed(s)|
    ensures Quoted(Backslashed(s)[..n]) == Unclosed
    decreases |s|
  {
    var b := Backslashed(s);
    if s != "" && n != 0 {
      var cut := b[..n];
      if s[0] == '\\' || s[0] == '"' {
        if n > 1 {
          assert cut[2..] == Backslashed(s[1..])[..n - 2];
          CutIsUnclosed(s[1..], n - 2);
        }
      } else {
        assert cut[1..] == Backslashed(s[1..])[..n - 1];
        CutIsUnclosed(s[1..], n - 1);
      }
    }
  }

  lemma QuotedWordRead(path: string, rest: string)
    ensures Words(SystemdArg(path) + rest) == Before(path, Words(rest))
  {
    var s := SystemdArg(path) + rest;
    assert s[1..] == Backslashed(Doubled(path)) + "\"" + rest;
    QuotedRead(Doubled(path), rest);
    PercentRoundTrip(path);
  }

  lemma CutWordRefused(path: string, n: nat)
    requires n <= |Backslashed(Doubled(path))|
    ensures Words("\"" + Backslashed(Doubled(path))[..n]) == None
  {
    var s := "\"" + Backslashed(Doubled(path))[..n];
    assert s[1..] == Backslashed(Doubled(path))[..n];
    CutIsUnclosed(Doubled(path), n);
  }

  lemma BlankIsSkipped(rest: string)
    ensures Words(" " + rest) == Words(rest)
  {
    assert (" " + rest)[1..] == rest;
  }

  lemma {:induction false} WordEndIs(word: string, rest: string)
    requires ' ' !in word && (rest == "" || rest[0] == ' ')
    ensures WordEnd(word + rest) == |word|
    decreases |word|
  {
    if word == "" {
      assert word + rest == rest;
    } else {
      assert (word + rest)[1..] == word[1..] + rest;
      WordEndIs(word[1..], rest);
    }
  }

  lemma BareWordRead(word: string, rest: string)
    requires word != "" && word[0] != '"' && ' ' !in word && (rest == "" || rest[0] == ' ')
    ensures Words(word + rest) == Before(word, Words(rest))
  {
    WordEndIs(word, rest);
    assert (word + rest)[..|word|] == word && (word + rest)[|word|..] == rest;
  }

  // ---------------------------------------------------------------- the systemd line

  /** The line between the executable and the configuration path. */
  lemma OptionRead(rest: string)
    ensures Words(" --config " + rest) == Before("--config", Words(rest))
  {
    assert " --config " + rest == " " + ("--config" + (" " + rest));
    BlankIsSkipped("--config" + (" " + rest));
    BareWordRead("--config", " " + rest);
    BlankIsSkipped(rest);
  }

  lemma RunRead()
    ensures Words(" run") == Some(["run"])
  {
    assert " run" == " " + "run" && "run" + "" == "run";
    BlankIsSkipped("run");
    BareWordRead("run", "");
    assert ["run"] + [] == ["run"];
  }

  function ExecText(executable: string, config: string): string {
    SystemdArg(executable) + (" --config " + (SystemdArg(config) + " run"))
  }

  lemma ExecTextRead(executable: string, config: string)
    ensures Words(ExecText(executable, config)) == Some(Command(executable, config))
  {
    QuotedWordRead(executable, " --config " + (SystemdArg(config) + " run"));
    OptionRead(SystemdArg(config) + " run");
    QuotedWordRead(config, " run");
    RunRead();
    assert [executable] + (["--config"] + ([config] + ["run"])) == Command(executable, config);
  }

  const AFTER_RUN: string := "Restart=no\n\n[Install]\nWantedBy=default.target\n"

  lemma BodyIsLine(executable: string, config: string)
    ensures SystemdArg(executable) + LinuxTail(config) == ExecText(executable, config) + "\n" + AFTER_RUN
  {
    assert " run\n" == " run" + "\n";
  }

  lemma PrintedNewlines(path: string)
    ensures '\n' in SystemdArg(path) <==> '\n' in path
  {
    DoubledNewlines(path);
    BackslashedNewlines(Doubled(path));
  }

  lemma WholeLine(executable: string, config: string)
    requires '\n' !in executable && '\n' !in config
    ensures var body := SystemdArg(executable) + LinuxTail(config);
      WithoutReturn(body[..LineEnd(body)]) == ExecText(executable, config)
  {
    var text := ExecText(executable, config);
    PrintedNewlines(executable);
    PrintedNewlines(config);
    BodyIsLine(executable, config);
    LineEndIs(text, AFTER_RUN);
    assert (text + "\n" + AFTER_RUN)[..|text|] == text;
    assert text[|text| - 1] == 'n';
  }

  /** `line` is `front` and the printed path up to some place before its closing quote. */
  ghost predicate CutAt(line: string, front: string, path: string, k: int) {
    0 <= k <= |Backslashed(Doubled(path))| && line == front + ("\"" + Backslashed(Doubled(path))[..k])
  }

  /** The line is cut inside the argument that holds the newline. */
  lemma CutInside(front: string, path: string, rest: string)
    requires '\n' !in front && '\n' in path
    ensures var body := front + (SystemdArg(path) + rest);
      exists k :: CutAt(WithoutReturn(body[..LineEnd(body)]), front, path, k)
  {
    var b := Backslashed(Doubled(path));
    var body := front + (SystemdArg(path) + rest);
    PrintedNewlines(path);
    PassesBreak(front, SystemdArg(path) + rest);
    assert body == (front + SystemdArg(path)) + rest;
    StopsWithin(front + SystemdArg(path), rest);
    var n := LineEnd(body);
    assert body[|front|] == '"';
    assert n > |front|;
    var line := WithoutReturn(body[..n]);
    var k := |line| - |front| - 1;
    assert k >= 0;
    assert line == front + ("\"" + b[..k]);
    assert CutAt(line, front, path, k);
  }

  lemma ConfigCutRefused(executable: string, config: string, k: nat)
    requires k <= |Backslashed(Doubled(config))|
    ensures Words(SystemdArg(executable) + " --config " + ("\"" + Backslashed(Doubled(config))[..k])) == None
  {
    var cut := "\"" + Backslashed(Doubled(config))[..k];
    assert SystemdArg(executable) + " --config " + cut == SystemdArg(executable) + (" --config " + cut);
    QuotedWordRead(executable, " --config " + cut);
    OptionRead(cut);
    CutWordRefused(config, k);
  }

  lemma ExecutableCut(executable: string, config: string)
    requires '\n' in executable
    ensures var body := SystemdArg(executable) + LinuxTail(config);
      Words(WithoutReturn(body[..LineEnd(body)])) == None
  {
    CutInside("", executable, LinuxTail(config));
    var body := "" + (SystemdArg(executable) + LinuxTail(config));
    assert body == SystemdArg(executable) + LinuxTail(config);
    var b := Backslashed(Doubled(executable));
    var k :| CutAt(WithoutReturn(body[..LineEnd(body)]), "", executable, k);
    assert "" + ("\"" + b[..k]) == "\"" + b[..k];
    CutWordRefused(executable, k);
  }

  lemma ConfigCut(executable: string, config: string)
    requires '\n' !in executable && '\n' in config
    ensures var body := SystemdArg(executable) + LinuxTail(config);
      Words(WithoutReturn(body[..LineEnd(body)])) == None
  {
    var body := SystemdArg(executable) + LinuxTail(config);
    ConfigCutAt(executable, config);
    var k :| CutAt(WithoutReturn(body[..LineEnd(body)]), SystemdArg(executable) + " --config ", config, k);
    ConfigCutRefused(executable, config, k);
  }

  lemma ConfigCutAt(executable: string, config: string)
    requires '\n' !in executable && '\n' in config
    ensures var body := SystemdArg(executable) + LinuxTail(config);
      exists k :: CutAt(WithoutReturn(body[..LineEnd(body)]), SystemdArg(executable) + " --config ", config, k)
  {
    var front := SystemdArg(executable) + " --config ";
    PrintedNewlines(executable);
    CutInside(front, config, " run\n" + AFTER_RUN);
    BodySplits(executable, config);
  }

  lemma BodySplits(executable: string, config: string)
    ensures SystemdArg(executable) + LinuxTail(config)
         == SystemdArg(executable) + " --config " + (SystemdArg(config) + (" run\n" + AFTER_RUN))
  {}

  lemma UnitLine(unit: string, executable: string, config: string)
    requires '\n' !in unit
    ensures var body := SystemdArg(executable) + LinuxTail(config);
      UnitCommand(LinuxDefinition(unit, executable, config)) == Words(WithoutReturn(body[..LineEnd(body)]))
  {
    LinuxHeadPassed(unit);
    TailHasNewline(config);
    LineAfterHead(LinuxHead(unit), SystemdArg(executable) + LinuxTail(config));
  }

  /** A unit file starts the four words it was made for exactly when neither path has a newline. */
  lemma LinuxCommand(unit: string, executable: string, config: string)
    requires '\n' !in unit
    ensures UnitCommand(LinuxDefinition(unit, executable, config))
         == if '\n' in executable || '\n' in config then None else Some(Command(executable, config))
  {
    UnitLine(unit, executable, config);
    if '\n' in executable {
      ExecutableCut(executable, config);
    } else if '\n' in config {
      ConfigCut(executable, config);
    } else {
      WholeLine(executable, config);
      ExecTextRead(executable, config);
    }
  }

  // ---------------------------------------------------------------- strings of an array

  /** Every string element of a text, unescaped. */
  function StringsOf(s: string): seq<string>
    decreases |s|
  {
    match SplitOnce(s, "<" + "string>")
    case Absent => []
    case Found(_, after) =>
      match SplitOnce(after, "<" + "/string>")
      case Absent => []
      case Found(encoded, rest) => [XmlUnescape(encoded)] + StringsOf(rest)
  }

  /** The strings of the array under the key of the program's arguments. */
  function AgentCommand(definition: string): Option<seq<string>> {
    match SplitOnce(definition, "<" + PROGRAM_ARGUMENTS)
    case Absent => None
    case Found(_, arguments) =>
      match SplitOnce(arguments, "<" + "/array>")
      case Absent => None
      case Found(inside, _) => Some(StringsOf(inside))
  }

  function Element(value: string): seq<string> { ["string>" + Xml(value), "/string>\n"] }

  function Elements(values: seq<string>): seq<string> {
    if values == [] then [] else Element(values[0]) + Elements(values[1..])
  }

  lemma ElementText(value: string, rest: string)
    ensures Tags(Element(value)) + rest == ("<" + "string>") + (Xml(value) + ("<" + "/string>") + ("\n" + rest))
  {
    var e := Element(value);
    assert e[1..] == ["/string>\n"] && e[1..][1..] == [];
    assert Tags(e[1..]) == "<" + "/string>\n" + "";
  }

  lemma {:induction false} TagsOfBoth(a: seq<string>, b: seq<string>)
    ensures Tags(a + b) == Tags(a) + Tags(b)
    decreases |a|
  {
    if a == [] {
      assert a + b == b;
    } else {
      assert (a + b)[1..] == a[1..] + b;
      TagsOfBoth(a[1..], b);
    }
  }

  lemma NoStrings(plain: string, bodies: seq<string>)
    requires '<' !in plain && AllForeign(bodies, "string>")
    ensures StringsOf(plain + Tags(bodies)) == []
  {
    var mark := "<" + "string>";
    PlainIsSkipped(plain, mark, Tags(bodies));
    TagsAreSkipped(bodies, "string>", "");
    assert Tags(bodies) + "" == Tags(bodies);
    assert SplitOnce("", mark) == Absent;
  }

  /** One element in front gives its value. */
  lemma OneString(plain: string, bodies: seq<string>, value: string, rest: string)
    requires '<' !in plain && AllForeign(bodies, "string>")
    ensures StringsOf(plain + Tags(bodies) + (Tags(Element(value)) + rest)) == [value] + StringsOf("\n" + rest)
  {
    var s := plain + Tags(bodies) + (Tags(Element(value)) + rest);
    var after := Xml(value) + ("<" + "/string>") + ("\n" + rest);
    ElementText(value, rest);
    assert s == plain + Tags(bodies) + ("<" + "string>") + after;
    FirstTag(plain, bodies, "string>", after);
    ElementRead(value, "/string>", "\n" + rest);
    XmlRoundTrip(value);
  }

  /** The strings written are the strings read, all of them and in order. */
  lemma {:induction false} StringsRead(plain: string, bodies: seq<string>, values: seq<string>)
    requires '<' !in plain && AllForeign(bodies, "string>")
    ensures StringsOf(plain + Tags(bodies) + Tags(Elements(values))) == values
    decreases |values|
  {
    if values == [] {
      assert plain + Tags(bodies) + "" == plain + Tags(bodies);
      NoStrings(plain, bodies);
    } else {
      var rest := Tags(Elements(values[1..]));
      TagsOfBoth(Element(values[0]), Elements(values[1..]));
      OneString(plain, bodies, values[0], rest);
      assert "\n" + Tags([]) == "\n";
      StringsRead("\n", [], values[1..]);
      assert [values[0]] + values[1..] == values;
    }
  }

  lemma {:induction false} ElementsForeign(values: seq<string>)
    ensures AllForeign(Elements(values), "/array>")
    decreases |values|
  {
    if values != [] {
      ElementForeign(values[0]);
      ElementsForeign(values[1..]);
      AppendForeign(Element(values[0]), Elements(values[1..]), "/array>");
    }
  }

  lemma ElementForeign(value: string)
    ensures AllForeign(Element(value), "/array>")
  {
    XmlHasNoTags(value);
    var e := Element(value);
    StartsElsewhere(e[0], "/array>");
    assert e[1][1] != "/array>"[1];
  }

  // ---------------------------------------------------------------- the property list

  lemma {:induction false} PlainXml(s: string)
    requires forall i :: 0 <= i < |s| ==> s[i] !in SPECIAL
    ensures Xml(s) == s
    decreases |s|
  {
    if s != "" { PlainXml(s[1..]); }
  }

  function PlistEnd(): string { "\n" + Tags(AFTER_ARRAY) + Tags(["/dict>\n", "/plist>\n"]) }

  /** The three elements after the executable. */
  lemma TailElements(config: string)
    ensures PlistTail(config) == "\n" + Tags(Elements(["--config", config, "run"])) + ("<" + "/array>") + PlistEnd()
  {
    MiddleElements(config);
    ArrayClosed();
  }

  lemma MiddleElements(config: string)
    ensures Elements(["--config", config, "run"])
         == ["string>--config", "/string>\n", "string>" + Xml(config), "/string>\n", "string>run", "/string>\n"]
  {
    OptionXml();
    RunXml();
    LiteralBodies();
    ThreeElements("--config", config, "run");
  }

  lemma OptionXml()
    ensures Xml("--config") == "--config"
  {
    var option := "--config";
    assert forall i :: 0 <= i < |option| ==> option[i] == '-' || 'a' <= option[i] <= 'z';
    LetterXml(option);
  }

  lemma LetterXml(s: string)
    requires forall i :: 0 <= i < |s| ==> s[i] == '-' || 'a' <= s[i] <= 'z'
    ensures Xml(s) == s
  {
    PlainXml(s);
  }

  lemma RunXml()
    ensures Xml("run") == "run"
  {
    PlainXml("run");
  }

  lemma LiteralBodies()
    ensures "string>" + "--config" == "string>--config" && "string>" + "run" == "string>run"
  {}

  lemma ArrayClosed()
    ensures Tags(["/array>\n"] + AFTER_ARRAY) == "<" + "/array>" + ("\n" + Tags(AFTER_ARRAY))
  {
    TagsOfBoth(["/array>\n"], AFTER_ARRAY);
    assert Tags(["/array>\n"]) == "<" + "/array>" + "\n";
  }

  lemma ThreeElements(a: string, b: string, c: string)
    ensures Elements([a, b, c])
         == ["string>" + Xml(a), "/string>\n", "string>" + Xml(b), "/string>\n", "string>" + Xml(c), "/string>\n"]
  {
    assert [a, b, c][1..] == [b, c] && [b, c][1..] == [c];
    assert Elements([c]) == Element(c) + Elements([]);
  }

  lemma ArgumentsAsTags(executable: string, config: string)
    ensures PlistArguments(executable, config)
         == "\n" + Tags(["array>\n"] + Elements(Command(executable, config))) + ("<" + "/array>") + PlistEnd()
  {
    var more, end := Elements(["--config", config, "run"]), ("<" + "/array>") + PlistEnd();
    TailElements(config);
    CommandElements(executable, config);
    ArrayAsTags(executable, more, end);
    Regrouped("\n", Tags(more), "<" + "/array>", PlistEnd());
    Regrouped("\n", Tags(["array>\n"] + (Element(executable) + more)), "<" + "/array>", PlistEnd());
  }

  lemma CommandElements(executable: string, config: string)
    ensures Elements(Command(executable, config)) == Element(executable) + Elements(["--config", config, "run"])
  {
    assert Command(executable, config)[1..] == ["--config", config, "run"];
  }

  lemma Regrouped(a: string, b: string, c: string, d: string)
    ensures a + b + c + d == a + (b + (c + d)) && a + b + c + d == a + b + (c + d)
  {}

  lemma ArrayAsTags(executable: string, more: seq<string>, end: string)
    ensures "\n" + Tags(["array>\n"]) + ("<" + "string>")
            + (Xml(executable) + ("<" + "/string>") + ("\n" + (Tags(more) + end)))
         == "\n" + Tags(["array>\n"] + (Element(executable) + more)) + end
  {
    ElementText(executable, Tags(more) + end);
    TagsOfBoth(["array>\n"], Element(executable) + more);
    TagsOfBoth(Element(executable), more);
  }

  lemma InsideRead(values: seq<string>)
    ensures StringsOf("\n" + Tags(["array>\n"] + Elements(values))) == values
  {
    StartsElsewhere("array>\n", "string>");
    TagsOfBoth(["array>\n"], Elements(values));
    assert "\n" + Tags(["array>\n"] + Elements(values)) == "\n" + Tags(["array>\n"]) + Tags(Elements(values));
    StringsRead("\n", ["array>\n"], values);
  }

  /** A property list starts exactly the four strings it was made for, whatever the label and paths. */
  lemma MacosCommand(unit: string, executable: string, config: string)
    ensures AgentCommand(MacosDefinition(unit, executable, config)) == Some(Command(executable, config))
  {
    KeyFound(unit, executable, config);
    ArgumentsAsTags(executable, config);
    ArrayFound(Command(executable, config), PlistEnd());
    InsideRead(Command(executable, config));
  }

  lemma KeyFound(unit: string, executable: string, config: string)
    ensures SplitOnce(MacosDefinition(unit, executable, config), "<" + PROGRAM_ARGUMENTS)
         == Found(Tags(PLIST_HEAD + PlistOwner(unit)), PlistArguments(executable, config))
  {
    var bodies := PLIST_HEAD + PlistOwner(unit);
    PlistHeadForeign();
    PlistOwnerForeign(unit);
    AppendForeign(PLIST_HEAD, PlistOwner(unit), PROGRAM_ARGUMENTS);
    FirstTag("", bodies, PROGRAM_ARGUMENTS, PlistArguments(executable, config));
    assert "" + Tags(bodies) == Tags(bodies);
  }

  lemma ArrayFound(values: seq<string>, rest: string)
    ensures var bodies := ["array>\n"] + Elements(values);
      SplitOnce("\n" + Tags(bodies) + ("<" + "/array>") + rest, "<" + "/array>") == Found("\n" + Tags(bodies), rest)
  {
    ElementsForeign(values);
    StartsElsewhere("array>\n", "/array>");
    AppendForeign(["array>\n"], Elements(values), "/array>");
    FirstTag("\n", ["array>\n"] + Elements(values), "/array>", rest);
  }
}
