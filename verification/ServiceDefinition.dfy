/** The per-platform service definitions, and the executable read back out of them. */
module ServiceDefinition {
  import opened Prelude
  import opened Text
  import opened Quoting
  import CommandLine

  datatype Platform = Macos | Linux | Windows

  const PROGRAM_ARGUMENTS: string := "key>ProgramArguments</key>"
  const EXEC_START: string := "ExecStart=:"

  function RegisteredExecutable(platform: Platform, definition: string): Option<string> {
    match platform
    case Macos =>
      (match SplitOnce(definition, "<" + PROGRAM_ARGUMENTS)
       case Absent => None
       case Found(_, arguments) => Unescaped(Between(arguments, "<" + "string>", "<" + "/string>")))
    case Windows => Unescaped(Between(definition, "<" + "Command>", "<" + "/Command>"))
    case Linux =>
      match FindPrefixed(Lines(definition), EXEC_START)
      case None => None
      case Some(line) => ParseFirstArgument(line)
  }

  function Unescaped(encoded: Option<string>): Option<string> {
    match encoded
    case None => None
    case Some(s) => Some(XmlUnescape(s))
  }

  // ---------------------------------------------------------------- macOS

  const DOCTYPE: string :=
    "!DOCTYPE plist PUBLIC " + "\"-//Apple//DTD " + "PLIST 1.0//EN\" " + "\"http://www.apple.com"
    + "/DTDs/PropertyList" + "-1.0.dtd\">\n"

  const PLIST_HEAD: seq<string> :=
    ["?xml version=\"1.0\" encoding=\"UTF-8\"?>\n", DOCTYPE, "plist version=\"1.0\">\n", "dict>\n"]

  function PlistOwner(unit: string): seq<string> {
    ["key>Label", "/key>\n", "string>" + Xml(unit), "/string>\n",
     "key>LLMGWOwner", "/key>\n", "string>llmgw-owned:" + Xml(unit), "/string>\n"]
  }

  const AFTER_ARRAY: seq<string> :=
    ["key>RunAtLoad", "/key>\n", "true/>\n", "key>KeepAlive", "/key>\n", "false/>\n"]

  function PlistTail(config: string): string {
    "\n"
    + Tags(["string>--config", "/string>\n", "string>" + Xml(config), "/string>\n", "string>run", "/string>\n"])
    + Tags(["/array>\n"] + AFTER_ARRAY)
    + Tags(["/dict>\n", "/plist>\n"])
  }

  function PlistArguments(executable: string, config: string): string {
    "\n" + Tags(["array>\n"]) + ("<" + "string>") + (Xml(executable) + ("<" + "/string>") + PlistTail(config))
  }

  function MacosDefinition(unit: string, executable: string, config: string): string {
    Tags(PLIST_HEAD + PlistOwner(unit)) + ("<" + PROGRAM_ARGUMENTS) + PlistArguments(executable, config)
  }

  // ---------------------------------------------------------------- Windows

  const TASK_NAMESPACE: string :=
    "xmlns=\"http://" + "schemas.microsoft.com" + "/windows/2004/02" + "/mit/task\">\n"

  const TASK_HEAD: seq<string> :=
    ["?xml version=\"1.0\" " + "encoding=\"UTF-16\"?>\n",
     "Task version=\"1.4\" " + TASK_NAMESPACE]

  function TaskOwner(unit: string): seq<string> {
    ["RegistrationInfo>", "Description>llmgw-owned:" + Xml(unit), "/Description>", "URI>\\llmgw\\" + Xml(unit), "/URI>",
     "/RegistrationInfo>\n"]
  }

  function TaskTrigger(user: string): seq<string> {
    ["Triggers>", "LogonTrigger>", "Enabled>true", "/Enabled>", "UserId>" + Xml(user), "/UserId>", "/LogonTrigger>",
     "/Triggers>\n"]
  }

  function TaskPrincipal(user: string): seq<string> {
    ["Principals>", "Principal id=\"CurrentUser\">", "UserId>" + Xml(user), "/UserId>"]
  }

  const TASK_LOGON: seq<string> :=
    ["LogonType>InteractiveToken", "/LogonType>", "RunLevel>LeastPrivilege", "/RunLevel>", "/Principal>",
     "/Principals>\n"]

  const TASK_INSTANCES: seq<string> :=
    ["Settings>\n", "MultipleInstances" + "Policy>IgnoreNew", "/MultipleInstances" + "Policy>\n"]

  const TASK_POWER: seq<string> := ["DisallowStartIfOnBatteries>false", "/DisallowStartIfOnBatteries>\n"]

  const TASK_STOP: seq<string> := ["StopIfGoingOnBatteries>false", "/StopIfGoingOnBatteries>\n"]

  const TASK_IDLE: seq<string> :=
    ["RunOnlyIf" + "NetworkAvailable>false", "/RunOnlyIf" + "NetworkAvailable>\n",
     "RunOnlyIfIdle>false", "/RunOnlyIfIdle>\n", "WakeToRun>false", "/WakeToRun>\n"]

  const TASK_LIMIT: seq<string> :=
    ["Enabled>true", "/Enabled>\n", "Hidden>false", "/Hidden>\n", "ExecutionTimeLimit>PT0S", "/ExecutionTimeLimit>\n"]

  const TASK_ACTION: seq<string> := ["/Settings>\n", "Actions Context=\"CurrentUser\">", "Exec>"]

  function TaskArguments(config: string): string { "--config " + CommandLine.WindowsArgument(config) + " run" }

  function TaskTail(config: string): string {
    Tags(["Arguments>" + Xml(TaskArguments(config)), "/Arguments>", "/Exec>", "/Actions>\n", "/Task>\n"])
  }

  function TaskBodies(unit: string, user: string): seq<string> {
    TASK_HEAD + TaskOwner(unit) + TaskTrigger(user) + TaskPrincipal(user)
    + TASK_LOGON + TASK_INSTANCES + TASK_POWER + TASK_STOP + TASK_IDLE + TASK_LIMIT + TASK_ACTION
  }

  function WindowsDefinition(unit: string, executable: string, config: string, user: string): string {
    Tags(TaskBodies(unit, user)) + ("<" + "Command>")
    + (Xml(executable) + ("<" + "/Command>") + TaskTail(config))
  }

  // ---------------------------------------------------------------- Linux

  function LinuxHead(unit: string): seq<string> {
    ["# llmgw-owned:" + unit, "[Unit]", "Description=llmgw user gateway (" + unit + ")", "", "[Service]", "Type=simple"]
  }

  function LinuxTail(config: string): string {
    " --config " + SystemdArg(config) + " run\n" + "Restart=no\n\n[Install]\nWantedBy=default.target\n"
  }

  function LinuxDefinition(unit: string, executable: string, config: string): string {
    Unlines(LinuxHead(unit)) + (EXEC_START + (SystemdArg(executable) + LinuxTail(config)))
  }

  // ---------------------------------------------------------------- tags in front

  lemma StartsElsewhere(body: string, name: string)
    requires '<' !in body && body != "" && name != "" && body[0] != name[0]
    ensures Foreign(body, name)
  {
  }

  lemma DoctypeHasNoTag()
    ensures '<' !in DOCTYPE && DOCTYPE[0] == '!'
  {
    assert '<' !in "!DOCTYPE plist PUBLIC " && '<' !in "\"-//Apple//DTD " && '<' !in "PLIST 1.0//EN\" ";
    assert '<' !in "\"http://www.apple.com" && '<' !in "/DTDs/PropertyList" && '<' !in "-1.0.dtd\">\n";
  }

  lemma PlistHeadForeign()
    ensures AllForeign(PLIST_HEAD, PROGRAM_ARGUMENTS)
  {
    DoctypeHasNoTag();
    StartsElsewhere(PLIST_HEAD[0], PROGRAM_ARGUMENTS);
    StartsElsewhere(PLIST_HEAD[1], PROGRAM_ARGUMENTS);
    StartsElsewhere(PLIST_HEAD[2], PROGRAM_ARGUMENTS);
    StartsElsewhere(PLIST_HEAD[3], PROGRAM_ARGUMENTS);
  }

  lemma PlistOwnerForeign(unit: string)
    ensures AllForeign(PlistOwner(unit), PROGRAM_ARGUMENTS)
  {
    XmlHasNoTags(unit);
    var p := PlistOwner(unit);
    assert p[0][4] != PROGRAM_ARGUMENTS[4] && p[4][4] != PROGRAM_ARGUMENTS[4];
    StartsElsewhere(p[1], PROGRAM_ARGUMENTS);
    StartsElsewhere(p[2], PROGRAM_ARGUMENTS);
    StartsElsewhere(p[6], PROGRAM_ARGUMENTS);
  }

  lemma ElementRead(text: string, close: string, rest: string)
    ensures SplitOnce(Xml(text) + ("<" + close) + rest, "<" + close) == Found(Xml(text), rest)
  {
    XmlHasNoTags(text);
    FirstTag(Xml(text), [], close, rest);
    assert Tags([]) == "";
    assert Xml(text) + Tags([]) == Xml(text);
  }

  lemma PlistArgumentsRead(executable: string, config: string)
    ensures Between(PlistArguments(executable, config), "<" + "string>", "<" + "/string>") == Some(Xml(executable))
  {
    StartsElsewhere("array>\n", "string>");
    FirstTag("\n", ["array>\n"], "string>", Xml(executable) + ("<" + "/string>") + PlistTail(config));
    ElementRead(executable, "/string>", PlistTail(config));
  }

  /** The executable comes back out of the macOS definition, for every label and path. */
  lemma MacosExecutable(unit: string, executable: string, config: string)
    ensures RegisteredExecutable(Macos, MacosDefinition(unit, executable, config)) == Some(executable)
  {
    PlistHeadForeign();
    PlistOwnerForeign(unit);
    FirstTag("", PLIST_HEAD + PlistOwner(unit), PROGRAM_ARGUMENTS, PlistArguments(executable, config));
    assert "" + Tags(PLIST_HEAD + PlistOwner(unit)) == Tags(PLIST_HEAD + PlistOwner(unit));
    PlistArgumentsRead(executable, config);
    XmlRoundTrip(executable);
  }

  // ---------------------------------------------------------------- Windows

  lemma NamespaceHasNoTag()
    ensures '<' !in TASK_NAMESPACE
  {
    assert '<' !in "xmlns=\"http://" && '<' !in "schemas.microsoft.com";
    assert '<' !in "/windows/2004/02" && '<' !in "/mit/task\">\n";
  }

  lemma TaskHeadForeign()
    ensures AllForeign(TASK_HEAD, "Command>")
  {
    NamespaceHasNoTag();
    StartsElsewhere(TASK_HEAD[0], "Command>");
    StartsElsewhere(TASK_HEAD[1], "Command>");
  }

  /** No body of `bodies` holds a tag or starts like `Command`. */
  predicate Uncommanding(bodies: seq<string>) {
    forall i :: 0 <= i < |bodies| ==> bodies[i] != "" && bodies[i][0] != 'C' && '<' !in bodies[i]
  }

  lemma UncommandingForeign(bodies: seq<string>)
    requires Uncommanding(bodies)
    ensures AllForeign(bodies, "Command>")
  {
    forall i | 0 <= i < |bodies| ensures Foreign(bodies[i], "Command>") {
      StartsElsewhere(bodies[i], "Command>");
    }
  }

  lemma TaskOwnerForeign(unit: string)
    ensures AllForeign(TaskOwner(unit), "Command>")
  {
    XmlHasNoTags(unit);
    UncommandingForeign(TaskOwner(unit));
  }

  lemma TaskTriggerForeign(user: string)
    ensures AllForeign(TaskTrigger(user), "Command>")
  {
    XmlHasNoTags(user);
    UncommandingForeign(TaskTrigger(user));
  }

  lemma TaskPrincipalForeign(user: string)
    ensures AllForeign(TaskPrincipal(user), "Command>")
  {
    XmlHasNoTags(user);
    UncommandingForeign(TaskPrincipal(user));
  }

  lemma LogonForeign()
    ensures AllForeign(TASK_LOGON, "Command>")
  {
    UncommandingForeign(TASK_LOGON);
  }

  lemma InstancesForeign()
    ensures AllForeign(TASK_INSTANCES, "Command>")
  {
    UncommandingForeign(TASK_INSTANCES);
  }

  lemma PowerForeign()
    ensures AllForeign(TASK_POWER, "Command>")
  {
    UncommandingForeign(TASK_POWER);
  }

  lemma StopForeign()
    ensures AllForeign(TASK_STOP, "Command>")
  {
    UncommandingForeign(TASK_STOP);
  }

  lemma IdleForeign()
    ensures AllForeign(TASK_IDLE, "Command>")
  {
    UncommandingForeign(TASK_IDLE);
  }

  lemma LimitForeign()
    ensures AllForeign(TASK_LIMIT, "Command>")
  {
    UncommandingForeign(TASK_LIMIT);
  }

  lemma ActionForeign()
    ensures AllForeign(TASK_ACTION, "Command>")
  {
    UncommandingForeign(TASK_ACTION);
  }

  lemma AppendForeign(a: seq<string>, b: seq<string>, name: string)
    requires AllForeign(a, name) && AllForeign(b, name)
    ensures AllForeign(a + b, name)
  {
    forall i | 0 <= i < |a + b| ensures Foreign((a + b)[i], name) {
      assert (a + b)[i] == if i < |a| then a[i] else b[i - |a|];
    }
  }

  lemma SettingsForeign()
    ensures AllForeign(TASK_LOGON, "Command>") && AllForeign(TASK_INSTANCES, "Command>")
    ensures AllForeign(TASK_POWER, "Command>")
    ensures AllForeign(TASK_STOP, "Command>") && AllForeign(TASK_IDLE, "Command>") && AllForeign(TASK_LIMIT, "Command>")
    ensures AllForeign(TASK_ACTION, "Command>")
  {
    LogonForeign();
    InstancesForeign();
    PowerForeign();
    StopForeign();
    IdleForeign();
    LimitForeign();
    ActionForeign();
  }

  lemma JoinForeign(a: seq<string>, b: seq<string>, c: seq<string>, d: seq<string>, name: string)
    requires AllForeign(a, name) && AllForeign(b, name) && AllForeign(c, name) && AllForeign(d, name)
    ensures AllForeign(a + b + c + d, name)
  {
    AppendForeign(a, b, name);
    AppendForeign(a + b, c, name);
    AppendForeign(a + b + c, d, name);
  }

  lemma TaskBodiesForeign(unit: string, user: string)
    ensures AllForeign(TaskBodies(unit, user), "Command>")
  {
    TaskHeadForeign();
    TaskOwnerForeign(unit);
    TaskTriggerForeign(user);
    TaskPrincipalForeign(user);
    SettingsForeign();
    var front := TASK_HEAD + TaskOwner(unit) + TaskTrigger(user) + TaskPrincipal(user);
    JoinForeign(TASK_HEAD, TaskOwner(unit), TaskTrigger(user), TaskPrincipal(user), "Command>");
    var middle := front + TASK_LOGON + TASK_INSTANCES + TASK_POWER;
    JoinForeign(front, TASK_LOGON, TASK_INSTANCES, TASK_POWER, "Command>");
    var back := middle + TASK_STOP + TASK_IDLE + TASK_LIMIT;
    JoinForeign(middle, TASK_STOP, TASK_IDLE, TASK_LIMIT, "Command>");
    AppendForeign(back, TASK_ACTION, "Command>");
  }

  /** The element that follows foreign tags gives its text back. */
  lemma ElementAfterTags(bodies: seq<string>, name: string, text: string, close: string, rest: string)
    requires AllForeign(bodies, name)
    ensures var inside := Xml(text) + ("<" + close) + rest;
      Unescaped(Between(Tags(bodies) + ("<" + name) + inside, "<" + name, "<" + close)) == Some(text)
  {
    FirstTag("", bodies, name, Xml(text) + ("<" + close) + rest);
    assert "" + Tags(bodies) == Tags(bodies);
    ElementRead(text, close, rest);
    XmlRoundTrip(text);
  }

  /** The executable comes back out of the Windows definition, for every label, path and user. */
  lemma WindowsExecutable(unit: string, executable: string, config: string, user: string)
    ensures RegisteredExecutable(Windows, WindowsDefinition(unit, executable, config, user)) == Some(executable)
  {
    TaskBodiesForeign(unit, user);
    ElementAfterTags(TaskBodies(unit, user), "Command>", executable, "/Command>", TaskTail(config));
  }

  /** After the option name, the command line of the task gives the configuration path. */
  lemma TaskArgumentsRead(config: string, doubling: bool)
    ensures XmlUnescape(Xml(TaskArguments(config))) == TaskArguments(config)
    ensures CommandLine.Parse(TaskArguments(config)[|"--config "|..], false, doubling)
        == CommandLine.Parsed(config, " run")
  {
    XmlRoundTrip(TaskArguments(config));
    assert TaskArguments(config)[|"--config "|..] == CommandLine.WindowsArgument(config) + " run";
    CommandLine.SeparatedRoundTrip(config, " run", doubling);
  }

  // ---------------------------------------------------------------- Linux

  lemma LinuxHeadPassed(unit: string)
    requires '\n' !in unit
    ensures forall i :: 0 <= i < |LinuxHead(unit)| ==> Passed(LinuxHead(unit)[i], EXEC_START)
  {
  }

  lemma ExecLine(unit: string, executable: string, config: string)
    requires '\n' !in unit
    ensures var body := SystemdArg(executable) + LinuxTail(config);
      RegisteredExecutable(Linux, LinuxDefinition(unit, executable, config))
      == ParseFirstArgument(WithoutReturn(body[..LineEnd(body)]))
  {
    var body := SystemdArg(executable) + LinuxTail(config);
    LinuxHeadPassed(unit);
    TailHasNewline(config);
    LineAfterHead(LinuxHead(unit), body);
  }

  lemma LineAfterHead(head: seq<string>, body: string)
    requires (forall i :: 0 <= i < |head| ==> Passed(head[i], EXEC_START)) && '\n' in body
    ensures FindPrefixed(Lines(Unlines(head) + (EXEC_START + body)), EXEC_START)
        == Some(WithoutReturn(body[..LineEnd(body)]))
  {
    OtherLinesArePassed(head, EXEC_START, EXEC_START + body);
    OwnLineIsFound(EXEC_START, body);
  }

  lemma TailHasNewline(config: string)
    ensures '\n' in LinuxTail(config) && LinuxTail(config)[0] == ' '
  {
    assert " run\n"[4] == '\n';
  }

  lemma {:induction false} DoubledNewlines(s: string)
    ensures '\n' in Doubled(s) <==> '\n' in s
    decreases |s|
  {
    if s != "" {
      DoubledNewlines(s[1..]);
      assert s == [s[0]] + s[1..];
    }
  }

  lemma {:induction false} BackslashedNewlines(s: string)
    ensures '\n' in Backslashed(s) <==> '\n' in s
    decreases |s|
  {
    if s != "" {
      BackslashedNewlines(s[1..]);
      assert s == [s[0]] + s[1..];
    }
  }

  lemma PassesBreak(a: string, b: string)
    requires '\n' !in a
    ensures LineEnd(a + b) >= |a|
  {
    assert forall i :: 0 <= i < |a| ==> (a + b)[i] == a[i];
  }

  lemma StopsWithin(a: string, b: string)
    requires '\n' in a
    ensures LineEnd(a + b) < |a|
  {
    var n := LineEnd(a + b);
    assert forall i :: 0 <= i < n ==> (a + b)[i] == (a + b)[..n][i];
    var i :| 0 <= i < |a| && a[i] == '\n';
    assert (a + b)[i] == '\n';
  }

  /** A line that reaches past the printed argument gives the path. */
  lemma LongLineRead(executable: string, tail: string, n: nat)
    requires |SystemdArg(executable)| <= n <= |SystemdArg(executable) + tail|
    ensures ParseFirstArgument(WithoutReturn((SystemdArg(executable) + tail)[..n])) == Some(executable)
  {
    var a := SystemdArg(executable);
    var line := (a + tail)[..n];
    var suffix := tail[..n - |a|];
    assert line == a + suffix;
    assert a[|a| - 1] == '"';
    assert WithoutReturn(line) == a + WithoutReturn(suffix);
    SystemdRoundTrip(executable, WithoutReturn(suffix));
  }

  /** A line that ends inside the printed argument gives nothing. */
  lemma ShortLineRefused(executable: string, tail: string, n: nat)
    requires n < |SystemdArg(executable)|
    ensures ParseFirstArgument(WithoutReturn((SystemdArg(executable) + tail)[..n])) == None
  {
    var b := Backslashed(Doubled(executable));
    var line := WithoutReturn((SystemdArg(executable) + tail)[..n]);
    assert line == "" || line == "\"" + b[..|line| - 1];
    if line != "" {
      assert line[1..] == b[..|line| - 1];
      CutScanFails(Doubled(executable), |line| - 1);
    }
  }

  /** From the Linux definition the executable comes back exactly when its path has no newline. */
  lemma LinuxExecutable(unit: string, executable: string, config: string)
    requires '\n' !in unit
    ensures RegisteredExecutable(Linux, LinuxDefinition(unit, executable, config))
         == if '\n' in executable then None else Some(executable)
  {
    var tail := LinuxTail(config);
    ExecLine(unit, executable, config);
    DoubledNewlines(executable);
    BackslashedNewlines(Doubled(executable));
    var n := LineEnd(SystemdArg(executable) + tail);
    if '\n' in executable {
      StopsWithin(SystemdArg(executable), tail);
      ShortLineRefused(executable, tail, n);
    } else {
      PassesBreak(SystemdArg(executable), tail);
      LongLineRead(executable, tail, n);
    }
  }
}
