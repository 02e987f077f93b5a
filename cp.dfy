/** cp.go: copying a file to or from a container. The arguments say which side is
    remote; a small agent is written into the container by a shell script, and once it
    says it is listening the file travels through a port-forward. The remote session,
    the port-forward, the network and the file system are inputs. */
module Cp {
  import opened Wrappers
  import opened Strs
  import opened EcsTypes
  import opened Utils
  import opened Ecsta

  /** `CpOption`; `prepareCp` overwrites `id` with the task ID named in an argument. */
  class CpOption {
    var src: string
    var dest: string
    var port: int
    var progress: bool
    var id: string
    var container: string
    var family: Option<string>
    var service: Option<string>

    constructor (src: string, dest: string, port: int, progress: bool, id: string, container: string,
                 family: Option<string>, service: Option<string>)
      ensures this.src == src && this.dest == dest && this.port == port && this.progress == progress
      ensures this.id == id && this.container == container && this.family == family && this.service == service
    {
      this.src, this.dest, this.port, this.progress := src, dest, port, progress;
      this.id, this.container, this.family, this.service := id, container, family, service;
    }

    /** `SrcTarget`. */
    function SrcTarget(): (string, string)
      reads this
    {
      ParseCpTarget(src)
    }

    /** `DestTarget`. */
    function DestTarget(): (string, string)
      reads this
    {
      ParseCpTarget(dest)
    }
  }

  /** `parseCpTarget`: "host:path" is cut at its first colon, so the path may hold
      more colons; an argument without a colon is a local path. */
  function ParseCpTarget(s: string): (r: (string, string))
    ensures ':' !in s ==> r == ("", s)
    ensures ':' in s ==> ':' !in r.0 && r.0 + ":" + r.1 == s
  {
    match IndexOf(s, ':')
    case None => ("", s)
    case Some(i) =>
      assert s == s[..i] + ":" + s[i + 1..];
      (s[..i], s[i + 1..])
  }

  /** Writing a host without a colon, a colon and a path gives both back. */
  lemma ParseCpTargetRoundTrip(host: string, path: string)
    requires ':' !in host
    ensures ParseCpTarget(host + ":" + path) == (host, path)
  {
    var s := host + ":" + path;
    assert s[|host|] == ':';
    var i := IndexOf(s, ':').value;
    assert i == |host|;
    assert s[..i] == host && s[i + 1..] == path;
  }

  /** The decision `prepareCp` takes before any AWS call: the direction, the file on
      each side and the task named on the remote side (`None` for "_" — the task is
      then found as usual). */
  datatype CpPlan = CpPlan(upload: bool, localFile: string, remoteFile: string, taskId: Option<string>)

  /** A destination ending in "/" is a directory: the source's base name is appended. */
  function ExpandDest(srcFile: string, destFile: string): (r: string)
    ensures HasSuffix(destFile, "/") ==> r == destFile + Base(srcFile)
    ensures !HasSuffix(destFile, "/") ==> r == destFile
  {
    if HasSuffix(destFile, "/") then destFile + Base(srcFile) else destFile
  }

  /** The classification of `prepareCp`: exactly one side must name a host. */
  function PlanCp(src: string, dest: string): (r: Result<CpPlan>)
    ensures var (srcHost, srcFile) := ParseCpTarget(src);
      var (destHost, destFile) := ParseCpTarget(dest);
      var dst := ExpandDest(srcFile, destFile);
      (srcHost == "" && destHost == "" ==> r == Err("either source or destination must be remote"))
      && (srcHost != "" && destHost != "" ==> r == Err("both source and destination must not be remote"))
      && (srcHost == "" && destHost != "" ==>
            r.Ok? && r.value.upload && r.value.localFile == srcFile && r.value.remoteFile == dst
            && r.value.taskId == (if destHost == "_" then None else Some(destHost)))
      && (srcHost != "" && destHost == "" ==>
            r.Ok? && !r.value.upload && r.value.localFile == dst && r.value.remoteFile == srcFile
            && r.value.taskId == (if srcHost == "_" then None else Some(srcHost)))
  {
    var (srcHost, srcFile) := ParseCpTarget(src);
    var (destHost, destFile) := ParseCpTarget(dest);
    var dst := ExpandDest(srcFile, destFile);
    if srcHost == "" && destHost == "" then Err("either source or destination must be remote")
    else if srcHost == "" then
      Ok(CpPlan(true, srcFile, dst, if destHost == "_" then None else Some(destHost)))
    else if destHost == "" then
      Ok(CpPlan(false, dst, srcFile, if srcHost == "_" then None else Some(srcHost)))
    else Err("both source and destination must not be remote")
  }

  /** The last `/`-separated piece of a text ending in "/" followed by a name
      without slashes is that name. */
  lemma {:induction false} LastPieceAfterSlash(dir: string, name: string)
    requires HasSuffix(dir, "/") && '/' !in name
    ensures var pieces := Split(dir + name, '/'); pieces[|pieces| - 1] == name
  {
    var s := dir + name;
    SplitLast(s, '/');
    var pieces := Split(s, '/');
    var last := pieces[|pieces| - 1];
    assert s[|dir| - 1] == '/';
    assert |last| == |name|;
    assert last == s[|s| - |name|..];
  }

  /** Copying into a directory keeps the file's name: the base name of the expanded
      destination is the base name of the source (unless the source is only slashes). */
  lemma ExpandDestKeepsName(srcFile: string, destFile: string)
    requires HasSuffix(destFile, "/") && Base(srcFile) != "/"
    ensures Base(ExpandDest(srcFile, destFile)) == Base(srcFile)
  {
    var b := Base(srcFile);
    BaseShape(srcFile);
    var s := destFile + b;
    assert s[|s| - 1] == b[|b| - 1];
    assert StripTrailingSlashes(s) == s;
    LastPieceAfterSlash(destFile, b);
  }

  /** The task `prepareCp` settles on. */
  datatype CpTask = CpTask(
    taskArn: string,
    taskCPUArch: string,
    container: string,
    upload: bool,
    localFile: string,
    remoteFile: string,
    port: int)

  const CpuArchAttribute := "ecs.cpu-architecture"

  /** Attribute `i` is the first one naming the CPU architecture. */
  predicate FirstArchAttribute(attrs: seq<Attribute>, i: int) {
    0 <= i < |attrs| && attrs[i].name == CpuArchAttribute
    && forall j :: 0 <= j < i ==> attrs[j].name != CpuArchAttribute
  }

  /** The attribute loop of `prepareCp`: the value of the first architecture
      attribute, or "" when the task has none. */
  method CpuArchitecture(attrs: seq<Attribute>) returns (arch: string)
    ensures (forall j :: 0 <= j < |attrs| ==> attrs[j].name != CpuArchAttribute) ==> arch == ""
    ensures forall i :: FirstArchAttribute(attrs, i) ==> arch == attrs[i].value
  {
    arch := "";
    var i := 0;
    while i < |attrs|
      invariant 0 <= i <= |attrs|
      invariant forall j :: 0 <= j < i ==> attrs[j].name != CpuArchAttribute
      invariant arch == ""
    {
      if attrs[i].name == CpuArchAttribute {
        arch := attrs[i].value;
        assert FirstArchAttribute(attrs, i);
        return;
      }
      i := i + 1;
    }
  }

  /** What the interactive steps of `prepareCp` answer: the cluster chosen when none
      is set, `DescribeTasks` for a task ID, `listTasks`, whether the task formatter
      for the filter could be made, and the two filter choices. */
  datatype CpAnswers = CpAnswers(
    selectedCluster: Result<string>,
    described: Result<seq<Task>>,
    listed: Result<seq<Task>>,
    formatter: Outcome,
    chosenTask: Result<string>,
    chosenContainer: Result<string>)

  /** `prepareCp`. A bad pair of arguments is refused before the cluster is chosen or
      any task looked up; the task is looked up among tasks that are not STOPPED. */
  method PrepareCp(app: App, opt: CpOption, answers: CpAnswers) returns (r: Result<CpTask>)
    modifies app`cluster, opt`id
    ensures var plan := PlanCp(opt.src, opt.dest);
      (plan.Err? ==> r == plan.PropagateFailure() && app.cluster == old(app.cluster) && opt.id == old(opt.id))
      && (plan.Ok? ==> opt.id == (if plan.value.taskId.Some? then plan.value.taskId.value else old(opt.id)))
      && (r.Ok? ==>
            plan.Ok? && r.value.upload == plan.value.upload
            && r.value.localFile == plan.value.localFile && r.value.remoteFile == plan.value.remoteFile)
    ensures r.Ok? ==> app.cluster != "" && r.value.port == opt.port
    ensures PlanCp(opt.src, opt.dest).Ok? && old(app.cluster) == "" ==>
      (answers.selectedCluster.Err? ==> r == Err(answers.selectedCluster.msg))
      && (answers.selectedCluster == Ok("") ==> r == Err("cluster not selected"))
    ensures r.Ok? ==>
      var found := FindTask(FindOpt(opt.id, opt.family, opt.service, Some(ExcludeStopped)),
                            answers.described, answers.listed, answers.formatter, answers.chosenTask);
      found.Ok? && r.value.taskArn == found.value.taskArn
      && (forall i :: FirstArchAttribute(found.value.attributes, i) ==> r.value.taskCPUArch == found.value.attributes[i].value)
      && ((forall j :: 0 <= j < |found.value.attributes| ==> found.value.attributes[j].name != CpuArchAttribute)
            ==> r.value.taskCPUArch == "")
      && FindContainerName(found.value, opt.container, answers.chosenContainer) == Ok(r.value.container)
    ensures PlanCp(opt.src, opt.dest).Ok? && app.cluster != "" ==>
      var found := FindTask(FindOpt(opt.id, opt.family, opt.service, Some(ExcludeStopped)),
                            answers.described, answers.listed, answers.formatter, answers.chosenTask);
      (found.Err? ==> r == Err("failed to select tasks: " + found.msg))
      && (found.Ok? ==>
            var container := FindContainerName(found.value, opt.container, answers.chosenContainer);
            (container.Err? ==> r == Err("failed to select containers: " + container.msg))
            && (container.Ok? ==> r.Ok?))
  {
    var plan := PlanCp(opt.src, opt.dest);
    if plan.Err? {
      return plan.PropagateFailure();
    }
    if plan.value.taskId.Some? {
      opt.id := plan.value.taskId.value;
    }
    var clusterSet := app.SetCluster(answers.selectedCluster);
    if clusterSet.Fail? {
      return Err(clusterSet.msg);
    }
    var found := FindTask(FindOpt(opt.id, opt.family, opt.service, Some(ExcludeStopped)),
                          answers.described, answers.listed, answers.formatter, answers.chosenTask);
    if found.Err? {
      return Err("failed to select tasks: " + found.msg);
    }
    var task := found.value;
    var arch := CpuArchitecture(task.attributes);
    var container := FindContainerName(task, opt.container, answers.chosenContainer);
    if container.Err? {
      return Err("failed to select containers: " + container.msg);
    }
    return Ok(CpTask(task.taskArn, arch, container.value, plan.value.upload,
                     plan.value.localFile, plan.value.remoteFile, opt.port));
  }

  /** The two agent builds shipped with the program. */
  datatype Arch = X86_64 | Arm64

  /** `bootAgent`'s choice of build: "arm64" in any case is ARM; anything else,
      including "" for a task without the attribute, gets the x86-64 build. */
  function AgentArch(taskCPUArch: string): (a: Arch)
    ensures a == Arm64 <==> ToLower(taskCPUArch) == "arm64"
  {
    match ToLower(taskCPUArch)
    case "arm64" => Arm64
    case "x86_64" => X86_64
    case _ => X86_64
  }

  /** The base64 text of each embedded agent binary (its contents are not modelled). */
  datatype Payloads = Payloads(x86_64: string, arm64: string)

  function Payload(payloads: Payloads, a: Arch): string {
    match a
    case X86_64 => payloads.x86_64
    case Arm64 => payloads.arm64
  }

  /** A task without an architecture attribute (`PrepareCp` leaves "" then) gets the
      x86-64 build: its script decodes that payload. */
  lemma MissingArchIsX86(cp: CpTask, payloads: Payloads)
    requires cp.taskCPUArch == ""
    ensures AgentArch(cp.taskCPUArch) == X86_64
    ensures HasPrefix(BootAgent(cp, payloads), ScriptHead(payloads.x86_64))
  {
    BootAgentShape(cp, payloads);
  }

  /** "ARM64", "Arm64", ... all select the ARM build. */
  lemma ArchIgnoresCase(s: string)
    requires |s| == 5 && LowerChar(s[0]) == 'a' && LowerChar(s[1]) == 'r' && LowerChar(s[2]) == 'm'
      && s[3] == '6' && s[4] == '4'
    ensures AgentArch(s) == Arm64
  {
    assert ToLower(s) == "arm64";
  }

  /** Where the agent is written in the container. */
  const AgentCmd := "/tmp/tncl"

  /** The line that starts the agent: it listens on `port` and writes what it
      receives into the file (`>`) when uploading, or sends the file (`<`). */
  function LaunchLine(port: int, upload: bool, file: string): string {
    AgentCmd + " " + IntToString(port) + " " + Redirect(upload, file)
  }

  /** The redirection of the launch line: `> "file"` or `< "file"`. */
  function Redirect(upload: bool, file: string): string {
    (if upload then ">" else "<") + " \"" + file + "\""
  }

  /** `bootAgent`: `bootAgentTmpl` filled in. The script decodes the payload of the
      task's architecture into the agent file, makes it executable and launches it. */
  function BootAgent(cp: CpTask, payloads: Payloads): string {
    var b64 := Payload(payloads, AgentArch(cp.taskCPUArch));
    ScriptHead(b64) + DecodeEnd + ChmodLine + ScriptTail(cp)
  }

  /** The end of the here-document that holds the payload. */
  const DecodeEnd := "EOF_OF_AGENT_COMMAND\n"

  /** After a blank line, the line that makes the agent file executable. */
  const ChmodLine := "\nchmod +x " + AgentCmd

  /** The script's opening: decode the payload into the agent file. */
  function ScriptHead(b64: string): string {
    "sh -e -c 'base64 -d <<EOF_OF_AGENT_COMMAND > " + AgentCmd + "\n" + b64 + "\n"
  }

  /** The script's closing: the launch line and the end of the quoted command. */
  function ScriptTail(cp: CpTask): string {
    "\n" + LaunchLine(cp.port, cp.upload, cp.remoteFile) + "\n'\n"
  }

  /** The script decodes the payload of the task's architecture into the agent file
      first and launches the agent last. */
  lemma BootAgentShape(cp: CpTask, payloads: Payloads)
    ensures HasPrefix(BootAgent(cp, payloads), ScriptHead(Payload(payloads, AgentArch(cp.taskCPUArch))))
    ensures HasSuffix(BootAgent(cp, payloads), ScriptTail(cp))
  {
    var head := ScriptHead(Payload(payloads, AgentArch(cp.taskCPUArch)));
    var middle := DecodeEnd + ChmodLine;
    var tail := ScriptTail(cp);
    assert BootAgent(cp, payloads) == head + middle + tail;
    assert (head + middle + tail)[..|head|] == head;
  }

  /** The agent file is made executable on the line just before the launch line. */
  lemma BootAgentMakesExecutable(cp: CpTask, payloads: Payloads)
    ensures var s := BootAgent(cp, payloads);
      |ScriptTail(cp)| <= |s| && HasSuffix(s[..|s| - |ScriptTail(cp)|], ChmodLine)
  {
    var before := ScriptHead(Payload(payloads, AgentArch(cp.taskCPUArch))) + DecodeEnd + ChmodLine;
    var s := before + ScriptTail(cp);
    assert s[..|s| - |ScriptTail(cp)|] == before;
    assert before[|before| - |ChmodLine|..] == ChmodLine;
  }

  /** How the container's shell reads the launch line: the port, the direction of the
      redirection and the quoted file name. */
  datatype Launch = Launch(port: nat, upload: bool, file: string)

  predicate AllDigits(s: string) {
    forall k :: 0 <= k < |s| ==> IsDigit(s[k])
  }

  function ParseLaunchLine(l: string): Option<Launch> {
    var pre := AgentCmd + " ";
    if !HasPrefix(l, pre) then None
    else
      var rest := l[|pre|..];
      match IndexOf(rest, ' ')
      case None => None
      case Some(i) =>
        var digits := rest[..i];
        if digits == [] || !AllDigits(digits) then None
        else
          match ParseRedirect(rest[i + 1..])
          case None => None
          case Some((upload, file)) => Some(Launch(ParseDigits(digits), upload, file))
  }

  /** Reads a redirection back: its direction and the quoted file name. */
  function ParseRedirect(after: string): Option<(bool, string)> {
    if |after| < 4 || (after[0] != '>' && after[0] != '<') || after[1..3] != " \""
       || after[|after| - 1] != '"' then None
    else Some((after[0] == '>', after[3..|after| - 1]))
  }

  lemma RedirectRoundTrip(upload: bool, file: string)
    ensures ParseRedirect(Redirect(upload, file)) == Some((upload, file))
  {
    var after := Redirect(upload, file);
    assert after[1..3] == " \"";
    assert after[3..|after| - 1] == file;
  }

  /** The launch line says what the template was given: the port, `>` exactly when
      uploading, and the remote file. */
  lemma LaunchLineRoundTrip(port: nat, upload: bool, file: string)
    ensures ParseLaunchLine(LaunchLine(port, upload, file)) == Some(Launch(port, upload, file))
  {
    var l := LaunchLine(port, upload, file);
    var pre := AgentCmd + " ";
    var digits := NatToString(port);
    var after := Redirect(upload, file);
    var rest := digits + " " + after;
    assert IntToString(port) == digits;
    assert l == pre + rest;
    assert HasPrefix(l, pre) && l[|pre|..] == rest;
    FirstSpaceAfterDigits(digits, after);
    ParseNatToString(port);
    RedirectRoundTrip(upload, file);
  }

  /** Digits followed by a space: the first space is the one after the digits. */
  lemma FirstSpaceAfterDigits(digits: string, after: string)
    requires AllDigits(digits)
    ensures var rest := digits + " " + after;
      IndexOf(rest, ' ') == Some(|digits|) && rest[..|digits|] == digits && rest[|digits| + 1..] == after
  {
    var rest := digits + " " + after;
    assert rest[|digits|] == ' ';
    assert forall k :: 0 <= k < |digits| ==> rest[k] == digits[k] && IsDigit(rest[k]);
  }

  lemma LaunchLineOneLine(port: nat, upload: bool, file: string)
    requires '\n' !in file
    ensures '\n' !in LaunchLine(port, upload, file)
  {
    var d := NatToString(port);
    assert '\n' !in d by {
      assert forall k :: 0 <= k < |d| ==> IsDigit(d[k]);
    }
  }

  /** The line of the script before its closing quote is a whole line that the
      container's shell reads as a launch on the task's port, with `>` exactly when
      uploading, on the remote file (a file name without a newline). */
  lemma BootAgentLaunches(cp: CpTask, payloads: Payloads)
    requires '\n' !in cp.remoteFile && cp.port >= 0
    ensures var l := LaunchLine(cp.port, cp.upload, cp.remoteFile);
      HasSuffix(BootAgent(cp, payloads), "\n" + l + "\n'\n") && '\n' !in l
      && ParseLaunchLine(l) == Some(Launch(cp.port, cp.upload, cp.remoteFile))
  {
    BootAgentShape(cp, payloads);
    LaunchLineOneLine(cp.port, cp.upload, cp.remoteFile);
    LaunchLineRoundTrip(cp.port, cp.upload, cp.remoteFile);
  }

  /** What the agent prints when it is ready for the connection. */
  const ReadyMarker := "listening on port"

  /** No line of the agent's output says it is ready. */
  predicate NoReadyLine(lines: seq<string>) {
    forall j :: 0 <= j < |lines| ==> !Contains(lines[j], ReadyMarker)
  }

  /** Line `k` is the first to say the agent is listening. */
  predicate FirstReadyLine(lines: seq<string>, k: int) {
    0 <= k < |lines| && Contains(lines[k], ReadyMarker)
    && forall j :: 0 <= j < k ==> !Contains(lines[j], ReadyMarker)
  }

  /** The reader of the agent's output: it closes `ready` on the first line that
      contains the marker and never again (closing twice would panic), reading on to
      the end. `closes` counts the `close(ready)` calls. */
  method ScanReadiness(lines: seq<string>) returns (readyAt: Option<nat>, closes: nat)
    ensures closes <= 1 && (closes == 1 <==> readyAt.Some?)
    ensures readyAt.None? <==> NoReadyLine(lines)
    ensures readyAt.Some? ==> FirstReadyLine(lines, readyAt.value)
  {
    var closed := false;
    readyAt, closes := None, 0;
    for i := 0 to |lines|
      invariant closed <==> readyAt.Some?
      invariant closes == (if closed then 1 else 0)
      invariant !closed ==> forall j :: 0 <= j < i ==> !Contains(lines[j], ReadyMarker)
      invariant closed ==> readyAt.value < i && FirstReadyLine(lines, readyAt.value)
    {
      if !closed && Contains(lines[i], ReadyMarker) {
        readyAt := Some(i);
        closes := closes + 1;
        closed := true;
      }
    }
  }

  /** What `RunCp` does, in the order it does it. */
  datatype Step =
    | Boot(taskArn: string, container: string, command: string)
    | Ready
    | AgentDown
    | Cancel
    | StartPortforward(taskArn: string, container: string, localPort: int, remotePort: int)
    | Dial(connected: bool)
    | Sleep
    | Transfer(upload: bool)
    | MarkSucceeded
    | CloseClient
    | WaitAgent
    | WaitPortforward

  /** `n` failed dials, each followed by a one-second sleep. */
  function Retries(n: nat): (steps: seq<Step>)
    ensures |steps| == 2 * n
    ensures forall i :: 0 <= i < |steps| ==> steps[i] == (if i % 2 == 0 then Dial(false) else Sleep)
  {
    if n == 0 then [] else Retries(n - 1) + [Dial(false), Sleep]
  }

  /** The retry rounds are made of dials and sleeps only. */
  lemma RetriesOnlyDial(n: nat)
    ensures forall s :: s in Retries(n) ==> s == Dial(false) || s == Sleep
  {
    var steps := Retries(n);
    forall s | s in steps
      ensures s == Dial(false) || s == Sleep
    {
      var i :| 0 <= i < |steps| && steps[i] == s;
    }
  }

  /** `newNcClient`: dial until a dial succeeds, sleeping between attempts. The dial
      outcomes are given; the loop has no other way out, so when every given dial
      fails the client is still dialling (`None`). */
  method NewNcClient(dials: seq<bool>) returns (connectedAt: Option<nat>, steps: seq<Step>)
    ensures connectedAt.None? <==> forall i :: 0 <= i < |dials| ==> !dials[i]
    ensures connectedAt.Some? ==>
      connectedAt.value < |dials| && dials[connectedAt.value]
      && (forall j :: 0 <= j < connectedAt.value ==> !dials[j])
      && steps == Retries(connectedAt.value) + [Dial(true)]
    ensures connectedAt.None? ==> steps == Retries(|dials|)
  {
    steps := [];
    var i := 0;
    while i < |dials|
      invariant 0 <= i <= |dials|
      invariant forall j :: 0 <= j < i ==> !dials[j]
      invariant steps == Retries(i)
    {
      if dials[i] {
        return Some(i), steps + [Dial(true)];
      }
      steps := steps + [Dial(false), Sleep];
      i := i + 1;
    }
    return None, steps;
  }

  /** What the local file system and the connection answer during a transfer. */
  datatype TransferAnswers = TransferAnswers(
    stat: Result<int>,
    open: Outcome,
    create: Outcome,
    copy: Outcome)

  /** Where received bytes go. */
  datatype Sink = Stdout | File(name: string)

  /** The outcome of `SendFile` or `ReceiveFile`: the error, the total given to the
      progress bar (`None` when no bar was made) and, when receiving, the sink. */
  datatype TransferResult = TransferResult(result: Outcome, barTotal: Option<int>, sink: Option<Sink>)

  /** `SendFile`: stat, open, copy; each failure is wrapped and returned at once.
      The progress bar cannot take a total of 0, so an empty file gets -1 (unknown). */
  function SendFile(progress: bool, a: TransferAnswers): (t: TransferResult)
    ensures a.stat.Err? ==> t == TransferResult(Fail("failed to stat file: " + a.stat.msg), None, None)
    ensures a.stat.Ok? && a.open.Fail? ==> t == TransferResult(Fail("failed to open file: " + a.open.msg), None, None)
    ensures a.stat.Ok? && a.open.Pass? ==>
      t.barTotal == (if progress then Some(if a.stat.value == 0 then -1 else a.stat.value) else None)
      && t.result == (if a.copy.Fail? then Fail("failed to send: " + a.copy.msg) else Pass)
    ensures t.barTotal != Some(0) && t.sink.None?
  {
    match a.stat
    case Err(m) => TransferResult(Fail("failed to stat file: " + m), None, None)
    case Ok(size) =>
      if a.open.Fail? then TransferResult(Fail("failed to open file: " + a.open.msg), None, None)
      else
        var bar := if progress then Some(if size == 0 then -1 else size) else None;
        match a.copy
        case Fail(m) => TransferResult(Fail("failed to send: " + m), bar, None)
        case Pass => TransferResult(Pass, bar, None)
  }

  /** `ReceiveFile`: "-" is standard output and nothing is created; otherwise the
      file is created first. The bar's total is always unknown (-1). */
  function ReceiveFile(fileName: string, progress: bool, a: TransferAnswers): (t: TransferResult)
    ensures fileName == "-" ==> t.sink == Some(Stdout)
    ensures fileName != "-" && a.create.Fail? ==>
      t == TransferResult(Fail("failed to create file: " + a.create.msg), None, None)
    ensures fileName != "-" && a.create.Pass? ==> t.sink == Some(File(fileName))
    ensures t.sink.Some? ==>
      t.barTotal == (if progress then Some(-1) else None)
      && t.result == (if a.copy.Fail? then Fail("failed to receive: " + a.copy.msg) else Pass)
  {
    if fileName != "-" && a.create.Fail? then
      TransferResult(Fail("failed to create file: " + a.create.msg), None, None)
    else
      var sink := if fileName == "-" then Stdout else File(fileName);
      var bar := if progress then Some(-1) else None;
      match a.copy
      case Fail(m) => TransferResult(Fail("failed to receive: " + m), bar, Some(sink))
      case Pass => TransferResult(Pass, bar, Some(sink))
  }

  /** The transfer `RunCp` runs for the task's direction. */
  function TransferFor(cp: CpTask, progress: bool, a: TransferAnswers): TransferResult {
    if cp.upload then SendFile(progress, a) else ReceiveFile(cp.localFile, progress, a)
  }

  /** The agent's side of the session: what it prints, and whether the remote
      command returns: by itself when it never prints the marker, or once the
      client has closed its connection when it does. */
  datatype AgentRun = AgentRun(output: seq<string>, exits: bool)

  /** How `RunCp` ends: it returns, or it blocks waiting for the agent to be ready
      or to stop, or it goes on dialling. */
  datatype CpEnd = Returned(result: Outcome) | AwaitingAgent | Dialling

  /** The deferred steps, last registered first: closing the client, then waiting for
      the agent, cancelling (which stops the port-forward) and waiting for it. */
  const Teardown: seq<Step> := [CloseClient, WaitAgent, Cancel, WaitPortforward]

  /** `RunCp` after `prepareCp`, as a sequence of steps. When the agent prints the
      marker, that happens before it stops and `ready` wins the `select`. The
      deferred teardown waits for the agent, so a session whose agent never returns
      blocks there. */
  method RunSession(cp: CpTask, progress: bool, payloads: Payloads, agent: AgentRun,
                    dials: seq<bool>, answers: TransferAnswers)
    returns (end: CpEnd, trace: seq<Step>, succeeded: bool)
    ensures trace != [] && trace[0] == Boot(cp.taskArn, cp.container, BootAgent(cp, payloads))
    ensures var noMarker := NoReadyLine(agent.output);
      (noMarker && agent.exits ==>
         end == Returned(Fail("agent stopped")) && trace == [trace[0], AgentDown, Cancel])
      && (noMarker && !agent.exits ==> end == AwaitingAgent && trace == [trace[0]])
      && (!noMarker ==>
            |trace| >= 3 && trace[1] == Ready && trace[2] == StartPortforward(cp.taskArn, cp.container, cp.port, cp.port))
    ensures AgentDown in trace ==> forall s :: s in trace ==> !s.StartPortforward? && !s.Dial?
    ensures end == Dialling <==>
      !NoReadyLine(agent.output)
      && forall i :: 0 <= i < |dials| ==> !dials[i]
    ensures !NoReadyLine(agent.output) && !agent.exits && (exists i :: 0 <= i < |dials| && dials[i]) ==>
      end == AwaitingAgent && trace[|trace| - 1] == CloseClient
    ensures end == Returned(Pass) <==> succeeded && agent.exits
    ensures succeeded ==> TransferFor(cp, progress, answers).result == Pass && MarkSucceeded in trace
    ensures end.Returned? && AgentDown !in trace ==>
      |trace| >= 4 && trace[|trace| - 4..] == Teardown
      && end.result == TransferFor(cp, progress, answers).result
  {
    succeeded := false;
    trace := [Boot(cp.taskArn, cp.container, BootAgent(cp, payloads))];
    var readyAt, closes := ScanReadiness(agent.output);
    if readyAt.None? {
      if agent.exits {
        trace := trace + [AgentDown, Cancel];
        return Returned(Fail("agent stopped")), trace, succeeded;
      }
      return AwaitingAgent, trace, succeeded;
    }
    var steps;
    end, steps, succeeded := ConnectAndTransfer(cp, progress, agent.exits, dials, answers);
    var started := [Ready, StartPortforward(cp.taskArn, cp.container, cp.port, cp.port)];
    var prefix := trace + started;
    trace := prefix + steps;
    assert trace[|prefix|..] == steps;
    assert forall s :: s in trace ==> s in prefix || s in steps;
    if end.Returned? {
      assert trace[|trace| - 4..] == steps[|steps| - 4..];
    }
    if end == AwaitingAgent {
      assert trace[|trace| - 1] == steps[|steps| - 1];
    }
  }

  /** The steps after readiness: dial until connected, transfer the file, mark the
      copy as succeeded only when the transfer went through, and run the deferred
      teardown, which waits for the agent to return (`agentExits`). */
  method ConnectAndTransfer(cp: CpTask, progress: bool, agentExits: bool, dials: seq<bool>,
                            answers: TransferAnswers)
    returns (end: CpEnd, steps: seq<Step>, succeeded: bool)
    ensures AgentDown !in steps
    ensures end == Dialling <==> forall i :: 0 <= i < |dials| ==> !dials[i]
    ensures end == AwaitingAgent <==> !agentExits && exists i :: 0 <= i < |dials| && dials[i]
    ensures end == AwaitingAgent ==> |steps| >= 1 && steps[|steps| - 1] == CloseClient && WaitAgent !in steps
    ensures succeeded <==> end != Dialling && TransferFor(cp, progress, answers).result == Pass
    ensures end == Returned(Pass) <==> succeeded && agentExits
    ensures succeeded ==> MarkSucceeded in steps
    ensures end.Returned? ==>
      |steps| >= 4 && steps[|steps| - 4..] == Teardown
      && end.result == TransferFor(cp, progress, answers).result
  {
    succeeded := false;
    var connectedAt;
    connectedAt, steps := NewNcClient(dials);
    RetriesOnlyDial(if connectedAt.Some? then connectedAt.value else |dials|);
    assert forall s :: s in steps ==> s.Dial? || s.Sleep?;
    if connectedAt.None? {
      return Dialling, steps, succeeded;
    }
    steps := steps + [Transfer(cp.upload)];
    var t := TransferFor(cp, progress, answers);
    if t.result.Pass? {
      succeeded := true;
      steps := steps + [MarkSucceeded];
    }
    if !agentExits {
      steps := steps + [CloseClient];
      return AwaitingAgent, steps, succeeded;
    }
    steps := steps + Teardown;
    return Returned(t.result), steps, succeeded;
  }

  /** `RunCp`: a failed preparation returns before anything is started; a prepared
      copy (`prepared`) runs its session. */
  method RunCp(app: App, opt: CpOption, answers: CpAnswers, payloads: Payloads, agent: AgentRun,
               dials: seq<bool>, transfer: TransferAnswers)
    returns (prepared: Result<CpTask>, end: CpEnd, trace: seq<Step>, succeeded: bool)
    modifies app`cluster, opt`id
    ensures PlanCp(opt.src, opt.dest).Err? ==>
      prepared == PlanCp(opt.src, opt.dest).PropagateFailure()
      && end == Returned(Fail(PlanCp(opt.src, opt.dest).msg)) && trace == [] && !succeeded
    ensures prepared.Err? ==> end == Returned(Fail(prepared.msg)) && trace == [] && !succeeded
    ensures prepared.Ok? ==>
      var cp := prepared.value;
      var plan := PlanCp(opt.src, opt.dest);
      app.cluster != "" && cp.port == opt.port
      && plan.Ok? && cp.upload == plan.value.upload && cp.localFile == plan.value.localFile
      && cp.remoteFile == plan.value.remoteFile
      && trace != [] && trace[0] == Boot(cp.taskArn, cp.container, BootAgent(cp, payloads))
      && (NoReadyLine(agent.output) && agent.exits ==> end == Returned(Fail("agent stopped")))
      && (!NoReadyLine(agent.output) ==> |trace| >= 3 && trace[1] == Ready && trace[2] == StartPortforward(cp.taskArn, cp.container, cp.port, cp.port))
      && (end.Returned? && AgentDown !in trace ==> end.result == TransferFor(cp, opt.progress, transfer).result)
    ensures end == Returned(Pass) <==> succeeded && agent.exits
    ensures succeeded ==> MarkSucceeded in trace
  {
    prepared := PrepareCp(app, opt, answers);
    if prepared.Err? {
      return prepared, Returned(Fail(prepared.msg)), [], false;
    }
    end, trace, succeeded := RunSession(prepared.value, opt.progress, payloads, agent, dials, transfer);
  }
}
