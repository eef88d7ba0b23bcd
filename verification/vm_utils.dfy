/** `VMUtils`: drives VirtualBox through the `vboxmanage` command line to
    clone, start, stop and delete test VMs, and waits for a freshly
    started VM to report, over HTTP, where its remotebuild server
    listens. How a `vboxmanage` command line settles is an input
    (`vbox(args)`); `InvokeVboxmanageCommand` says how one settles from
    the events of its process. The requests the VM sends before the
    five-minute start-up timeout are an input, in arrival order. */
module VmUtils {
  import opened Common
  import RemotebuildUtils

  /** The `runner` suffix between the dashes of a clone's name. */
  const RunnerInfix: string := "-runner-"
  const VboxmanageCommand: string := "vboxmanage"

  // ---------------------------------------------------------------------
  // Running vboxmanage

  /** `" " + args[0]` when there is a non-empty first argument. */
  function Subcommand(args: seq<string>): (s: string)
    ensures s == "" <==> args == [] || args[0] == ""
    ensures s != "" ==> s == " " + args[0]
  {
    if |args| > 0 && args[0] != "" then " " + args[0] else ""
  }

  /** The first line of the rejection message, naming the subcommand. */
  function VboxCommandLine(args: seq<string>): string {
    "Error running 'vboxmanage" + Subcommand(args) + "' command:" + EOL
  }

  /** The rejection message for a non-zero exit code. */
  function VboxFailureMessage(args: seq<string>, code: int, errorOutput: string): string {
    VboxCommandLine(args) + ExitReason(code, errorOutput)
  }

  /** How the first `error` or `exit` event settles the command: only the
      exit code counts, whatever standard error holds. */
  function VboxSettlement(args: seq<string>, e: ProcessEvent, errorOutput: string): (p: Promise<()>)
    requires e.Exit? || e.SpawnError?
    ensures p.Resolved? <==> e.Exit? && (e.code.None? || e.code.value == 0)
    ensures e.SpawnError? ==> p == Rejected(ErrorMessage(e.message))
    ensures e.Exit? && e.code.Some? && e.code.value != 0 ==>
              p == Rejected(ErrorMessage(VboxFailureMessage(args, e.code.value, errorOutput)))
  {
    match e
    case SpawnError(m) => Rejected(ErrorMessage(m))
    case Exit(code) =>
      if code.Some? && code.value != 0 then Rejected(ErrorMessage(VboxFailureMessage(args, code.value, errorOutput)))
      else Resolved(())
  }

  /** `invokeVboxmanageCommand`: collects standard error chunk by chunk;
      the first `error` or `exit` event settles the promise. */
  method InvokeVboxmanageCommand(args: seq<string>, events: seq<ProcessEvent>) returns (p: Promise<()>)
    ensures var k := FirstSettling(events);
            && (k == |events| ==> p == Pending)
            && (k < |events| ==> p == VboxSettlement(args, events[k], StderrOf(events[..k])))
  {
    var errorOutput := "";
    p := Pending;
    var i := 0;
    while i < |events|
      invariant 0 <= i <= |events|
      invariant errorOutput == StderrOf(events[..i])
      invariant i <= FirstSettling(events) ==> p == Pending
      invariant i > FirstSettling(events) ==>
                  var k := FirstSettling(events);
                  p == VboxSettlement(args, events[k], StderrOf(events[..k]))
    {
      assert events[..i + 1][..i] == events[..i];
      match events[i] {
      case Stdout(_) =>
      case Stderr(chunk) =>
        errorOutput := errorOutput + chunk;
      case SpawnError(_) =>
        if p.Pending? {
          p := VboxSettlement(args, events[i], errorOutput);
        }
      case Exit(_) =>
        if p.Pending? {
          p := VboxSettlement(args, events[i], errorOutput);
        }
      }
      i := i + 1;
    }
  }

  /** The failure message names the subcommand and carries standard
      error when there is any. */
  lemma VboxFailureMessageMentions(args: seq<string>, code: int, errorOutput: string)
    ensures var m := VboxFailureMessage(args, code, errorOutput);
            && (args != [] && args[0] != "" ==> Contains(m, args[0]))
            && (errorOutput != "" ==> Contains(m, errorOutput))
  {
    if args != [] && args[0] != "" {
      SubcommandMentioned(args, code, errorOutput);
    }
    if errorOutput != "" {
      ExitReasonMentions(code, errorOutput);
      ContainsAfter(VboxCommandLine(args), ExitReason(code, errorOutput), errorOutput);
    }
  }

  lemma SubcommandMentioned(args: seq<string>, code: int, errorOutput: string)
    requires args != [] && args[0] != ""
    ensures Contains(VboxFailureMessage(args, code, errorOutput), args[0])
  {
    var sub := Subcommand(args);
    assert Contains(args[0], args[0]);
    ContainsAfter(" ", args[0], args[0]);
    ContainsAfter("Error running 'vboxmanage", sub, args[0]);
    ContainsBefore("Error running 'vboxmanage" + sub, "' command:", args[0]);
    ContainsBefore("Error running 'vboxmanage" + sub + "' command:", EOL, args[0]);
    ContainsBefore(VboxCommandLine(args), ExitReason(code, errorOutput), args[0]);
  }

  /** A command rejects exactly when it exits with a non-zero code, so
      output on standard error alone never fails it. */
  lemma VboxRejectsIffNonZeroExit(args: seq<string>, code: Option<int>, errorOutput: string)
    ensures VboxSettlement(args, Exit(code), errorOutput).Rejected? <==> code.Some? && code.value != 0
    ensures code.Some? && code.value != 0 ==>
              var m := VboxSettlement(args, Exit(code), errorOutput).reason.message;
              && (args != [] && args[0] != "" ==> Contains(m, args[0]))
              && (errorOutput != "" ==> Contains(m, errorOutput))
  {
    if code.Some? && code.value != 0 {
      VboxFailureMessageMentions(args, code.value, errorOutput);
    }
  }

  // ---------------------------------------------------------------------
  // Command lines

  function NoNameMessage(operation: string): string {
    "Error: " + operation + "() invoked with no VM name"
  }

  const CloneNoTemplateMessage: string := "Error: cloneVM() invoked with no template"

  /** The guard every wrapper starts with: an empty VM name refuses the
      call before anything is run. */
  function NameChecked(operation: string, vmName: string, args: seq<string>): (r: Result<seq<string>>)
    ensures r.Err? <==> vmName == ""
    ensures r.Err? ==> r.message == NoNameMessage(operation)
    ensures r.Ok? ==> r.value == args
  {
    if vmName == "" then Err(NoNameMessage(operation)) else Ok(args)
  }

  function StartVmCall(vmName: string): Result<seq<string>> {
    NameChecked("startVM", vmName, ["startvm", vmName])
  }

  function HardShutDownCall(vmName: string): Result<seq<string>> {
    NameChecked("hardShutDown", vmName, ["controlvm", vmName, "poweroff"])
  }

  function SaveStateCall(vmName: string): Result<seq<string>> {
    NameChecked("saveState", vmName, ["controlvm", vmName, "savestate"])
  }

  function UnregisterVmCall(vmName: string, deleteVm: bool): Result<seq<string>> {
    NameChecked("unregisterVM", vmName, ["unregistervm", vmName] + (if deleteVm then ["--delete"] else []))
  }

  /** `cloneVM`'s command line: a registered clone under the runner
      folder. */
  function CloneArgs(templateName: string, runnerName: string, runnerFolder: string): seq<string> {
    ["clonevm", templateName, "--name", runnerName, "--register", "--basefolder", runnerFolder]
  }

  /** Each wrapper names the VM it acts on right after the subcommand,
      and `unregisterVM` differs between its two modes only by the
      trailing `--delete`. */
  lemma CommandLinesNameTheVm(vmName: string, deleteVm: bool)
    requires vmName != ""
    ensures StartVmCall(vmName).Ok? && StartVmCall(vmName).value[..2] == ["startvm", vmName]
    ensures HardShutDownCall(vmName).Ok? && HardShutDownCall(vmName).value[..2] == ["controlvm", vmName]
    ensures SaveStateCall(vmName).Ok? && SaveStateCall(vmName).value[..2] == ["controlvm", vmName]
    ensures HardShutDownCall(vmName).value[2] != SaveStateCall(vmName).value[2]
    ensures UnregisterVmCall(vmName, deleteVm).Ok?
    ensures |UnregisterVmCall(vmName, deleteVm).value| == (if deleteVm then 3 else 2)
    ensures deleteVm ==> UnregisterVmCall(vmName, deleteVm).value[2] == "--delete"
    ensures UnregisterVmCall(vmName, deleteVm).value[..2] == UnregisterVmCall(vmName, false).value
  {
    var u := UnregisterVmCall(vmName, deleteVm).value;
    assert u[..2] == ["unregistervm", vmName];
  }

  /** A wrapper's outcome: its refusal, or how its command line settles. */
  function Vbox(call: Result<seq<string>>, vbox: seq<string> -> Promise<()>): Promise<()> {
    if call.Err? then Rejected(ErrorMessage(call.message)) else vbox(call.value)
  }

  /** The command lines a wrapper runs: none when it refuses. */
  function Issued(call: Result<seq<string>>): seq<seq<string>> {
    if call.Err? then [] else [call.value]
  }

  /** `deleteVm`: a hard shutdown, then, once that resolved, an
      unregistration with `--delete`. */
  function DeleteVm(vmName: string, vbox: seq<string> -> Promise<()>): (r: Promise<()>)
    ensures vmName == "" ==> r == Rejected(ErrorMessage(NoNameMessage("deleteVm")))
    ensures r.Resolved? ==> Vbox(HardShutDownCall(vmName), vbox).Resolved? && Vbox(UnregisterVmCall(vmName, true), vbox).Resolved?
  {
    if vmName == "" then Rejected(ErrorMessage(NoNameMessage("deleteVm")))
    else Then(Vbox(HardShutDownCall(vmName), vbox), Vbox(UnregisterVmCall(vmName, true), vbox))
  }

  /** The command lines `deleteVm` runs, in order. */
  function DeleteVmCommands(vmName: string, vbox: seq<string> -> Promise<()>): seq<seq<string>> {
    if vmName == "" then []
    else Issued(HardShutDownCall(vmName))
         + (if Vbox(HardShutDownCall(vmName), vbox).Resolved? then Issued(UnregisterVmCall(vmName, true)) else [])
  }

  /** `deleteVm` is the two-step chain power-off, unregister-and-delete:
      the second runs only after the first resolved, and the promise is
      the chain's. */
  lemma DeleteVmIsShutdownThenUnregister(vmName: string, vbox: seq<string> -> Promise<()>)
    requires vmName != ""
    ensures var off := ["controlvm", vmName, "poweroff"];
            var delete := ["unregistervm", vmName, "--delete"];
            && DeleteVm(vmName, vbox) == ChainSteps(Resolved(()), [vbox(off), vbox(delete)])
            && DeleteVmCommands(vmName, vbox) == (if vbox(off).Resolved? then [off, delete] else [off])
            && |DeleteVmCommands(vmName, vbox)| == StepsStarted(Resolved(()), [vbox(off), vbox(delete)])
  {
    var off := ["controlvm", vmName, "poweroff"];
    var delete := ["unregistervm", vmName, "--delete"];
    var steps := [vbox(off), vbox(delete)];
    assert steps[1..] == [vbox(delete)];
    assert steps[1..][1..] == [];
    assert HardShutDownCall(vmName).value == off;
    assert UnregisterVmCall(vmName, true).value == delete;
    assert ChainSteps(Resolved(()), steps) == ChainSteps(vbox(off), [vbox(delete)]);
    assert ChainSteps(vbox(off), [vbox(delete)]) == Then(vbox(off), vbox(delete));
    assert StepsStarted(Resolved(()), steps) == 1 + StepsStarted(vbox(off), [vbox(delete)]);
  }

  // ---------------------------------------------------------------------
  // Runner names and the counter

  /** `util.format("%s-%s-%d", template, "runner", counter)`. */
  function RunnerName(templateName: string, counter: int): (name: string)
    ensures templateName + RunnerInfix <= name
  {
    templateName + RunnerInfix + IntToString(counter)
  }

  /** How many digits `s` ends with (the longest such suffix). */
  function TrailingDigitCount(s: string): (k: nat)
    ensures k <= |s|
    ensures forall i :: |s| - k <= i < |s| ==> IsDigit(s[i])
    decreases |s|
  {
    if s != [] && IsDigit(s[|s| - 1]) then 1 + TrailingDigitCount(s[..|s| - 1]) else 0
  }

  /** The number `/-(\d+)$/` captures in a folder name, read by
      `parseInt`: present when the name ends with a dash and digits. */
  function TrailingNumber(name: string): (n: Option<nat>)
    ensures n.Some? ==> 2 <= |name| && IsDigit(name[|name| - 1])
  {
    var k := TrailingDigitCount(name);
    if 0 < k < |name| && name[|name| - k - 1] == '-' then Some(DigitsValue(name[|name| - k..], 10)) else None
  }

  /** The digits after a dash that only digits follow are all the digits
      the string ends with. */
  lemma {:induction false} DashBeforeDigits(s: string, j: nat)
    requires 0 < j <= |s| && s[j - 1] == '-'
    requires forall i :: j <= i < |s| ==> IsDigit(s[i])
    ensures TrailingDigitCount(s) == |s| - j
    decreases |s|
  {
    if j < |s| {
      DashBeforeDigits(s[..|s| - 1], j);
    }
  }

  /** `TrailingNumber` is the regular expression's capture: a name made of
      a prefix, a dash and a non-empty run of digits gives the value of
      those digits, and a name that gives a number is made that way. */
  lemma TrailingNumberIsCapture(name: string, pre: string, d: string)
    requires name == pre + "-" + d
    ensures d != [] && (forall i :: 0 <= i < |d| ==> IsDigit(d[i])) ==> TrailingNumber(name) == Some(DigitsValue(d, 10))
    ensures TrailingNumber(name).Some? ==>
              var k := TrailingDigitCount(name);
              && 0 < k < |name| && name == name[..|name| - k - 1] + "-" + name[|name| - k..]
              && TrailingNumber(name).value == DigitsValue(name[|name| - k..], 10)
  {
    if d != [] && (forall i :: 0 <= i < |d| ==> IsDigit(d[i])) {
      CaptureGivesNumber(name, pre, d);
    }
    if TrailingNumber(name).Some? {
      NumberHasCapture(name);
    }
  }

  lemma CaptureGivesNumber(name: string, pre: string, d: string)
    requires name == pre + "-" + d
    requires d != [] && forall i :: 0 <= i < |d| ==> IsDigit(d[i])
    ensures TrailingNumber(name) == Some(DigitsValue(d, 10))
  {
    DashBeforeDigits(name, |pre| + 1);
    assert name[|pre| + 1..] == d;
  }

  lemma NumberHasCapture(name: string)
    requires TrailingNumber(name).Some?
    ensures var k := TrailingDigitCount(name);
            0 < k < |name| && name == name[..|name| - k - 1] + "-" + name[|name| - k..]
  {
    var k := TrailingDigitCount(name);
    var j := |name| - k - 1;
    assert name[j] == '-';
    BreakAt(name, j);
    assert [name[j]] == "-";
  }

  /** `initializeCounter`: one more than the highest trailing number among
      the folder names of the runner VMs, 1 when there is none. */
  method InitializeCounter(vms: seq<string>) returns (n: int)
    ensures n >= 1
    ensures forall j :: 0 <= j < |vms| && TrailingNumber(vms[j]).Some? ==> TrailingNumber(vms[j]).value < n
    ensures n > 1 ==> exists j :: 0 <= j < |vms| && TrailingNumber(vms[j]) == Some(n - 1)
  {
    var highestId := 0;
    var i := 0;
    while i < |vms|
      invariant 0 <= i <= |vms| && highestId >= 0
      invariant forall j :: 0 <= j < i && TrailingNumber(vms[j]).Some? ==> TrailingNumber(vms[j]).value <= highestId
      invariant highestId > 0 ==> exists j :: 0 <= j < i && TrailingNumber(vms[j]) == Some(highestId)
    {
      var id := TrailingNumber(vms[i]);
      if id.Some? && id.value > highestId {
        highestId := id.value;
      }
      i := i + 1;
    }
    n := highestId + 1;
  }

  /** Runner names tell their template and counter apart: the counter's
      digits follow the last dash, so equal names come from equal
      templates and equal counters. */
  lemma RunnerNameInjective(t1: string, m: nat, t2: string, n: nat)
    requires RunnerName(t1, m) == RunnerName(t2, n)
    ensures t1 == t2 && m == n
  {
    var p1, p2 := t1 + RunnerInfix, t2 + RunnerInfix;
    NatToStringDigits(m);
    NatToStringDigits(n);
    assert p1[|p1| - 1] == RunnerInfix[7] == '-';
    assert p2[|p2| - 1] == RunnerInfix[7];
    DashDigitsSplit(RunnerName(t1, m), p1, NatToString(m), p2, NatToString(n));
    assert t1 == p1[..|t1|] && t2 == p2[..|t2|];
    if m != n {
      NatToStringInjective(m, n);
    }
  }

  /** A string splits at most one way into a text ending in a dash and a
      run of digits. */
  lemma DashDigitsSplit(s: string, p1: string, d1: string, p2: string, d2: string)
    requires s == p1 + d1 && p1 != [] && p1[|p1| - 1] == '-' && forall i :: 0 <= i < |d1| ==> IsDigit(d1[i])
    requires s == p2 + d2 && p2 != [] && p2[|p2| - 1] == '-' && forall i :: 0 <= i < |d2| ==> IsDigit(d2[i])
    ensures p1 == p2 && d1 == d2
  {
    DashBeforeDigits(s, |p1|);
    DashBeforeDigits(s, |p2|);
    assert p1 == s[..|p1|] && p2 == s[..|p2|];
  }

  // ---------------------------------------------------------------------
  // The startup handshake

  /** What `handleRequest` reads from one request: the URL path, the
      `port` and `error` query parameters (the error already URI-decoded)
      and the address of the connection. */
  datatype VmRequest = VmRequest(pathname: string, port: Option<string>, error: Option<string>, remoteAddress: Option<string>)

  datatype RemotebuildInfo = RemotebuildInfo(ip: string, port: Option<string>)

  const NoAddressMessage: string := "Could not obtain the VM's IP address from the request"
  const InvalidMessageMessage: string := "The test VM sent an invalid message"

  function InvalidPortReport(port: Option<string>): string {
    "The test VM reported an invalid port: " + Formatted(port)
  }

  /** The message of an `/error` request: the VM's own error is framed by
      two `=====` lines when it sent one. */
  function VmErrorMessage(error: Option<string>): string {
    "The VM reported an error"
      + (if Truthy(error) then ":" + EOL + "=====" + EOL + error.value + EOL + "=====" + EOL else "")
  }

  predicate PortReported(port: Option<string>) {
    port.Some? && RemotebuildUtils.IsPortValid(port.value)
  }

  /** How one request would settle the startup promise on its own. */
  function RequestVerdict(req: VmRequest): (p: Promise<()>)
    ensures !p.Pending?
    ensures p.Resolved? <==> req.pathname == "/listening" && PortReported(req.port) && Truthy(req.remoteAddress)
    ensures req.pathname == "/listening" && !PortReported(req.port) ==> p == Rejected(ErrorMessage(InvalidPortReport(req.port)))
    ensures req.pathname == "/listening" && PortReported(req.port) && !Truthy(req.remoteAddress) ==> p == Rejected(ErrorMessage(NoAddressMessage))
    ensures req.pathname == "/error" ==> p == Rejected(ErrorMessage(VmErrorMessage(req.error)))
    ensures req.pathname != "/listening" && req.pathname != "/error" ==> p == Rejected(ErrorMessage(InvalidMessageMessage))
  {
    if req.pathname == "/listening" then
      if !PortReported(req.port) then Rejected(ErrorMessage(InvalidPortReport(req.port)))
      else if !Truthy(req.remoteAddress) then Rejected(ErrorMessage(NoAddressMessage))
      else Resolved(())
    else if req.pathname == "/error" then Rejected(ErrorMessage(VmErrorMessage(req.error)))
    else Rejected(ErrorMessage(InvalidMessageMessage))
  }

  /** A deferred settles once: later settlements are ignored. */
  function Settle(d: Promise<()>, next: Promise<()>): (s: Promise<()>)
    ensures d.Pending? ==> s == next
    ensures !d.Pending? ==> s == d
  {
    if d.Pending? then next else d
  }

  /** A `/listening` request from a known address records where
      remotebuild listens, whatever the port and whether or not the
      promise has settled already. */
  predicate Records(req: VmRequest) {
    req.pathname == "/listening" && Truthy(req.remoteAddress)
  }

  /** The remotebuild info left by a run of requests: the last one that
      records wins. */
  function LastRecorded(requests: seq<VmRequest>, initial: Option<RemotebuildInfo>): (r: Option<RemotebuildInfo>)
    ensures (forall j :: 0 <= j < |requests| ==> !Records(requests[j])) ==> r == initial
    ensures r != initial ==> exists j :: 0 <= j < |requests| && Records(requests[j])
                                 && r == Some(RemotebuildInfo(requests[j].remoteAddress.value, requests[j].port))
  {
    if requests == [] then initial
    else
      var last := requests[|requests| - 1];
      var before := LastRecorded(requests[..|requests| - 1], initial);
      if Records(last) then Some(RemotebuildInfo(last.remoteAddress.value, last.port)) else before
  }

  /** The VM being launched: its name, and where its remotebuild server
      listens once it has said so. */
  class VmInfo {
    const name: string
    var remotebuildInfo: Option<RemotebuildInfo>

    constructor (name: string)
      ensures this.name == name && remotebuildInfo.None?
    {
      this.name := name;
      remotebuildInfo := None;
    }
  }

  /** The state `handleRequest` works on: the VM info and the startup
      deferred. */
  class StartupListener {
    const vmInfo: VmInfo
    var startup: Promise<()>

    constructor (info: VmInfo)
      ensures vmInfo == info && startup == Pending
    {
      vmInfo := info;
      startup := Pending;
    }

    method Reject(message: string)
      modifies this`startup
      ensures startup == Settle(old(startup), Rejected(ErrorMessage(message)))
    {
      if startup.Pending? {
        startup := Rejected(ErrorMessage(message));
      }
    }

    method Resolve()
      modifies this`startup
      ensures startup == Settle(old(startup), Resolved(()))
    {
      if startup.Pending? {
        startup := Resolved(());
      }
    }

    /** `handleRequest`: routes on the path. On `/listening` an invalid
        port rejects but does not stop the handler, so the info is still
        recorded when the address is known. */
    method HandleRequest(req: VmRequest)
      modifies this`startup, vmInfo`remotebuildInfo
      ensures startup == Settle(old(startup), RequestVerdict(req))
      ensures vmInfo.remotebuildInfo
              == (if Records(req) then Some(RemotebuildInfo(req.remoteAddress.value, req.port)) else old(vmInfo.remotebuildInfo))
    {
      if req.pathname == "/listening" {
        if !PortReported(req.port) {
          Reject(InvalidPortReport(req.port));
        }
        if !Truthy(req.remoteAddress) {
          Reject(NoAddressMessage);
        } else {
          vmInfo.remotebuildInfo := Some(RemotebuildInfo(req.remoteAddress.value, req.port));
          Resolve();
        }
      } else if req.pathname == "/error" {
        Reject(VmErrorMessage(req.error));
      } else {
        Reject(InvalidMessageMessage);
      }
    }

    /** Serves requests in arrival order: the first one decides the
        startup promise. */
    method Serve(requests: seq<VmRequest>)
      modifies this`startup, vmInfo`remotebuildInfo
      ensures startup == (if old(startup).Pending? && requests != [] then RequestVerdict(requests[0]) else old(startup))
      ensures vmInfo.remotebuildInfo == LastRecorded(requests, old(vmInfo.remotebuildInfo))
    {
      ghost var start, info := startup, vmInfo.remotebuildInfo;
      var i := 0;
      while i < |requests|
        invariant 0 <= i <= |requests|
        invariant startup == (if start.Pending? && i > 0 then RequestVerdict(requests[0]) else start)
        invariant vmInfo.remotebuildInfo == LastRecorded(requests[..i], info)
      {
        ghost var done := requests[..i + 1];
        assert done[..i] == requests[..i] && done[i] == requests[i];
        HandleRequest(requests[i]);
        assert vmInfo.remotebuildInfo == LastRecorded(done, info);
        i := i + 1;
      }
      assert requests[..i] == requests;
    }
  }

  /** The first request decides how the VM's startup settles: none of
      them leaves it pending, and a settled deferred stays as it is. */
  lemma {:induction false} FirstRequestDecides(start: Promise<()>, requests: seq<VmRequest>)
    requires requests != []
    ensures SettleAll(start, requests) == Settle(start, RequestVerdict(requests[0]))
    decreases |requests|
  {
    if |requests| > 1 {
      FirstRequestDecides(start, requests[..|requests| - 1]);
      assert requests[..|requests| - 1][0] == requests[0];
    }
  }

  /** The startup deferred after each request settled it in turn. */
  function SettleAll(start: Promise<()>, requests: seq<VmRequest>): Promise<()> {
    if requests == [] then start
    else Settle(SettleAll(start, requests[..|requests| - 1]), RequestVerdict(requests[|requests| - 1]))
  }

  // ---------------------------------------------------------------------
  // Launching a VM

  const NoTemplateMessage: string := "Error: launchNewVMWithRemotebuild() invoked with no template"

  /** `VM_STARTUP_TIMEOUT`: five minutes, in milliseconds. */
  const VmStartupTimeout: nat := 5 * 60 * 1000

  /** The error `promise.timeout(ms)` rejects with when nothing settled the
      promise in time. */
  const StartupTimeoutMessage: string := "Timed out after 300000 ms"

  function InvalidLaunchPortMessage(port: string): string {
    "Error: launchNewVMWithRemotebuild() invoked with an invalid port: " + port
  }

  /** `path.join(path.join(HOME, "VirtualBox VMs"), "testRuns")`. */
  function RunnerFolder(home: string): string {
    PathJoin(PathJoin(home, "VirtualBox VMs"), "testRuns")
  }

  /** The name of the VM to start: a fresh clone's, or the template's own. */
  function NameToStart(templateName: string, cloneVm: bool, counter: int, runnerFolder: string, vbox: seq<string> -> Promise<()>): Promise<string> {
    if !cloneVm then Resolved(templateName)
    else
      var runner := RunnerName(templateName, counter);
      MapPromise(vbox(CloneArgs(templateName, runner, runnerFolder)), (_: ()) => runner)
  }

  /** How `launchNewVMWithRemotebuild` settles, by the launched VM's name:
      the argument checks first, then the clone, the start, and the VM's
      first report. */
  function LaunchResult(templateName: string, port: string, cloneVm: bool, counter: int, runnerFolder: string,
                        vbox: seq<string> -> Promise<()>, requests: seq<VmRequest>): (r: Promise<string>)
    ensures templateName == "" ==> r == Rejected(ErrorMessage(NoTemplateMessage))
    ensures r.Resolved? ==> templateName != "" && RemotebuildUtils.IsPortValid(port) && requests != []
  {
    if templateName == "" then Rejected(ErrorMessage(NoTemplateMessage))
    else if !RemotebuildUtils.IsPortValid(port) then Rejected(ErrorMessage(InvalidLaunchPortMessage(port)))
    else
      match NameToStart(templateName, cloneVm, counter, runnerFolder, vbox)
      case Rejected(f) => Rejected(f)
      case Pending => Pending
      case Resolved(name) =>
        match Vbox(StartVmCall(name), vbox)
        case Rejected(f) => Rejected(f)
        case Pending => Pending
        case Resolved(_) =>
          if requests == [] then Rejected(ErrorMessage(StartupTimeoutMessage))
          else MapPromise(RequestVerdict(requests[0]), (_: ()) => name)
  }

  /** The command lines the launch runs, in order. */
  function LaunchCommands(templateName: string, port: string, cloneVm: bool, counter: int, runnerFolder: string,
                          vbox: seq<string> -> Promise<()>): seq<seq<string>>
  {
    if templateName == "" || !RemotebuildUtils.IsPortValid(port) then []
    else
      var named := NameToStart(templateName, cloneVm, counter, runnerFolder, vbox);
      (if cloneVm then [CloneArgs(templateName, RunnerName(templateName, counter), runnerFolder)] else [])
        + (if named.Resolved? then Issued(StartVmCall(named.value)) else [])
  }

  /** The launch resolves exactly when the arguments pass, the clone (if
      any) and the start succeed, and the VM's first report is a
      `/listening` with a valid port from a known address; it resolves
      with the clone's name, or the template's when not cloning. */
  lemma LaunchResolvesIff(templateName: string, port: string, cloneVm: bool, counter: nat, runnerFolder: string,
                          vbox: seq<string> -> Promise<()>, requests: seq<VmRequest>)
    ensures var r := LaunchResult(templateName, port, cloneVm, counter, runnerFolder, vbox, requests);
            var name := if cloneVm then RunnerName(templateName, counter) else templateName;
            && (r.Resolved? <==>
                  && templateName != "" && RemotebuildUtils.IsPortValid(port)
                  && (cloneVm ==> vbox(CloneArgs(templateName, name, runnerFolder)).Resolved?)
                  && vbox(["startvm", name]).Resolved?
                  && requests != [] && requests[0].pathname == "/listening"
                  && PortReported(requests[0].port) && Truthy(requests[0].remoteAddress))
            && (r.Resolved? ==> r.value == name)
  {
  }

  /** Once the VM is started, a VM that reports nothing before the timeout
      fails the launch with the timeout error, and the launch never stays
      pending. */
  lemma LaunchTimesOut(templateName: string, port: string, cloneVm: bool, counter: nat, runnerFolder: string,
                       vbox: seq<string> -> Promise<()>, requests: seq<VmRequest>)
    requires templateName != "" && RemotebuildUtils.IsPortValid(port)
    requires NameToStart(templateName, cloneVm, counter, runnerFolder, vbox).Resolved?
    requires Vbox(StartVmCall(NameToStart(templateName, cloneVm, counter, runnerFolder, vbox).value), vbox).Resolved?
    ensures var r := LaunchResult(templateName, port, cloneVm, counter, runnerFolder, vbox, requests);
            && (requests == [] ==> r == Rejected(ErrorMessage(StartupTimeoutMessage)))
            && (requests != [] ==> (r.Resolved? <==> RequestVerdict(requests[0]).Resolved?))
            && !r.Pending?
  {
  }

  /** The static state of `VMUtils`: the folder clones go to and the
      counter that numbers them. */
  class VmHost {
    const runnerFolder: string
    var runCounter: int

    /** The class initialiser: the counter starts above every number
        already used by a folder under the runner folder. */
    constructor (home: string, runnerVms: seq<string>)
      ensures runnerFolder == RunnerFolder(home)
      ensures runCounter >= 1
      ensures forall j :: 0 <= j < |runnerVms| && TrailingNumber(runnerVms[j]).Some? ==> TrailingNumber(runnerVms[j]).value < runCounter
      ensures runCounter > 1 ==> exists j :: 0 <= j < |runnerVms| && TrailingNumber(runnerVms[j]) == Some(runCounter - 1)
    {
      runnerFolder := RunnerFolder(home);
      var n := InitializeCounter(runnerVms);
      runCounter := n;
    }

    /** `getNewVMName`: names the clone after the counter, then moves the
        counter on, so no two calls give the same name. */
    method GetNewVmName(templateName: string) returns (name: string)
      modifies this`runCounter
      ensures name == RunnerName(templateName, old(runCounter))
      ensures runCounter == old(runCounter) + 1
    {
      name := RunnerName(templateName, runCounter);
      runCounter := runCounter + 1;
    }

    /** `cloneVM`: takes a new name only when given a template, then runs
        the clone command and resolves with that name. */
    method CloneVm(templateName: string, vbox: seq<string> -> Promise<()>) returns (p: Promise<string>, issued: seq<seq<string>>)
      modifies this`runCounter
      ensures templateName == "" ==> p == Rejected(ErrorMessage(CloneNoTemplateMessage)) && issued == [] && runCounter == old(runCounter)
      ensures templateName != "" ==>
                && runCounter == old(runCounter) + 1
                && p == NameToStart(templateName, true, old(runCounter), runnerFolder, vbox)
                && issued == [CloneArgs(templateName, RunnerName(templateName, old(runCounter)), runnerFolder)]
    {
      if templateName == "" {
        return Rejected(ErrorMessage(CloneNoTemplateMessage)), [];
      }
      var runnerName := GetNewVmName(templateName);
      var args := CloneArgs(templateName, runnerName, runnerFolder);
      p := MapPromise(vbox(args), (_: ()) => runnerName);
      issued := [args];
    }

    /** `launchNewVMWithRemotebuild`: rejects before any command or
        counter change when the template or the port is bad; otherwise
        clones (or takes the template), starts the VM, and waits for its
        first report. The VM info keeps what the last `/listening` request
        with an address recorded. The source's `cloneVm` defaults to true;
        here every caller passes it. */
    method LaunchNewVmWithRemotebuild(templateName: string, vmStartupPort: string, cloneVm: bool,
                                      vbox: seq<string> -> Promise<()>, requests: seq<VmRequest>)
      returns (p: Promise<VmInfo>, issued: seq<seq<string>>)
      modifies this`runCounter
      ensures NameOf(p) == LaunchResult(templateName, vmStartupPort, cloneVm, old(runCounter), runnerFolder, vbox, requests)
      ensures issued == LaunchCommands(templateName, vmStartupPort, cloneVm, old(runCounter), runnerFolder, vbox)
      ensures runCounter == old(runCounter) + (if templateName != "" && RemotebuildUtils.IsPortValid(vmStartupPort) && cloneVm then 1 else 0)
      ensures p.Resolved? ==> p.value.remotebuildInfo == LastRecorded(requests, None)
    {
      if templateName == "" {
        return Rejected(ErrorMessage(NoTemplateMessage)), [];
      }
      if !RemotebuildUtils.IsPortValid(vmStartupPort) {
        return Rejected(ErrorMessage(InvalidLaunchPortMessage(vmStartupPort))), [];
      }
      var named: Promise<string>;
      if cloneVm {
        named, issued := CloneVm(templateName, vbox);
      } else {
        named, issued := Resolved(templateName), [];
      }
      if !named.Resolved? {
        return (if named.Rejected? then Rejected(named.reason) else Pending), issued;
      }
      var info := new VmInfo(named.value);
      var listener := new StartupListener(info);
      var startCall := StartVmCall(info.name);
      issued := issued + Issued(startCall);
      var started := Vbox(startCall, vbox);
      if !started.Resolved? {
        return (if started.Rejected? then Rejected(started.reason) else Pending), issued;
      }
      listener.Serve(requests);
      p := match listener.startup
           case Resolved(_) => Resolved(info)
           case Rejected(f) => Rejected(f)
           case Pending => Rejected(ErrorMessage(StartupTimeoutMessage));
    }
  }

  /** The launched VM's name in place of its info. */
  function NameOf(p: Promise<VmInfo>): (q: Promise<string>)
    ensures q.Resolved? <==> p.Resolved?
    ensures q.Rejected? ==> p == Rejected(q.reason)
    ensures q.Pending? <==> p.Pending?
  {
    match p
    case Resolved(info) => Resolved(info.name)
    case Rejected(f) => Rejected(f)
    case Pending => Pending
  }
}
