/** A suite run on a remote test agent: `setup` connects to the agent,
    packs the test package locally, uploads and installs it, optionally
    uploads and unpacks the sources folder and runs the setup script, and
    asks for mocha to be installed; `launch` runs mocha there. Every call
    to the agent is an `Action` and how it settles is an input (`agent`),
    whose value is the output of the command it ran. */
module RemoteSuiteModel {
  import opened Common
  import opened RunnerInterfaces
  import opened AbstractSuite

  const UnzipScript: string := "unzip.js"
  const MochaInstall: string := "npm install mocha"

  /** One thing the suite asks of the agent, or does to local files (the
      local removal settles as `agent` says too: rejected when
      `rimraf.sync` throws). */
  datatype Action =
    | Upload(name: string)
    | Run(command: string)
    | RemoveLocal(path: string)

  /** `remotebuildTestUrl`: the test endpoint of the agent at `ip`:`port`,
      the address in brackets (an IPv6 literal). */
  function RemotebuildTestUrl(ip: string, port: string): (u: string)
    ensures "http://[" <= u
    ensures u == "http://[" + ip + "]:" + port + "/test"
  {
    "http://[" + ip + "]:" + port + "/test"
  }

  /** Different ports of one address name different endpoints. */
  lemma RemotebuildTestUrlInjective(ip: string, p1: string, p2: string)
    requires p1 != p2
    ensures RemotebuildTestUrl(ip, p1) != RemotebuildTestUrl(ip, p2)
  {
    var pre := "http://[" + ip + "]:";
    var u1 := RemotebuildTestUrl(ip, p1);
    var u2 := RemotebuildTestUrl(ip, p2);
    assert u1 == pre + p1 + "/test" && u2 == pre + p2 + "/test";
    if |p1| == |p2| {
      assert u1[|pre|..|pre| + |p1|] == p1 && u2[|pre|..|pre| + |p2|] == p2;
    } else {
      assert |u1| != |u2|;
    }
  }

  /** The package name in the output of `npm install`: the text before the
      first '@', or "" when there is none (`substring(0, -1)` is empty). */
  function PackageName(output: string): string {
    var at := IndexOfChar(output, '@');
    if at < 0 then "" else output[..at]
  }

  /** The package name is the text before the first '@', and empty when
      there is no '@'. */
  lemma PackageNameBeforeAt(output: string)
    ensures var name := PackageName(output);
            && '@' !in name
            && name <= output
            && ('@' in output ==> |name| < |output| && output[|name|] == '@')
            && ('@' !in output ==> name == "")
  {
    var at := IndexOfChar(output, '@');
    IndexOfCharFirst(output, '@');
    if at >= 0 {
      assert forall m :: 0 <= m < at ==> output[..at][m] == output[m];
    }
  }

  /** A name followed by '@' and a version gives that name back. */
  lemma PackageNameOfInstallLine(name: string, rest: string)
    requires '@' !in name
    ensures PackageName(name + "@" + rest) == name
  {
    var s := name + "@" + rest;
    assert s[|name|] == '@';
    assert s[..|name|] == name;
    forall k | 0 <= k < |s| && k < |name| ensures s[k] != '@' {
      assert s[k] == name[k];
    }
    IndexOfCharIs(s, '@', |name|);
  }

  /** The mocha command of `launch`: from the installed package's folder,
      mocha on the test files separated by spaces, then the reporter when
      one is set. */
  function LaunchCommand(packageName: string, files: seq<string>, reporter: string): (cmd: string)
    ensures "cd node_modules/" + packageName + " && node ../mocha/bin/mocha " + JoinWith(files, " ") <= cmd
    ensures reporter == "" ==> cmd == "cd node_modules/" + packageName + " && node ../mocha/bin/mocha " + JoinWith(files, " ")
    ensures reporter != "" ==> cmd == "cd node_modules/" + packageName + " && node ../mocha/bin/mocha " + JoinWith(files, " ") + " --reporter " + reporter
  {
    var command := "cd node_modules/" + packageName + " && node ../mocha/bin/mocha " + JoinWith(files, " ");
    if reporter != "" then command + " --reporter " + reporter else command
  }

  /** Only the reporter decides the tail of the command: two reporters give
      commands that differ only after the common mocha invocation. */
  lemma LaunchCommandReporterOnly(packageName: string, files: seq<string>, r1: string, r2: string)
    ensures LaunchCommand(packageName, files, r1) == LaunchCommand(packageName, files, r2) <==> r1 == r2
  {
    var base := "cd node_modules/" + packageName + " && node ../mocha/bin/mocha " + JoinWith(files, " ");
    var c1 := LaunchCommand(packageName, files, r1);
    var c2 := LaunchCommand(packageName, files, r2);
    if r1 != r2 {
      if r1 == "" || r2 == "" || |r1| != |r2| {
        assert |c1| != |c2|;
      } else {
        assert c1[|base| + 12..] == r1 && c2[|base| + 12..] == r2;
      }
    }
  }

  /** The agent actions of `uploadSources`: upload the packed folder, upload
      the unzip script, install `tar`, and unpack the archive into a folder
      of the same name. */
  function SourcesActions(sourcesPath: string): (actions: seq<Action>)
    ensures |actions| == 4
    ensures actions[0] == Upload(Basename(sourcesPath) + ".tgz") && actions[1] == Upload(UnzipScript)
    ensures actions[2] == Run("npm install tar")
    ensures actions[3] == Run("node " + UnzipScript + " " + Basename(sourcesPath) + ".tgz " + Basename(sourcesPath))
  {
    var folder := Basename(sourcesPath);
    var archive := folder + ".tgz";
    [Upload(archive), Upload(UnzipScript), Run("npm install tar"), Run("node " + UnzipScript + " " + folder + ".tgz " + folder)]
  }

  /** The command of `remoteSetup`: the setup script run from the installed
      package. */
  function SetupScriptCommand(packageName: Option<string>, setupScript: string): string {
    "node node_modules/" + Formatted(packageName) + "/" + setupScript
  }

  /** How each action of a list would settle. */
  function Settlements(actions: seq<Action>, agent: Action -> Promise<string>): (steps: seq<Promise<string>>)
    ensures |steps| == |actions| && forall i :: 0 <= i < |actions| ==> steps[i] == agent(actions[i])
  {
    seq(|actions|, i requires 0 <= i < |actions| => agent(actions[i]))
  }

  /** How many actions of a `then` chain are performed: all up to and
      including the first one that does not resolve. */
  function Performed(actions: seq<Action>, agent: Action -> Promise<string>): (n: nat)
    ensures n <= |actions|
  {
    var k := FirstUnresolved(Settlements(actions, agent));
    if k == |actions| then k else k + 1
  }

  /** How a `then` chain of actions settles: as its first action that does
      not resolve, or as its last action. */
  function ChainResult(actions: seq<Action>, agent: Action -> Promise<string>): (p: Promise<string>)
    ensures actions != [] && p.Resolved? ==> forall a :: a in actions ==> agent(a).Resolved?
  {
    var steps := Settlements(actions, agent);
    var k := FirstUnresolved(steps);
    if k < |actions| then steps[k] else if actions == [] then Resolved("") else steps[|actions| - 1]
  }

  /** Such a chain is `ChainSteps` of the settlements started from a
      resolved promise: the helpers above are the general chain rule
      applied to actions. */
  lemma ChainResultIsChainSteps(actions: seq<Action>, agent: Action -> Promise<string>)
    ensures ChainResult(actions, agent) == ChainSteps(Resolved(""), Settlements(actions, agent))
    ensures Performed(actions, agent) == StepsStarted(Resolved(""), Settlements(actions, agent))
  {
    ChainOutcome("", Settlements(actions, agent));
  }

  /** Turns a settled promise of any value into one of `()`. */
  function Done<T>(p: Promise<T>): (q: Promise<()>)
    ensures q.Resolved? <==> p.Resolved?
    ensures q.Pending? <==> p.Pending?
    ensures p.Rejected? ==> q == Rejected(p.reason)
  {
    MapPromise(p, (_: T) => ())
  }

  const PackErrorPrefix: string := "Error running 'npm pack' on the test package:"

  /** The message of a failed `npm pack`: the exit code, then the error
      output when there is any. */
  function PackFailureMessage(code: int, errorOutput: string): string {
    PackErrorPrefix + EOL + ExitReason(code, errorOutput)
  }

  /** How the `error` or `exit` event settles the deferred, given the
      output collected before it. */
  function PackSettlement(e: ProcessEvent, output: string, errorOutput: string, tmpdir: string): (p: Promise<string>)
    requires e.Exit? || e.SpawnError?
    ensures p.Resolved? <==> e.Exit? && (e.code.None? || e.code.value == 0)
    ensures p.Resolved? ==> p.value == PathJoin(tmpdir, output)
    ensures e.Exit? && e.code.Some? && e.code.value != 0 ==> p == Rejected(ErrorMessage(PackFailureMessage(e.code.value, errorOutput)))
    ensures e.SpawnError? ==> p == Rejected(ErrorMessage(PackErrorPrefix + EOL + e.message))
  {
    match e
    case SpawnError(m) => Rejected(ErrorMessage(PackErrorPrefix + EOL + m))
    case Exit(code) =>
      if code.Some? && code.value != 0 then Rejected(ErrorMessage(PackFailureMessage(code.value, errorOutput)))
      else Resolved(PathJoin(tmpdir, output))
  }

  /** `packTestPackage`: collects both streams chunk by chunk; the first
      `error` or `exit` event settles the result, later ones are ignored. */
  method PackTestPackage(events: seq<ProcessEvent>, tmpdir: string) returns (p: Promise<string>)
    ensures p == PackOutcome(events, tmpdir)
  {
    var output, errorOutput := "", "";
    p := Pending;
    var i := 0;
    while i < |events|
      invariant 0 <= i <= |events|
      invariant output == StdoutOf(events[..i]) && errorOutput == StderrOf(events[..i])
      invariant i <= FirstSettling(events) ==> p == Pending
      invariant i > FirstSettling(events) ==>
                  var k := FirstSettling(events);
                  p == PackSettlement(events[k], StdoutOf(events[..k]), StderrOf(events[..k]), tmpdir)
    {
      assert events[..i + 1][..i] == events[..i];
      match events[i] {
      case Stdout(chunk) =>
        output := output + chunk;
      case Stderr(chunk) =>
        errorOutput := errorOutput + chunk;
      case SpawnError(_) =>
        if p.Pending? {
          p := PackSettlement(events[i], output, errorOutput, tmpdir);
        }
      case Exit(_) =>
        if p.Pending? {
          p := PackSettlement(events[i], output, errorOutput, tmpdir);
        }
      }
      i := i + 1;
    }
    assert events[..i] == events;
  }

  /** `packTestPackage` rejects exactly when `npm pack` exits with a
      non-zero code (or cannot be spawned), and otherwise resolves with
      the temporary folder joined with what it printed. */
  lemma PackRejectsIffNonZeroExit(output: string, errorOutput: string, tmpdir: string, code: Option<int>)
    ensures PackSettlement(Exit(code), output, errorOutput, tmpdir).Rejected? <==> code.Some? && code.value != 0
    ensures code.Some? && code.value != 0 ==>
              var m := PackSettlement(Exit(code), output, errorOutput, tmpdir).reason.message;
              PackErrorPrefix <= m && (errorOutput != "" ==> Contains(m, errorOutput))
  {
    if code.Some? && code.value != 0 {
      ExitReasonMentions(code.value, errorOutput);
      if errorOutput != "" {
        ContainsAfter(PackErrorPrefix + EOL, ExitReason(code.value, errorOutput), errorOutput);
      }
    }
  }

  class RemoteSuite {
    const base: SuiteBase
    const remoteIp: string
    const remotePort: string
    /** The URL of the agent connection opened by `setup`. */
    var remoteTest: Option<string>
    var testPackageName: Option<string>
    /** Every action asked of the agent, in order. */
    var performed: seq<Action>

    constructor (files: seq<string>, testPath: string, ip: string, port: string, options: Option<BuildOptions>)
      ensures base == NewSuiteBase(files, testPath, options)
      ensures remoteIp == ip && remotePort == port
      ensures remoteTest.None? && testPackageName.None? && performed == []
    {
      base := NewSuiteBase(files, testPath, options);
      remoteIp := ip;
      remotePort := port;
      remoteTest := None;
      testPackageName := None;
      performed := [];
    }

    /** Performs `actions` one after the other, each once the one before
        it resolved. */
    method Perform(actions: seq<Action>, agent: Action -> Promise<string>) returns (p: Promise<string>)
      modifies this`performed
      ensures performed == old(performed) + actions[..Performed(actions, agent)]
      ensures p == ChainResult(actions, agent)
    {
      ghost var steps := Settlements(actions, agent);
      ghost var k := FirstUnresolved(steps);
      p := Resolved("");
      var i := 0;
      while i < |actions| && p.Resolved?
        invariant 0 <= i <= |actions|
        invariant p.Resolved? ==> i <= k
        invariant !p.Resolved? ==> i == k + 1
        invariant performed == old(performed) + actions[..i]
        invariant p == (if i == 0 then Resolved("") else steps[i - 1])
      {
        assert actions[..i + 1] == actions[..i] + [actions[i]];
        performed := performed + [actions[i]];
        p := agent(actions[i]);
        i := i + 1;
      }
    }

    /** `uploadTestPackage`: packs the package, uploads the archive, removes
        the local copy, installs the archive on the agent, and records the
        package name from the install output. */
    method UploadTestPackage(packEvents: seq<ProcessEvent>, tmpdir: string, agent: Action -> Promise<string>) returns (p: Promise<()>)
      modifies this`performed, this`testPackageName
      ensures performed == old(performed) + UploadSteps(PackOutcome(packEvents, tmpdir), agent)
      ensures p == UploadOutcome(PackOutcome(packEvents, tmpdir), agent)
      ensures testPackageName == (if p.Resolved? then Some(InstalledName(PackOutcome(packEvents, tmpdir), agent)) else old(testPackageName))
    {
      var packed := PackTestPackage(packEvents, tmpdir);
      if !packed.Resolved? {
        assert UploadSteps(packed, agent) == [];
        return Done(packed);
      }
      var tgz := Basename(packed.value);
      performed := performed + [Upload(tgz)];
      var uploaded := agent(Upload(tgz));
      if !uploaded.Resolved? {
        assert UploadSteps(packed, agent) == [Upload(tgz)];
        return Done(uploaded);
      }
      performed := performed + [RemoveLocal(packed.value)];
      var removed := agent(RemoveLocal(packed.value));
      if !removed.Resolved? {
        assert UploadSteps(packed, agent) == [Upload(tgz), RemoveLocal(packed.value)];
        return Done(removed);
      }
      performed := performed + [Run(InstallCommand(tgz))];
      assert performed == old(performed) + UploadSteps(packed, agent);
      var installed := agent(Run(InstallCommand(tgz)));
      if installed.Resolved? {
        testPackageName := Some(PackageName(installed.value));
      }
      p := Done(installed);
    }

    /** `setup`: connects to the agent and, once it is ready, uploads the
        package, then the sources when a sources folder is set, then runs
        the setup script when one is set, and finally asks for mocha to be
        installed without waiting for it. */
    method Setup(ready: Promise<()>, packEvents: seq<ProcessEvent>, tmpdir: string, agent: Action -> Promise<string>) returns (p: Promise<()>)
      modifies this`performed, this`testPackageName, this`remoteTest
      ensures remoteTest == Some(RemotebuildTestUrl(remoteIp, remotePort))
      ensures !ready.Resolved? ==> p == ready && performed == old(performed) && testPackageName == old(testPackageName)
      ensures var packed := PackOutcome(packEvents, tmpdir);
              ready.Resolved? && !UploadOutcome(packed, agent).Resolved? ==>
                && p == UploadOutcome(packed, agent)
                && performed == old(performed) + UploadSteps(packed, agent)
                && testPackageName == old(testPackageName)
      ensures var packed := PackOutcome(packEvents, tmpdir);
              ready.Resolved? && UploadOutcome(packed, agent).Resolved? ==>
                var name := Some(InstalledName(packed, agent));
                var post := PostInstallActions(base, name);
                && testPackageName == name
                && (ChainResult(post, agent).Resolved? ==>
                      p == Resolved(()) && performed == old(performed) + UploadSteps(packed, agent) + post + [Run(MochaInstall)])
                && (!ChainResult(post, agent).Resolved? ==>
                      p == Done(ChainResult(post, agent)) && performed == old(performed) + UploadSteps(packed, agent) + post[..Performed(post, agent)])
    {
      remoteTest := Some(RemotebuildTestUrl(remoteIp, remotePort));
      if !ready.Resolved? {
        return ready;
      }
      var uploaded := UploadTestPackage(packEvents, tmpdir, agent);
      if !uploaded.Resolved? {
        return uploaded;
      }
      var rest := Perform(PostInstallActions(base, testPackageName), agent);
      if !rest.Resolved? {
        return Done(rest);
      }
      performed := performed + [Run(MochaInstall)];
      p := Resolved(());
    }

    /** `launch`: runs mocha in the installed package on the agent. */
    method Launch(agent: Action -> Promise<string>) returns (p: Promise<()>)
      modifies this`performed
      ensures var cmd := LaunchCommand(Formatted(testPackageName), base.testFiles, base.mochaReporter);
              performed == old(performed) + [Run(cmd)] && p == Done(agent(Run(cmd)))
    {
      var cmd := LaunchCommand(Formatted(testPackageName), base.testFiles, base.mochaReporter);
      performed := performed + [Run(cmd)];
      p := Done(agent(Run(cmd)));
    }

    /** `run` for this suite: the launch happens only after the setup
        resolved, and the result is `AbstractSuite.Run` of the two. */
    method RunSuite(ready: Promise<()>, packEvents: seq<ProcessEvent>, tmpdir: string, agent: Action -> Promise<string>)
      returns (setup: Promise<()>, p: Promise<()>)
      modifies this`performed, this`testPackageName, this`remoteTest
      ensures var cmd := LaunchCommand(Formatted(testPackageName), base.testFiles, base.mochaReporter);
              && p == AbstractSuite.Run(setup, Done(agent(Run(cmd))))
              && (setup.Resolved? ==> |performed| >= 2 && performed[|performed| - 2..] == [Run(MochaInstall), Run(cmd)])
      ensures !ready.Resolved? ==> setup == ready && p == ready && performed == old(performed)
    {
      setup := Setup(ready, packEvents, tmpdir, agent);
      var launch: Promise<()> := Pending;
      if setup.Resolved? {
        launch := Launch(agent);
      }
      p := AbstractSuite.Run(setup, launch);
    }
  }

  /** How `packTestPackage` settles for the given events. */
  function PackOutcome(events: seq<ProcessEvent>, tmpdir: string): (p: Promise<string>)
    ensures FirstSettling(events) == |events| ==> p == Pending
  {
    var k := FirstSettling(events);
    if k == |events| then Pending
    else PackSettlement(events[k], StdoutOf(events[..k]), StderrOf(events[..k]), tmpdir)
  }

  /** The command that installs an uploaded archive on the agent. */
  function InstallCommand(archive: string): string {
    "npm install " + archive
  }

  /** The actions of `uploadTestPackage` once packing settled as `packed`:
      none when packing failed, then the upload, then, once the upload
      resolved, the local removal, and once that succeeded the install. */
  function UploadSteps(packed: Promise<string>, agent: Action -> Promise<string>): (steps: seq<Action>)
    ensures packed.Resolved? <==> steps != []
    ensures packed.Resolved? ==> steps[0] == Upload(Basename(packed.value))
    ensures |steps| >= 2 <==> packed.Resolved? && agent(Upload(Basename(packed.value))).Resolved?
    ensures |steps| >= 2 ==> steps[1] == RemoveLocal(packed.value)
    ensures |steps| == 3 <==>
              && packed.Resolved? && agent(Upload(Basename(packed.value))).Resolved?
              && agent(RemoveLocal(packed.value)).Resolved?
    ensures |steps| == 3 ==> steps[2] == Run(InstallCommand(Basename(packed.value)))
  {
    if !packed.Resolved? then []
    else
      var tgz := Basename(packed.value);
      if !agent(Upload(tgz)).Resolved? then [Upload(tgz)]
      else if !agent(RemoveLocal(packed.value)).Resolved? then [Upload(tgz), RemoveLocal(packed.value)]
      else [Upload(tgz), RemoveLocal(packed.value), Run(InstallCommand(tgz))]
  }

  /** How `uploadTestPackage` settles: as the first of packing, upload,
      local removal and install that does not resolve, else resolved. */
  function UploadOutcome(packed: Promise<string>, agent: Action -> Promise<string>): (p: Promise<()>)
    ensures p.Resolved? <==>
              && packed.Resolved?
              && agent(Upload(Basename(packed.value))).Resolved?
              && agent(RemoveLocal(packed.value)).Resolved?
              && agent(Run(InstallCommand(Basename(packed.value)))).Resolved?
    ensures !packed.Resolved? ==> p == Done(packed)
    ensures packed.Resolved? && agent(Upload(Basename(packed.value))).Resolved? && agent(RemoveLocal(packed.value)).Rejected? ==>
              p == Done(agent(RemoveLocal(packed.value)))
    ensures p.Rejected? && packed.Resolved? && agent(Upload(Basename(packed.value))).Resolved? && agent(RemoveLocal(packed.value)).Resolved? ==>
              p == Done(agent(Run(InstallCommand(Basename(packed.value)))))
  {
    if !packed.Resolved? then Done(packed)
    else
      var tgz := Basename(packed.value);
      if !agent(Upload(tgz)).Resolved? then Done(agent(Upload(tgz)))
      else if !agent(RemoveLocal(packed.value)).Resolved? then Done(agent(RemoveLocal(packed.value)))
      else Done(agent(Run(InstallCommand(tgz))))
  }

  /** The package name `uploadTestPackage` records: what the install printed
      before its first '@'. */
  function InstalledName(packed: Promise<string>, agent: Action -> Promise<string>): string
    requires packed.Resolved? && agent(Run(InstallCommand(Basename(packed.value)))).Resolved?
  {
    PackageName(agent(Run(InstallCommand(Basename(packed.value)))).value)
  }

  /** The agent actions after the package is installed: the sources upload
      when a sources folder is set, then the setup script when one is set. */
  function PostInstallActions(base: SuiteBase, packageName: Option<string>): (actions: seq<Action>)
    ensures base.sourcesPath != "" ==> SourcesActions(base.sourcesPath) <= actions
    ensures base.sourcesPath == "" ==> actions == (if base.setupScript != "" then [Run(SetupScriptCommand(packageName, base.setupScript))] else [])
    ensures |actions| == (if base.sourcesPath != "" then 4 else 0) + (if base.setupScript != "" then 1 else 0)
    ensures base.setupScript != "" ==> actions[|actions| - 1] == Run(SetupScriptCommand(packageName, base.setupScript))
  {
    (if base.sourcesPath != "" then SourcesActions(base.sourcesPath) else [])
      + (if base.setupScript != "" then [Run(SetupScriptCommand(packageName, base.setupScript))] else [])
  }
}
