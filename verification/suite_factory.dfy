/** Turning the `suites` entries of the test configuration into suites:
    each entry is validated in a fixed order (type, test files, setup
    script, then the attributes of its kind) and the first entry that
    fails aborts the whole build. `glob.sync` and `path.relative` are
    given functions; the file system is a map. */
module SuiteFactory {
  import opened Common
  import opened RunnerInterfaces
  import RemotebuildUtils

  datatype SuiteKind = Local | Remote | Vm

  /** The suite constructor a configuration entry leads to, with its
      arguments. */
  datatype SuiteSpec =
    | LocalSpec(files: seq<string>, testsPath: string, options: BuildOptions)
    | RemoteSpec(files: seq<string>, testsPath: string, ip: string, port: string, options: BuildOptions)
    | VmSpec(files: seq<string>, testsPath: string, template: string, startupPort: string, options: BuildOptions)

  /** `glob.sync(pattern, { cwd })`. */
  type Glob = (string, string) -> seq<string>

  /** `path.relative(from, to)`. */
  type Relative = (string, string) -> string

  const NoTypeMessage: string := "The suite does not have a 'type' attribute"
  const TestFilesMessage: string := "The suite does not have a 'testFiles' attribute, or has a 'testFiles' attribute that is not an array"
  const NoFilesMessage: string := "The 'testFiles' attribute is empty, or does not resolve to any file (at least one test file is needed)"
  const ScriptMissingMessage: string := "The path in the 'setupScript' attribute does not exist"
  const ScriptIsDirectoryMessage: string := "The path in the 'setupScript' attribute is a directory (it needs to be a file)"
  const ScriptOutsideMessage: string := "The path in the 'setupScript' attribute must be under the specified test folder"

  // ---------------------------------------------------------------------
  // Suite types

  /** What indexing the numeric enum `SuiteType` by a string gives: a
      member for a member name, and the member's NAME for "0", "1" or "2"
      (TypeScript's reverse mapping). */
  datatype EnumValue = Member(kind: SuiteKind) | MemberName(name: string)

  /** `getSuiteTypeFromString` as written: upper-cases the name and accepts
      every own property of the enum object, the reverse-mapping keys
      "0", "1" and "2" included. */
  function GetSuiteTypeFromString(s: string): (r: Result<EnumValue>)
    ensures r.Err? <==> ToUpper(s) !in {"LOCAL", "REMOTE", "VM", "0", "1", "2"}
    ensures r.Err? ==> r.message == "Invalid suite type: " + s
  {
    var upper := ToUpper(s);
    if upper == "LOCAL" then Ok(Member(Local))
    else if upper == "REMOTE" then Ok(Member(Remote))
    else if upper == "VM" then Ok(Member(Vm))
    else if upper == "0" then Ok(MemberName("LOCAL"))
    else if upper == "1" then Ok(MemberName("REMOTE"))
    else if upper == "2" then Ok(MemberName("VM"))
    else Err("Invalid suite type: " + s)
  }

  /** The `switch` over the looked-up type: a name matches no case, so no
      suite is built and `null` is pushed. */
  function SwitchKind(v: EnumValue): Option<SuiteKind> {
    if v.Member? then Some(v.kind) else None
  }

  /** A suite whose type is "0" passes the type check and builds nothing. */
  lemma NumericSuiteTypeBuildsNothing()
    ensures GetSuiteTypeFromString("0").Ok?
    ensures SwitchKind(GetSuiteTypeFromString("0").value) == None
    ensures SuiteTypeOf("0").Err?
  {
    assert ToUpper("0") == "0";
  }

  /** The suite type evidently meant: a member name, in any case. */
  function SuiteTypeOf(s: string): (r: Result<SuiteKind>)
    ensures r.Ok? <==> ToUpper(s) in {"LOCAL", "REMOTE", "VM"}
    ensures r.Err? ==> r.message == "Invalid suite type: " + s
    ensures r == Ok(Local) <==> ToUpper(s) == "LOCAL"
    ensures r == Ok(Remote) <==> ToUpper(s) == "REMOTE"
    ensures r == Ok(Vm) <==> ToUpper(s) == "VM"
  {
    var upper := ToUpper(s);
    if upper == "LOCAL" then Ok(Local)
    else if upper == "REMOTE" then Ok(Remote)
    else if upper == "VM" then Ok(Vm)
    else Err("Invalid suite type: " + s)
  }

  /** On member names the two lookups agree; elsewhere the intended one
      rejects whatever the written one does. */
  lemma SuiteTypeAgreesOnNames(s: string)
    ensures SuiteTypeOf(s).Ok? ==> GetSuiteTypeFromString(s) == Ok(Member(SuiteTypeOf(s).value))
    ensures GetSuiteTypeFromString(s).Err? ==> SuiteTypeOf(s) == Err(GetSuiteTypeFromString(s).message)
  {
  }

  // ---------------------------------------------------------------------
  // Test files

  /** Each pattern with its backslashes turned into '/'. */
  function ForwardSlashes(p: string): (q: string)
    ensures '\\' !in q && |q| == |p|
  {
    ReplaceChar(p, '\\', '/')
  }

  /** `resolveFiles`: the files of every pattern, in pattern order. */
  function ResolveFiles(globs: seq<string>, testPackage: string, glob: Glob): (files: seq<string>)
    ensures forall f :: f in files ==> exists i :: 0 <= i < |globs| && f in glob(ForwardSlashes(globs[i]), testPackage)
  {
    if globs == [] then []
    else glob(ForwardSlashes(globs[0]), testPackage) + ResolveFiles(globs[1..], testPackage, glob)
  }

  /** Resolving two lists of patterns is resolving each and concatenating:
      the order of the patterns is the order of the files. */
  lemma {:induction false} ResolveFilesAppend(g1: seq<string>, g2: seq<string>, testPackage: string, glob: Glob)
    ensures ResolveFiles(g1 + g2, testPackage, glob) == ResolveFiles(g1, testPackage, glob) + ResolveFiles(g2, testPackage, glob)
  {
    if g1 == [] {
      assert g1 + g2 == g2;
    } else {
      var head := glob(ForwardSlashes(g1[0]), testPackage);
      assert (g1 + g2)[0] == g1[0];
      assert (g1 + g2)[1..] == g1[1..] + g2;
      ResolveFilesAppend(g1[1..], g2, testPackage, glob);
      ConcatAssoc(head, ResolveFiles(g1[1..], testPackage, glob), ResolveFiles(g2, testPackage, glob));
    }
  }

  /** Every file any pattern matches is resolved. */
  lemma {:induction false} ResolveFilesComplete(globs: seq<string>, testPackage: string, glob: Glob, i: int, f: string)
    requires 0 <= i < |globs| && f in glob(ForwardSlashes(globs[i]), testPackage)
    ensures f in ResolveFiles(globs, testPackage, glob)
  {
    if i > 0 {
      ResolveFilesComplete(globs[1..], testPackage, glob, i - 1, f);
    }
  }

  // ---------------------------------------------------------------------
  // The setup script

  /** The check as written: `scriptFullPath.indexOf(testsPath) === 0`, a
      plain text prefix. */
  predicate ScriptUnderTestsAsWritten(testsPath: string, fullPath: string): (b: bool)
    ensures b <==> |testsPath| <= |fullPath| && fullPath[..|testsPath|] == testsPath
  {
    testsPath <= fullPath
  }

  /** The test folder as a prefix of the paths inside it: its path with a
      trailing '/', added only when it does not end in one already (so the
      root "/" stays "/"). */
  function FolderPrefix(testsPath: string): (prefix: string)
    ensures testsPath <= prefix && |prefix| > 0 && prefix[|prefix| - 1] == '/'
    ensures |prefix| <= |testsPath| + 1
  {
    if |testsPath| > 0 && testsPath[|testsPath| - 1] == '/' then testsPath else testsPath + "/"
  }

  /** The check evidently meant: the script lies inside the test folder. */
  predicate ScriptUnderTests(testsPath: string, fullPath: string) {
    FolderPrefix(testsPath) <= fullPath
  }

  /** A script in a sibling folder whose name extends the test folder's
      passes the written check but is not under the test folder. */
  lemma SiblingFolderPassesPrefixCheck()
    ensures ScriptUnderTestsAsWritten("/t/pkg", "/t/pkg2/s.js")
    ensures !ScriptUnderTests("/t/pkg", "/t/pkg2/s.js")
  {
    assert ("/t/pkg2/s.js")[..6] == "/t/pkg";
    assert FolderPrefix("/t/pkg")[6] != ("/t/pkg2/s.js")[6];
  }

  /** The intended check accepts exactly the paths that continue the test
      folder's path after a '/' (its own trailing one, or one added), and
      implies the written one. A folder given with a trailing '/', the
      root among them, still accepts the scripts inside it. */
  lemma ScriptUnderTestsMeansInside(testsPath: string, fullPath: string)
    ensures var prefix := FolderPrefix(testsPath);
            ScriptUnderTests(testsPath, fullPath) <==> |prefix| <= |fullPath| && fullPath == prefix + fullPath[|prefix|..]
    ensures ScriptUnderTests(testsPath, fullPath) ==> ScriptUnderTestsAsWritten(testsPath, fullPath)
    ensures ScriptUnderTests("/", "/s.js")
  {
    var prefix := FolderPrefix(testsPath);
    if ScriptUnderTests(testsPath, fullPath) {
      assert fullPath == fullPath[..|prefix|] + fullPath[|prefix|..];
      assert fullPath[..|testsPath|] == prefix[..|testsPath|] == testsPath;
    }
    if |prefix| <= |fullPath| && fullPath == prefix + fullPath[|prefix|..] {
      assert fullPath[..|prefix|] == prefix;
    }
    assert FolderPrefix("/") == "/";
  }

  /** The setup script entry: made absolute against the test folder when
      relative, required to exist, to be a file and to lie under the test
      folder, and stored relative to the test folder with '/' separators. */
  function SetupScriptPath(script: string, testsPath: string, fs: FileSystem, relative: Relative): (r: Result<string>)
    ensures var full := if IsAbsolute(script) then script else PathJoin(testsPath, script);
            && (r.Ok? <==> full in fs && fs[full] == File && ScriptUnderTests(testsPath, full))
            && (full !in fs ==> r == Err(ScriptMissingMessage))
            && (full in fs && fs[full] == Directory ==> r == Err(ScriptIsDirectoryMessage))
            && (full in fs && fs[full] == File && !ScriptUnderTests(testsPath, full) ==> r == Err(ScriptOutsideMessage))
            && (r.Ok? ==> r.value == ForwardSlashes(relative(testsPath, full)))
    ensures r.Ok? ==> '\\' !in r.value
  {
    var full := if IsAbsolute(script) then script else PathJoin(testsPath, script);
    if full !in fs then Err(ScriptMissingMessage)
    else if fs[full] == Directory then Err(ScriptIsDirectoryMessage)
    else if !ScriptUnderTests(testsPath, full) then Err(ScriptOutsideMessage)
    else Ok(ForwardSlashes(relative(testsPath, full)))
  }

  // ---------------------------------------------------------------------
  // One suite

  /** The options every suite gets from the command line: the reporter and
      the sources folder, each only when set. */
  function ArgsOptions(args: ParsedArgs): (o: BuildOptions)
    ensures o.mochaReporter.Some? <==> Truthy(args.reporter)
    ensures o.sourcesPath.Some? <==> Truthy(args.sourcesPath)
    ensures o.mochaReporter.Some? ==> o.mochaReporter == args.reporter
    ensures o.sourcesPath.Some? ==> o.sourcesPath == args.sourcesPath
    ensures o.setupScript.None? && o.cloneVm.None? && o.keepVmOnTestPass.None? && o.name.None?
  {
    NoOptions.(mochaReporter := if Truthy(args.reporter) then args.reporter else None,
               sourcesPath := if Truthy(args.sourcesPath) then args.sourcesPath else None)
  }

  const NoRemoteIpMessage: string := "The suite does not have a 'remoteIp' attribute"
  const NoRemotePortMessage: string := "The suite does not have a 'remotePort' attribute"
  const NoTemplateMessage: string := "The suite does not have a 'vmTemplate' attribute"
  const NoStartupPortMessage: string := "The suite does not have a 'vmStartupPort' attribute"
  const BadRemotePortMessage: string := "The suite has an invalid 'remotePort' attribute: the value must be the string representation of a number between 1 and 65535"
  const BadStartupPortMessage: string := "The suite has an invalid 'vmStartupPort' attribute: the value must be the string representation of a number between 1 and 65535"

  /** `buildRemoteSuite`: an address, then a port, then a valid port. */
  function BuildRemoteSuite(config: SuiteConfig, files: seq<string>, testsPath: string, options: BuildOptions): (r: Result<SuiteSpec>)
    ensures r.Ok? <==> Truthy(config.remoteIp) && Truthy(config.remotePort) && RemotebuildUtils.IsPortValid(config.remotePort.value)
    ensures r.Ok? ==> r.value == RemoteSpec(files, testsPath, config.remoteIp.value, config.remotePort.value, options)
    ensures !Truthy(config.remoteIp) ==> r == Err(NoRemoteIpMessage)
    ensures Truthy(config.remoteIp) && !Truthy(config.remotePort) ==> r == Err(NoRemotePortMessage)
    ensures Truthy(config.remoteIp) && Truthy(config.remotePort) && !RemotebuildUtils.IsPortValid(config.remotePort.value) ==>
              r == Err(BadRemotePortMessage)
  {
    if !Truthy(config.remoteIp) then Err(NoRemoteIpMessage)
    else if !Truthy(config.remotePort) then Err(NoRemotePortMessage)
    else if !RemotebuildUtils.IsPortValid(config.remotePort.value) then Err(BadRemotePortMessage)
    else Ok(RemoteSpec(files, testsPath, config.remoteIp.value, config.remotePort.value, options))
  }

  /** The options of a VM suite: `cloneVm` and `keepVmOnTestPass` taken
      from the entry when it has them, everything else as given. */
  function VmOptions(config: SuiteConfig, options: BuildOptions): (o: BuildOptions)
    ensures o.cloneVm == (if config.cloneVm.Some? then config.cloneVm else options.cloneVm)
    ensures o.keepVmOnTestPass == (if config.keepVmOnTestPass.Some? then config.keepVmOnTestPass else options.keepVmOnTestPass)
    ensures o.(cloneVm := options.cloneVm, keepVmOnTestPass := options.keepVmOnTestPass) == options
  {
    var withClone := if config.cloneVm.Some? then options.(cloneVm := config.cloneVm) else options;
    if config.keepVmOnTestPass.Some? then withClone.(keepVmOnTestPass := config.keepVmOnTestPass) else withClone
  }

  /** `buildVMSuite`: a template, then a startup port, then a valid port. */
  function BuildVmSuite(config: SuiteConfig, files: seq<string>, testsPath: string, options: BuildOptions): (r: Result<SuiteSpec>)
    ensures r.Ok? <==> Truthy(config.vmTemplate) && Truthy(config.vmStartupPort) && RemotebuildUtils.IsPortValid(config.vmStartupPort.value)
    ensures r.Ok? ==> r.value == VmSpec(files, testsPath, config.vmTemplate.value, config.vmStartupPort.value, VmOptions(config, options))
    ensures !Truthy(config.vmTemplate) ==> r == Err(NoTemplateMessage)
    ensures Truthy(config.vmTemplate) && !Truthy(config.vmStartupPort) ==> r == Err(NoStartupPortMessage)
    ensures Truthy(config.vmTemplate) && Truthy(config.vmStartupPort) && !RemotebuildUtils.IsPortValid(config.vmStartupPort.value) ==>
              r == Err(BadStartupPortMessage)
  {
    if !Truthy(config.vmTemplate) then Err(NoTemplateMessage)
    else if !Truthy(config.vmStartupPort) then Err(NoStartupPortMessage)
    else if !RemotebuildUtils.IsPortValid(config.vmStartupPort.value) then Err(BadStartupPortMessage)
    else Ok(VmSpec(files, testsPath, config.vmTemplate.value, config.vmStartupPort.value, VmOptions(config, options)))
  }

  /** The `switch` on the suite type; a local suite needs no more checks. */
  function BuildKind(kind: SuiteKind, config: SuiteConfig, files: seq<string>, testsPath: string, options: BuildOptions): (r: Result<SuiteSpec>)
    ensures r.Ok? ==> r.value.files == files && r.value.testsPath == testsPath
    ensures r.Ok? ==> (r.value.LocalSpec? <==> kind == Local) && (r.value.RemoteSpec? <==> kind == Remote) && (r.value.VmSpec? <==> kind == Vm)
    ensures kind == Local ==> r == Ok(LocalSpec(files, testsPath, options))
    ensures kind != Vm && r.Ok? ==> r.value.options == options
    ensures kind == Vm && r.Ok? ==> r.value.options.(cloneVm := options.cloneVm, keepVmOnTestPass := options.keepVmOnTestPass) == options
  {
    match kind
    case Local => Ok(LocalSpec(files, testsPath, options))
    case Remote => BuildRemoteSuite(config, files, testsPath, options)
    case Vm => BuildVmSuite(config, files, testsPath, options)
  }

  /** The body of the `forEach` of `buildSuites` for one entry: the type,
      then the test files, then the setup script, then the kind's own
      attributes; the first failing check gives the error. */
  function BuildSuite(config: SuiteConfig, args: ParsedArgs, fs: FileSystem, glob: Glob, relative: Relative): (r: Result<SuiteSpec>)
    ensures !Truthy(config.suiteType) ==> r == Err(NoTypeMessage)
    ensures Truthy(config.suiteType) && SuiteTypeOf(config.suiteType.value).Err? ==>
              r == Err("Invalid suite type: " + config.suiteType.value)
    ensures Truthy(config.suiteType) && SuiteTypeOf(config.suiteType.value).Ok? && config.testFiles.None? ==>
              r == Err(TestFilesMessage)
    ensures Truthy(config.suiteType) && SuiteTypeOf(config.suiteType.value).Ok? && config.testFiles.Some?
            && ResolveFiles(config.testFiles.value, args.testsPath, glob) == [] ==>
              r == Err(NoFilesMessage)
    ensures Truthy(config.suiteType) && SuiteTypeOf(config.suiteType.value).Ok? && config.testFiles.Some?
            && ResolveFiles(config.testFiles.value, args.testsPath, glob) != [] && Truthy(config.setupScript)
            && SetupScriptPath(config.setupScript.value, args.testsPath, fs, relative).Err? ==>
              r == Err(SetupScriptPath(config.setupScript.value, args.testsPath, fs, relative).message)
    ensures r.Ok? ==>
              && Truthy(config.suiteType) && SuiteTypeOf(config.suiteType.value).Ok?
              && config.testFiles.Some?
              && r.value.files == ResolveFiles(config.testFiles.value, args.testsPath, glob) && r.value.files != []
              && r.value.testsPath == args.testsPath
              && (r.value.LocalSpec? <==> SuiteTypeOf(config.suiteType.value) == Ok(Local))
              && (r.value.RemoteSpec? <==> SuiteTypeOf(config.suiteType.value) == Ok(Remote))
              && (r.value.VmSpec? <==> SuiteTypeOf(config.suiteType.value) == Ok(Vm))
              && r.value.options.mochaReporter == ArgsOptions(args).mochaReporter
              && r.value.options.sourcesPath == ArgsOptions(args).sourcesPath
              && (r.value.options.setupScript.Some? <==> Truthy(config.setupScript))
              && (Truthy(config.setupScript) ==>
                    SetupScriptPath(config.setupScript.value, args.testsPath, fs, relative) == Ok(r.value.options.setupScript.value))
  {
    if !Truthy(config.suiteType) then Err(NoTypeMessage)
    else
      var kind := SuiteTypeOf(config.suiteType.value);
      if kind.Err? then Err(kind.message)
      else if config.testFiles.None? then Err(TestFilesMessage)
      else
        var files := ResolveFiles(config.testFiles.value, args.testsPath, glob);
        if files == [] then Err(NoFilesMessage)
        else
          var options := ArgsOptions(args);
          var script := if Truthy(config.setupScript) then SetupScriptPath(config.setupScript.value, args.testsPath, fs, relative) else Ok("");
          if script.Err? then Err(script.message)
          else
            var withScript := if Truthy(config.setupScript) then options.(setupScript := Some(script.value)) else options;
            BuildKind(kind.value, config, files, args.testsPath, withScript)
  }

  /** The error of entry `index`: its number, a line break, the cause. */
  function SuiteErrorMessage(index: nat, cause: string): string {
    "Error building suite #" + NatToString(index) + ":" + EOL + cause
  }

  /** The `forEach` of `buildSuites` over the entries, with `build` the
      body for one entry: the suites in entry order, or the error of the
      first entry that fails, prefixed with its index. */
  method BuildEach(entries: seq<SuiteConfig>, build: SuiteConfig -> Result<SuiteSpec>) returns (r: Result<seq<SuiteSpec>>)
    ensures r.Ok? <==> forall i :: 0 <= i < |entries| ==> build(entries[i]).Ok?
    ensures r.Ok? ==> |r.value| == |entries| && forall i :: 0 <= i < |entries| ==> build(entries[i]) == Ok(r.value[i])
    ensures r.Err? ==>
              exists k :: 0 <= k < |entries| && build(entries[k]).Err?
                && r.message == SuiteErrorMessage(k, build(entries[k]).message)
                && forall i :: 0 <= i < k ==> build(entries[i]).Ok?
  {
    var suites: seq<SuiteSpec> := [];
    var index := 0;
    while index < |entries|
      invariant 0 <= index <= |entries| && |suites| == index
      invariant forall i :: 0 <= i < index ==> build(entries[i]) == Ok(suites[i])
    {
      var built := build(entries[index]);
      if built.Err? {
        return Err(SuiteErrorMessage(index, built.message));
      }
      suites := suites + [built.value];
      index := index + 1;
    }
    r := Ok(suites);
  }

  /** `buildSuites`: one suite per entry, in order, or the error of the
      first entry that fails. */
  method BuildSuites(config: TestConfig, args: ParsedArgs, fs: FileSystem, glob: Glob, relative: Relative)
    returns (r: Result<seq<SuiteSpec>>)
    ensures r.Ok? <==> forall i :: 0 <= i < |config.suites| ==> BuildSuite(config.suites[i], args, fs, glob, relative).Ok?
    ensures r.Ok? ==>
              && |r.value| == |config.suites|
              && forall i :: 0 <= i < |config.suites| ==> BuildSuite(config.suites[i], args, fs, glob, relative) == Ok(r.value[i])
    ensures r.Err? ==>
              exists k :: 0 <= k < |config.suites|
                && BuildSuite(config.suites[k], args, fs, glob, relative).Err?
                && r.message == SuiteErrorMessage(k, BuildSuite(config.suites[k], args, fs, glob, relative).message)
                && forall i :: 0 <= i < k ==> BuildSuite(config.suites[i], args, fs, glob, relative).Ok?
  {
    r := BuildEach(config.suites, c => BuildSuite(c, args, fs, glob, relative));
  }
}
