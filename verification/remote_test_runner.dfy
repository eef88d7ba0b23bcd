/** The entry point of the remote test runner: the command line is parsed
    into a test package folder, an optional sources folder, an optional
    mocha reporter and the remaining arguments; the folders are checked
    against the file system; the test configuration file must hold a
    `suites` array. The working directory, the file system and the
    configuration file's parsed content are inputs. */
module RemoteTestRunner {
  import opened Common
  import opened RunnerInterfaces

  const CommandName: string := "remote-test-runner"
  const ConfigFileName: string := "testConfig.json"
  const PackageJsonName: string := "package.json"
  const ReporterFlag: string := "--reporter"

  const UsageMessage: string :=
    "Invalid command. Usage:" + EOL + "    " + CommandName + " TEST_PACKAGE_FOLDER [SOURCES_FOLDER] [--reporter MOCHA_REPORTER]"

  /** `args.indexOf(x)`. */
  function IndexOfElem(args: seq<string>, x: string): (i: int)
    ensures -1 <= i < |args|
    ensures i == -1 <==> x !in args
    ensures i >= 0 ==> args[i] == x && x !in args[..i]
  {
    if args == [] then -1
    else if args[0] == x then 0
    else
      var j := IndexOfElem(args[1..], x);
      assert forall k :: 0 <= k < |args| - 1 ==> args[1..][k] == args[k + 1];
      if j == -1 then -1
      else
        assert args[..j + 1] == [args[0]] + args[1..][..j];
        j + 1
  }

  /** Where `x` first occurs after a prefix without it. */
  lemma IndexOfElemAfter(a: seq<string>, x: string, b: seq<string>)
    requires x !in a
    ensures IndexOfElem(a + [x] + b, x) == |a|
  {
    var s := a + [x] + b;
    assert s[|a|] == x;
    assert s[..|a|] == a;
  }

  function Min(a: int, b: int): int {
    if a <= b then a else b
  }

  /** The arguments after the first `--reporter` and the value after it
      are taken out, and that value (`""` when the flag is last). */
  function DropReporter(args: seq<string>): (seq<string>, string) {
    var i := IndexOfElem(args, ReporterFlag);
    if i == -1 then (args, "")
    else
      var end := Min(i + 2, |args|);
      (args[..i] + args[end..], if end - i == 2 then args[i + 1] else "")
  }

  /** What `parseArgs` makes of `argv` with `cwd` as working directory:
      the first two entries are dropped, the first `--reporter` and its
      value are taken out, the first remaining argument is the test
      package folder and the second the sources folder (both resolved),
      and the rest is `remain`. Empty optional fields are left out. */
  function ParsedArgsOf(argv: seq<string>, cwd: string): Result<ParsedArgs> {
    var args := argv[Min(2, |argv|)..];
    var (kept, reporter) := DropReporter(args);
    if kept == [] then Err(UsageMessage)
    else
      var sources := if |kept| >= 2 then ResolvePath(cwd, kept[1]) else "";
      var remain := if |kept| >= 2 then kept[2..] else [];
      Ok(ParsedArgs(
        ResolvePath(cwd, kept[0]),
        if sources != "" then Some(sources) else None,
        if reporter != "" then Some(reporter) else None,
        if remain != [] then Some(remain) else None))
  }

  /** `parseArgs`, by the `splice` steps of the source. */
  method ParseArgs(argv: seq<string>, cwd: string) returns (r: Result<ParsedArgs>)
    ensures r == ParsedArgsOf(argv, cwd)
  {
    var args := argv;
    args := args[Min(2, |args|)..];
    var reporterIndex := IndexOfElem(args, ReporterFlag);
    var reporterValue := "";
    if reporterIndex != -1 {
      var end := Min(reporterIndex + 2, |args|);
      var removed := args[reporterIndex..end];
      args := args[..reporterIndex] + args[end..];
      if |removed| == 2 {
        reporterValue := removed[1];
      }
    }
    if |args| == 0 {
      return Err(UsageMessage);
    }
    var testPath := ResolvePath(cwd, args[0]);
    args := args[1..];
    var sourcesPath := "";
    if |args| > 0 {
      sourcesPath := ResolvePath(cwd, args[0]);
      args := args[1..];
    }
    var result := ParsedArgs(testPath, None, None, None);
    if reporterValue != "" {
      result := result.(reporter := Some(reporterValue));
    }
    if sourcesPath != "" {
      result := result.(sourcesPath := Some(sourcesPath));
    }
    if |args| > 0 {
      result := result.(remain := Some(args));
    }
    r := Ok(result);
  }

  /** The usage error comes exactly when no folder is named: nothing after
      the first two entries but a `--reporter` flag and its value. */
  lemma UsageErrorIffNoFolder(argv: seq<string>, cwd: string)
    ensures ParsedArgsOf(argv, cwd).Err? <==> |argv| <= 2 || (argv[2] == ReporterFlag && |argv| <= 4)
    ensures ParsedArgsOf(argv, cwd).Err? ==> ParsedArgsOf(argv, cwd).message == UsageMessage
  {
    var args := argv[Min(2, |argv|)..];
    if |argv| > 2 {
      assert args[0] == argv[2];
      var i := IndexOfElem(args, ReporterFlag);
      if i > 0 {
        assert (args[..i] + args[Min(i + 2, |args|)..])[0] == args[0];
      }
    }
  }

  /** A parse result with its reporter set from `reporter` (`""`: none). */
  function WithReporter(r: Result<ParsedArgs>, reporter: string): Result<ParsedArgs> {
    if r.Ok? then Ok(r.value.(reporter := if reporter != "" then Some(reporter) else None)) else r
  }

  /** `ParsedArgsOf` reads the arguments after the first two only through
      what `DropReporter` leaves of them and the value it takes out. */
  lemma ParsedThroughDrop(head: seq<string>, rest: seq<string>, cwd: string)
    requires |head| == 2 && ReporterFlag !in DropReporter(rest).0
    ensures ParsedArgsOf(head + rest, cwd) == WithReporter(ParsedArgsOf(head + DropReporter(rest).0, cwd), DropReporter(rest).1)
  {
    assert (head + rest)[2..] == rest;
    assert (head + DropReporter(rest).0)[2..] == DropReporter(rest).0;
  }

  lemma DropReporterAround(a: seq<string>, reporter: string, b: seq<string>)
    requires ReporterFlag !in a && ReporterFlag !in b
    ensures DropReporter(a + [ReporterFlag, reporter] + b) == (a + b, reporter)
  {
    var s := a + [ReporterFlag, reporter] + b;
    assert s == a + [ReporterFlag] + ([reporter] + b);
    IndexOfElemAfter(a, ReporterFlag, [reporter] + b);
    assert s[..|a|] == a && s[|a| + 2..] == b;
  }

  lemma DropReporterLast(a: seq<string>)
    requires ReporterFlag !in a
    ensures DropReporter(a + [ReporterFlag]) == (a, "")
  {
    var s := a + [ReporterFlag];
    assert s == a + [ReporterFlag] + [];
    IndexOfElemAfter(a, ReporterFlag, []);
    assert IndexOfElem(s, ReporterFlag) == |a|;
    assert Min(|a| + 2, |s|) == |a| + 1;
    assert s[..|a|] + s[|a| + 1..] == a;
  }

  /** A `--reporter r` pair may stand anywhere among the other arguments:
      it sets the reporter and changes nothing else. */
  lemma ReporterAnywhere(head: seq<string>, pos: seq<string>, i: int, reporter: string, cwd: string)
    requires |head| == 2 && ReporterFlag !in pos && 0 <= i <= |pos| && reporter != ""
    ensures var plain := ParsedArgsOf(head + pos, cwd);
            ParsedArgsOf(head + (pos[..i] + [ReporterFlag, reporter] + pos[i..]), cwd)
              == if plain.Ok? then Ok(plain.value.(reporter := Some(reporter))) else plain
  {
    assert pos == pos[..i] + pos[i..];
    assert ReporterFlag !in pos[..i] && ReporterFlag !in pos[i..];
    DropReporterAround(pos[..i], reporter, pos[i..]);
    ParsedThroughDrop(head, pos[..i] + [ReporterFlag, reporter] + pos[i..], cwd);
    ParsedThroughDrop(head, pos, cwd);
  }

  /** A `--reporter` flag with no value after it is dropped and sets no
      reporter. */
  lemma DanglingReporterIgnored(head: seq<string>, pos: seq<string>, cwd: string)
    requires |head| == 2 && ReporterFlag !in pos
    ensures ParsedArgsOf(head + (pos + [ReporterFlag]), cwd) == ParsedArgsOf(head + pos, cwd)
  {
    DropReporterLast(pos);
    ParsedThroughDrop(head, pos + [ReporterFlag], cwd);
    ParsedThroughDrop(head, pos, cwd);
  }

  // ---------------------------------------------------------------------
  // Validation

  /** Every check `validateArgs` makes holds. */
  predicate ArgsAcceptable(args: ParsedArgs, fs: FileSystem) {
    && IsDirectory(fs, args.testsPath)
    && PathJoin(args.testsPath, PackageJsonName) in fs
    && PathJoin(args.testsPath, ConfigFileName) in fs
    && (Truthy(args.sourcesPath) ==> IsDirectory(fs, args.sourcesPath.value))
  }

  function MissingPathMessage(what: string, p: string): string {
    "The specified " + what + " path does not exist: " + p
  }

  function NotDirectoryMessage(what: string, p: string): string {
    "The specified " + what + " path is not a directory: " + p
  }

  function MissingFileMessage(file: string, p: string): string {
    "The specified test package path does not contain a '" + file + "' file: " + p
  }

  /** `validateArgs`: the checks in their fixed order, the first failing
      one giving the error. */
  function ValidateArgs(args: ParsedArgs, fs: FileSystem): (r: Result<()>)
    ensures r.Ok? <==> ArgsAcceptable(args, fs)
    ensures args.testsPath !in fs ==> r == Err(MissingPathMessage("test package", args.testsPath))
    ensures args.testsPath in fs && !IsDirectory(fs, args.testsPath) ==>
              r == Err(NotDirectoryMessage("test package", args.testsPath))
    ensures IsDirectory(fs, args.testsPath) && PathJoin(args.testsPath, PackageJsonName) !in fs ==>
              r == Err(MissingFileMessage(PackageJsonName, args.testsPath))
    ensures IsDirectory(fs, args.testsPath) && PathJoin(args.testsPath, PackageJsonName) in fs
            && PathJoin(args.testsPath, ConfigFileName) !in fs ==>
              r == Err(MissingFileMessage(ConfigFileName, args.testsPath))
    ensures r.Err? && IsDirectory(fs, args.testsPath) && PathJoin(args.testsPath, PackageJsonName) in fs
            && PathJoin(args.testsPath, ConfigFileName) in fs ==>
              Truthy(args.sourcesPath) && !IsDirectory(fs, args.sourcesPath.value)
  {
    var t := args.testsPath;
    if t !in fs then Err(MissingPathMessage("test package", t))
    else if fs[t] != Directory then Err(NotDirectoryMessage("test package", t))
    else if PathJoin(t, PackageJsonName) !in fs then Err(MissingFileMessage(PackageJsonName, t))
    else if PathJoin(t, ConfigFileName) !in fs then Err(MissingFileMessage(ConfigFileName, t))
    else if Truthy(args.sourcesPath) && args.sourcesPath.value !in fs then
      Err(MissingPathMessage("sources folder", args.sourcesPath.value))
    else if Truthy(args.sourcesPath) && fs[args.sourcesPath.value] != Directory then
      Err(NotDirectoryMessage("sources folder", args.sourcesPath.value))
    else Ok(())
  }

  // ---------------------------------------------------------------------
  // The configuration file

  /** The `suites` property of the parsed file. */
  datatype SuitesField = SuitesArray(configs: seq<SuiteConfig>) | SuitesMissing | SuitesNotArray

  /** Reading and parsing the configuration file: a failure and its
      message, a root that is JSON `null`, or the `suites` property of the
      parsed root (any other root has no `suites` array). */
  datatype ConfigRead = ReadFailed(message: string) | RootNull | ConfigParsed(suites: SuitesField)

  const ConfigReadErrorHeader: string := "Error reading the test configuration file:"
  const InvalidConfigMessage: string := "The test config file is not valid: the root object does not have a 'suites' property, or has a 'suites' property that is not an array"

  /** The TypeError that reading `suites` off a `null` root throws (the
      wording of the Node releases of the time). */
  const NullRootMessage: string := "Cannot read property 'suites' of null"

  /** `parseTestConfig`: the file must be readable JSON whose root has a
      `suites` array; a `null` root fails on the property read itself,
      before the check can give its own message. */
  function ParseTestConfig(read: ConfigRead): (r: Result<TestConfig>)
    ensures r.Ok? <==> read.ConfigParsed? && read.suites.SuitesArray?
    ensures r.Ok? ==> r.value.suites == read.suites.configs
    ensures read.ReadFailed? ==> r == Err(ConfigReadErrorHeader + EOL + read.message)
    ensures read.RootNull? ==> r == Err(NullRootMessage)
    ensures read.ConfigParsed? && !read.suites.SuitesArray? ==>
              r == Err(InvalidConfigMessage)
  {
    match read
    case ReadFailed(message) => Err(ConfigReadErrorHeader + EOL + message)
    case RootNull => Err(NullRootMessage)
    case ConfigParsed(suites) =>
      if suites.SuitesArray? then Ok(TestConfig(suites.configs))
      else Err(InvalidConfigMessage)
  }
}
