/** The shapes the remote test runner passes around: the suite entries of
    the test configuration file, the parsed command line, and the options
    a suite is built with. A JSON field that is absent is None. */
module RunnerInterfaces {
  import opened Common

  /** One entry of `suites`; `testFiles` is None when it is not an array. */
  datatype SuiteConfig = SuiteConfig(
    cloneVm: Option<bool>,
    keepVmOnTestPass: Option<bool>,
    name: Option<string>,
    remoteIp: Option<string>,
    remotePort: Option<string>,
    setupScript: Option<string>,
    testFiles: Option<seq<string>>,
    suiteType: Option<string>,
    vmTemplate: Option<string>,
    vmStartupPort: Option<string>)

  datatype TestConfig = TestConfig(suites: seq<SuiteConfig>)

  datatype ParsedArgs = ParsedArgs(testsPath: string, sourcesPath: Option<string>, reporter: Option<string>, remain: Option<seq<string>>)

  /** The build options of a suite, the VM-only fields included. */
  datatype BuildOptions = BuildOptions(
    mochaReporter: Option<string>,
    name: Option<string>,
    setupScript: Option<string>,
    sourcesPath: Option<string>,
    cloneVm: Option<bool>,
    keepVmOnTestPass: Option<bool>)

  const NoOptions: BuildOptions := BuildOptions(None, None, None, None, None, None)

  /** What the file system holds at a path. */
  datatype Entry = File | Directory

  /** The file system as far as the runner looks at it. */
  type FileSystem = map<string, Entry>

  predicate IsDirectory(fs: FileSystem, p: string) {
    p in fs && fs[p] == Directory
  }
}
