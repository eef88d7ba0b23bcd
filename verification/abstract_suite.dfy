/** What every test suite shares: the fields its constructor fills from
    the build options, and `run`, which launches the tests only once the
    suite's setup has resolved. How a setup or a launch settles is an
    input. */
module AbstractSuite {
  import opened Common
  import opened RunnerInterfaces

  /** The fields of a suite; the optional ones are `""` when unset. */
  datatype SuiteBase = SuiteBase(testFiles: seq<string>, testPackage: string, mochaReporter: string, setupScript: string, sourcesPath: string)

  /** `options && options.field || ""`. */
  function OrEmpty(field: Option<string>): (s: string)
    ensures s == "" <==> !Truthy(field)
    ensures s != "" ==> field == Some(s)
  {
    if Truthy(field) then field.value else ""
  }

  /** The constructor: files and test package stored as given, the
      reporter, setup script and sources folder taken from the options
      when there are options and the field is set and non-empty. */
  function NewSuiteBase(files: seq<string>, testPath: string, options: Option<BuildOptions>): (b: SuiteBase)
    ensures b.testFiles == files && b.testPackage == testPath
    ensures b.mochaReporter == "" <==> options.None? || !Truthy(options.value.mochaReporter)
    ensures b.setupScript == "" <==> options.None? || !Truthy(options.value.setupScript)
    ensures b.sourcesPath == "" <==> options.None? || !Truthy(options.value.sourcesPath)
    ensures b.mochaReporter != "" ==> options.value.mochaReporter == Some(b.mochaReporter)
    ensures b.setupScript != "" ==> options.value.setupScript == Some(b.setupScript)
    ensures b.sourcesPath != "" ==> options.value.sourcesPath == Some(b.sourcesPath)
  {
    if options.None? then SuiteBase(files, testPath, "", "", "")
    else SuiteBase(files, testPath, OrEmpty(options.value.mochaReporter), OrEmpty(options.value.setupScript), OrEmpty(options.value.sourcesPath))
  }

  /** The default `setup`: resolves at once and does nothing. */
  function DefaultSetup(): Promise<()> {
    Resolved(())
  }

  /** `run`: `setup().then(() => launch())`, where `launch` is how the
      launch would settle once started. */
  function Run(setup: Promise<()>, launch: Promise<()>): (p: Promise<()>)
    ensures setup.Resolved? ==> p == launch
    ensures !setup.Resolved? ==> p == setup
  {
    Then(setup, launch)
  }

  /** `run` is a chain of one step after the setup: the launch is started
      once when the setup resolved and never otherwise, and with the
      default setup `run` is the launch itself. */
  lemma RunIsOneStepChain(setup: Promise<()>, launch: Promise<()>)
    ensures Run(setup, launch) == ChainSteps(setup, [launch])
    ensures StepsStarted(setup, [launch]) == (if setup.Resolved? then 1 else 0)
    ensures Run(DefaultSetup(), launch) == launch
  {
    var steps := [launch];
    assert steps[1..] == [];
  }
}
