/** The iOS build child process: the message handler that starts one
    build per process, and the steps of the iOS builder that decide
    something on their own — the cordova/node version gate before
    `prepare`, the names `package` gives its artifacts, the `.app` rename
    after `compile`, and the Xcode 8 development-team setting. The
    generic build sequence (`Builder`), cordova itself, `xcrun`,
    `xcodebuild` and the file system calls are inputs: how each of them
    settles is a parameter. */
module IosBuild {
  import opened Common

  /** `resources.getString(id, args...)`: a message id with its arguments
      (the localised texts are not part of this model). */
  datatype Resource = Resource(id: string, args: seq<string>)

  // ---------------------------------------------------------------------
  // The message handler and its run-once guard

  datatype BuildState = Building | Error

  /** What the process sends its parent: a status update of the build it
      was asked for, or the build information the builder finished with. */
  datatype Sent =
    | Update(state: BuildState, message: Resource)
    | Finished(report: string)

  /** How `TacoPackageLoader.lazyRequire` of the requested cordova settles:
      it fails with an error text, or cordova loads and the build then
      finishes with a report (`Some`) or never settles (`None`). */
  datatype CordovaLoad = LoadFailed(error: string) | Loaded(build: Option<string>)

  /** One build request: the UI language, the requested cordova version
      and how loading that version goes. */
  datatype BuildRequest = BuildRequest(language: string, cordovaVersion: string, load: CordovaLoad)

  const AcquiringCordova: Sent := Update(Building, Resource("AcquiringCordova", []))
  const BuildInvokedTwice: Sent := Update(Error, Resource("BuildInvokedTwice", []))

  /** What the first request makes the process send: the acquiring
      status, then the load failure or the finished build. */
  function FirstRequestMessages(r: BuildRequest): seq<Sent> {
    [AcquiringCordova] +
      match r.load
      case LoadFailed(e) => [Update(Error, Resource("RequireCordovaFailed", [r.cordovaVersion, e]))]
      case Loaded(Some(report)) => [Finished(report)]
      case Loaded(None) => []
  }

  /** The process as values: `IOSBuilder.running`, `process.env.TACO_LANG`,
      everything sent so far and the exit code once `process.exit` ran. */
  datatype ProcessState = ProcessState(running: bool, language: Option<string>, sent: seq<Sent>, exitCode: Option<int>)

  const Idle: ProcessState := ProcessState(false, None, [], None)

  /** The `message` handler: every request sets the language; a request
      after the first reports `BuildInvokedTwice` and exits with 1, the
      first one marks the builder running and builds. */
  function OnMessage(s: ProcessState, r: BuildRequest): (next: ProcessState)
    ensures next.running && next.language == Some(r.language)
    ensures s.sent < next.sent
    ensures s.running ==> next.exitCode == Some(1)
    ensures !s.running ==> next.exitCode == s.exitCode
  {
    if s.running then ProcessState(true, Some(r.language), s.sent + [BuildInvokedTwice], Some(1))
    else ProcessState(true, Some(r.language), s.sent + FirstRequestMessages(r), s.exitCode)
  }

  /** Requests delivered one after the other until the process exits. */
  function Deliver(s: ProcessState, requests: seq<BuildRequest>): ProcessState
    decreases |requests|
  {
    if requests == [] || s.exitCode.Some? then s else Deliver(OnMessage(s, requests[0]), requests[1..])
  }

  /** How many times the acquiring status was sent. */
  function Acquisitions(sent: seq<Sent>): nat
    decreases |sent|
  {
    if sent == [] then 0
    else Acquisitions(sent[..|sent| - 1]) + (if sent[|sent| - 1] == AcquiringCordova then 1 else 0)
  }

  lemma {:induction false} AcquisitionsAppend(a: seq<Sent>, b: seq<Sent>)
    ensures Acquisitions(a + b) == Acquisitions(a) + Acquisitions(b)
    decreases |b|
  {
    if b != [] {
      assert (a + b)[..|a + b| - 1] == a + b[..|b| - 1];
      AcquisitionsAppend(a, b[..|b| - 1]);
    } else {
      assert a + b == a;
    }
  }

  /** Whatever requests arrive, the process builds for the first one only:
      it sends what the first request calls for, and a second request
      adds `BuildInvokedTwice` and ends the process with exit code 1
      before any later request is seen. */
  lemma {:induction false} DeliverRunsOnce(requests: seq<BuildRequest>)
    requires requests != []
    ensures var s := Deliver(Idle, requests);
            && s.running
            && s.sent == FirstRequestMessages(requests[0]) + (if |requests| >= 2 then [BuildInvokedTwice] else [])
            && s.exitCode == (if |requests| >= 2 then Some(1) else None)
            && s.language == Some(requests[if |requests| >= 2 then 1 else 0].language)
  {
    var first := OnMessage(Idle, requests[0]);
    assert first.sent == FirstRequestMessages(requests[0]);
    if |requests| >= 2 {
      var second := OnMessage(first, requests[1]);
      assert second.exitCode.Some?;
      assert Deliver(first, requests[1..]) == Deliver(second, requests[2..]);
    } else {
      assert requests[1..] == [];
    }
  }

  /** The acquiring status, and with it the loading of cordova and the
      build, happens at most once per process. */
  lemma AcquiringAtMostOnce(requests: seq<BuildRequest>)
    ensures Acquisitions(Deliver(Idle, requests).sent) == (if requests == [] then 0 else 1)
  {
    if requests != [] {
      DeliverRunsOnce(requests);
      var r := requests[0];
      var rest := FirstRequestMessages(r)[1..];
      assert FirstRequestMessages(r) == [AcquiringCordova] + rest;
      AcquisitionsAppend([AcquiringCordova], rest);
      assert Acquisitions([AcquiringCordova]) == 1 by {
        assert [AcquiringCordova][..0] == [];
      }
      var tail: seq<Sent> := if |requests| >= 2 then [BuildInvokedTwice] else [];
      AcquisitionsAppend(FirstRequestMessages(r), tail);
      assert Acquisitions(tail) == 0 by {
        if tail != [] {
          assert tail[..0] == [];
        }
      }
      if r.load.LoadFailed? {
        assert rest == [Update(Error, Resource("RequireCordovaFailed", [r.cordovaVersion, r.load.error]))];
        assert rest[..0] == [];
      } else if r.load.build.Some? {
        assert rest == [Finished(r.load.build.value)];
        assert rest[..0] == [];
      }
    }
  }

  /** The process as an object: `IOSBuilder.running` is a static field,
      `process.send` appends to what the parent has received. */
  class BuildProcess {
    var running: bool
    var language: Option<string>
    var sent: seq<Sent>
    var exitCode: Option<int>

    function State(): ProcessState
      reads this
    {
      ProcessState(running, language, sent, exitCode)
    }

    constructor ()
      ensures State() == Idle
    {
      running, language, sent, exitCode := false, None, [], None;
    }

    /** The `message` handler; an exited process receives nothing more. */
    method HandleMessage(r: BuildRequest)
      requires exitCode.None?
      modifies this
      ensures State() == OnMessage(old(State()), r)
    {
      language := Some(r.language);
      if running {
        sent := sent + [BuildInvokedTwice];
        exitCode := Some(1);
        return;
      }
      running := true;
      sent := sent + [AcquiringCordova];
      match r.load
      case LoadFailed(e) =>
        sent := sent + [Update(Error, Resource("RequireCordovaFailed", [r.cordovaVersion, e]))];
      case Loaded(build) =>
        if build.Some? {
          sent := sent + [Finished(build.value)];
        }
    }
  }

  // ---------------------------------------------------------------------
  // beforePrepare: the cordova/node version gate

  /** A `major.minor.patch` version as semver orders it (pre-release tags
      and the parsing of version strings are not part of this model). */
  datatype Version = Version(major: nat, minor: nat, patch: nat)

  /** `semver.lt(a, b)`. */
  predicate VersionLess(a: Version, b: Version) {
    a.major < b.major || (a.major == b.major && (a.minor < b.minor || (a.minor == b.minor && a.patch < b.patch)))
  }

  const FirstCordovaForNode4: Version := Version(5, 3, 3)
  const Node4: Version := Version(4, 0, 0)

  /** semver's order is a strict total order. */
  lemma VersionOrder(a: Version, b: Version, c: Version)
    ensures !VersionLess(a, a)
    ensures VersionLess(a, b) && VersionLess(b, c) ==> VersionLess(a, c)
    ensures a == b || VersionLess(a, b) || VersionLess(b, a)
  {
  }

  /** `beforePrepare`: the build is refused when an older cordova than
      5.3.3 runs on node 4 or later and the project sets a target device
      or a deployment target. */
  function BeforePrepare(cordova: Version, node: Version, preferences: map<string, string>): (r: Result<()>)
    ensures r.Err? ==> r.message == "UnsupportedCordovaAndNodeVersion"
  {
    if VersionLess(cordova, FirstCordovaForNode4) && !VersionLess(node, Node4)
       && (Truthy(Lookup(preferences, "target-device")) || Truthy(Lookup(preferences, "deployment-target")))
    then Err("UnsupportedCordovaAndNodeVersion")
    else Ok(())
  }

  /** Cordova 5.3.3 and later, node before 4, and projects that set
      neither preference always pass the gate; an older cordova on node 4
      or later with a non-empty target device is refused. */
  lemma BeforePrepareGate(cordova: Version, node: Version, preferences: map<string, string>)
    ensures !VersionLess(cordova, FirstCordovaForNode4) ==> BeforePrepare(cordova, node, preferences).Ok?
    ensures VersionLess(node, Node4) ==> BeforePrepare(cordova, node, preferences).Ok?
    ensures "target-device" !in preferences && "deployment-target" !in preferences ==> BeforePrepare(cordova, node, preferences).Ok?
    ensures cordova.major < 5 && node.major >= 4 && "target-device" in preferences && preferences["target-device"] != "" ==>
              BeforePrepare(cordova, node, preferences).Err?
  {
  }

  // ---------------------------------------------------------------------
  // Build folders and package names

  /** `path.join("platforms", "ios", "build", folder)`. */
  function BuildDir(folder: string): string {
    PathJoin(PathJoin(PathJoin("platforms", "ios"), "build"), folder)
  }

  function AppDirName(id: string): string { id + ".app" }
  function IpaFileName(appName: string): string { appName + ".ipa" }
  function PlistFileName(appName: string): string { appName + ".plist" }

  /** What `package` does: the `xcrun` command line it runs, and how it
      settles given the error `xcrun` reports, with the enterprise plist
      it writes on success. */
  datatype PackageResult = PackageResult(command: string, outcome: Promise<()>, plist: Option<string>)

  /** `package`: `quote` is `UtilHelper.quotesAroundIfNecessary`, `cwd`
      is `process.cwd()`. */
  function Package(cwd: string, id: string, appName: string, quote: string -> string, xcrunError: Option<string>): (r: PackageResult)
    ensures r.outcome.Resolved? <==> xcrunError.None?
    ensures r.outcome.Rejected? <==> xcrunError.Some?
    ensures r.plist.Some? <==> xcrunError.None?
    ensures "xcrun -v -sdk iphoneos PackageApplication " <= r.command
  {
    var deviceDir := BuildDir("device");
    var appPath := quote(PathJoin(deviceDir, AppDirName(id)));
    var ipaPath := quote(PathJoin(PathJoin(cwd, deviceDir), IpaFileName(appName)));
    var command := "xcrun -v -sdk iphoneos PackageApplication " + appPath + " -o " + ipaPath;
    if xcrunError.Some? then PackageResult(command, Rejected(ErrorMessage(xcrunError.value)), None)
    else PackageResult(command, Resolved(()), Some(PathJoin(PathJoin(cwd, deviceDir), PlistFileName(appName))))
  }

  /** A name without '/' joined onto a folder is the base name of the
      result. */
  lemma {:induction false} BasenameAfterSlash(x: string, b: string)
    requires '/' !in b && (x == [] || x[|x| - 1] == '/')
    ensures Basename(x + b) == b
    decreases |b|
  {
    if b == [] {
      assert x + b == x;
    } else {
      var xb := x + b;
      assert xb[..|xb| - 1] == x + b[..|b| - 1];
      assert xb[|xb| - 1] == b[|b| - 1];
      BasenameAfterSlash(x, b[..|b| - 1]);
      assert b[..|b| - 1] + [b[|b| - 1]] == b;
    }
  }

  lemma BasenameOfJoin(a: string, b: string)
    requires '/' !in b && b != ""
    ensures Basename(PathJoin(a, b)) == b
  {
    if a == "" {
      BasenameAfterSlash("", b);
      assert "" + b == b;
    } else {
      BasenameAfterSlash(a + "/", b);
    }
  }

  /** The artifacts are named after the app: `xcrun` packages the `.app`
      folder named after the package id, from the device build folder, into
      the `.ipa` named after the app name in the device build folder under
      `cwd`; the `.plist` is written beside it. The command does not depend
      on how `xcrun` ends. */
  lemma PackageNames(cwd: string, id: string, appName: string, quote: string -> string, xcrunError: Option<string>)
    requires '/' !in id && '/' !in appName
    ensures BuildDir("device") == "platforms/ios/build/device"
    ensures var app := PathJoin("platforms/ios/build/device", id + ".app");
            var ipa := PathJoin(PathJoin(cwd, "platforms/ios/build/device"), appName + ".ipa");
            && Package(cwd, id, appName, quote, xcrunError).command
               == "xcrun -v -sdk iphoneos PackageApplication " + quote(app) + " -o " + quote(ipa)
            && Basename(app) == id + ".app"
            && Basename(ipa) == appName + ".ipa"
    ensures var r := Package(cwd, id, appName, quote, None);
            && r.plist == Some(PathJoin(PathJoin(cwd, "platforms/ios/build/device"), appName + ".plist"))
            && Basename(r.plist.value) == appName + ".plist"
  {
    DeviceFolder();
    var device := "platforms/ios/build/device";
    BasenameOfJoin(device, id + ".app");
    BasenameOfJoin(PathJoin(cwd, device), appName + ".ipa");
    BasenameOfJoin(PathJoin(cwd, device), appName + ".plist");
  }

  /** The device build folder, spelled out. */
  lemma DeviceFolder()
    ensures BuildDir("device") == "platforms/ios/build/device"
  {
    assert PathJoin("platforms", "ios") == "platforms/ios";
    assert PathJoin("platforms/ios", "build") == "platforms/ios/build";
  }

  // ---------------------------------------------------------------------
  // renameApp

  /** `renameApp` works in the device folder for a `--device` build and in
      the emulator folder otherwise. */
  function BuildFolder(options: string): (f: string)
    ensures f == "device" <==> options == "--device"
  {
    if options == "--device" then "device" else "emulator"
  }

  function AppPath(options: string, name: string): string {
    PathJoin(BuildDir(BuildFolder(options)), name + ".app")
  }

  /** How `renameApp` ends and which paths exist afterwards; the file
      system is the set of existing paths. */
  datatype RenameResult = RenameResult(outcome: Promise<()>, paths: set<string>)

  /** `renameApp` as written: the app named after `appName` is renamed to
      one named after the package id when the names differ and it exists,
      an existing target being removed first. When that removal fails, the
      rejection of `clearOldData` has no handler, so the returned promise
      never settles. */
  function RenameAppAsWritten(options: string, appName: string, id: string, paths: set<string>,
                              rimrafError: Option<string>, renameError: Option<string>): (r: RenameResult)
    ensures r.outcome.Pending? ==> rimrafError.Some? && r.paths == paths
    ensures r.outcome.Resolved? && AppPath(options, appName) != AppPath(options, id) && AppPath(options, appName) in paths ==>
              AppPath(options, id) in r.paths && AppPath(options, appName) !in r.paths
    ensures r.outcome.Resolved? && !(AppPath(options, appName) != AppPath(options, id) && AppPath(options, appName) in paths) ==>
              r.paths == paths
  {
    var oldName, newName := AppPath(options, appName), AppPath(options, id);
    if oldName != newName && oldName in paths then
      if newName in paths && rimrafError.Some? then RenameResult(Pending, paths)
      else
        var cleared := paths - {newName};
        if renameError.Some? then RenameResult(Rejected(ErrorMessage(renameError.value)), cleared)
        else RenameResult(Resolved(()), cleared - {oldName} + {newName})
    else RenameResult(Resolved(()), paths)
  }

  /** `renameApp` with the removal's failure passed on: the returned
      promise rejects with it. */
  function RenameApp(options: string, appName: string, id: string, paths: set<string>,
                     rimrafError: Option<string>, renameError: Option<string>): (r: RenameResult)
    ensures r.outcome != Pending
  {
    var oldName, newName := AppPath(options, appName), AppPath(options, id);
    if oldName != newName && oldName in paths && newName in paths && rimrafError.Some? then
      RenameResult(Rejected(ErrorMessage(rimrafError.value)), paths)
    else RenameAppAsWritten(options, appName, id, paths, rimrafError, renameError)
  }

  /** On success the app exists under the package id's name and no longer
      under the old one; only those two paths change; a rejection means a
      rename was due and the removal or the rename failed. */
  lemma RenameAppEffect(options: string, appName: string, id: string, paths: set<string>,
                        rimrafError: Option<string>, renameError: Option<string>)
    ensures var r := RenameApp(options, appName, id, paths, rimrafError, renameError);
            var oldName, newName := AppPath(options, appName), AppPath(options, id);
            && (r.outcome.Resolved? && oldName in paths ==> newName in r.paths && (oldName != newName ==> oldName !in r.paths))
            && (oldName !in paths || oldName == newName ==> r == RenameResult(Resolved(()), paths))
            && (forall q :: q != oldName && q != newName ==> (q in r.paths <==> q in paths))
            && (r.outcome.Rejected? <==> oldName != newName && oldName in paths
                                         && ((newName in paths && rimrafError.Some?) || renameError.Some?))
  {
  }

  /** The two versions differ only when the removal of an existing target
      fails. */
  lemma RenameAppAgrees(options: string, appName: string, id: string, paths: set<string>,
                        rimrafError: Option<string>, renameError: Option<string>)
    ensures var oldName, newName := AppPath(options, appName), AppPath(options, id);
            !(oldName != newName && oldName in paths && newName in paths && rimrafError.Some?) ==>
              RenameApp(options, appName, id, paths, rimrafError, renameError)
                == RenameAppAsWritten(options, appName, id, paths, rimrafError, renameError)
  {
  }

  /** A device build of "My App" (id "com.example.app") whose target
      folder exists and cannot be removed: as written the promise never
      settles, so the build waits forever. */
  lemma RenameAppAsWrittenHangs()
    ensures var paths := {AppPath("--device", "My App"), AppPath("--device", "com.example.app")};
            && RenameAppAsWritten("--device", "My App", "com.example.app", paths, Some("EBUSY"), None).outcome == Pending
            && RenameApp("--device", "My App", "com.example.app", paths, Some("EBUSY"), None).outcome == Rejected(ErrorMessage("EBUSY"))
  {
    var oldName, newName := AppPath("--device", "My App"), AppPath("--device", "com.example.app");
    assert |oldName| != |newName|;
  }

  // ---------------------------------------------------------------------
  // Xcode version and the development team

  const XcodePrefix: string := "Xcode "
  const TeamKey: string := "DEVELOPMENT_TEAM"

  /** The optional `(\.\d+)` group: a dot and the digits after it, when
      there is at least one. */
  function MinorPart(after: string): (m: string)
    ensures m == [] || m[0] == '.'
  {
    if after != [] && after[0] == '.' && DigitRun(after[1..], false) != [] then "." + DigitRun(after[1..], false) else []
  }

  /** The capture of `/^Xcode (\d+(\.\d+)?)/`: digits after "Xcode " at
      the start, with a dot and more digits when they follow. */
  function XcodeVersionCapture(output: string): Option<string> {
    if XcodePrefix <= output then
      var rest := output[|XcodePrefix|..];
      var major := DigitRun(rest, false);
      if major == [] then None else Some(major + MinorPart(rest[|major|..]))
    else None
  }

  /** `parseInt(match[1], 10)` of that capture. */
  function XcodeMajor(output: string): Option<int> {
    match XcodeVersionCapture(output)
    case None => None
    case Some(c) => ParseInt(c, Decimal)
  }

  /** What `parseXcodeVersion` does with the result of `xcodebuild
      -version`: ensure the team for Xcode 8 or later, skip older ones,
      or end with a warning that the rejection handler logs. */
  datatype XcodeCheck = EnsureTeam | Skip | Warn(warning: Resource)

  function XcodeCheckOf(version: Result<string>): (c: XcodeCheck)
    ensures c == EnsureTeam <==> version.Ok? && XcodeMajor(version.value).Some? && XcodeMajor(version.value).value >= 8
    ensures version.Err? ==> c.Warn?
  {
    if version.Err? then Warn(Resource("XCode8VersionCheckWarning", [version.message]))
    else
      match XcodeMajor(version.value)
      case None => Warn(Resource("XCode8VersionCheckWarningCommandOutput", [version.value]))
      case Some(m) => if m >= 8 then EnsureTeam else Skip
  }

  /** parseInt reads a leading run of digits up to the first non-digit. */
  lemma {:induction false} DigitRunStops(d: string, tail: string)
    requires forall i :: 0 <= i < |d| ==> IsDigit(d[i])
    requires tail == [] || !IsDigit(tail[0])
    ensures DigitRun(d + tail, false) == d
    decreases |d|
  {
    if d == [] {
      assert d + tail == tail;
    } else {
      assert (d + tail)[1..] == d[1..] + tail;
      DigitRunStops(d[1..], tail);
      assert [d[0]] + d[1..] == d;
    }
  }

  lemma ParseIntLeadingDigits(d: string, tail: string)
    requires d != [] && forall i :: 0 <= i < |d| ==> IsDigit(d[i])
    requires tail == [] || !IsDigit(tail[0])
    ensures ParseInt(d + tail, Decimal) == Some(DigitsValue(d, 10))
  {
    var s := d + tail;
    assert s[0] == d[0] && IsDigit(s[0]);
    assert !IsJsWhitespace(s[0]);
    assert TrimStart(s) == s;
    assert !(s[0] == '-' || s[0] == '+');
    DigitRunStops(d, tail);
  }

  /** The version capture of an output starting with "Xcode " and digits
      is those digits, with the minor part when a dot and digits follow. */
  lemma CaptureOfDigits(d: string, tail: string)
    requires d != [] && forall i :: 0 <= i < |d| ==> IsDigit(d[i])
    requires tail == [] || !IsDigit(tail[0])
    ensures XcodeVersionCapture(XcodePrefix + d + tail) == Some(d + MinorPart(tail))
  {
    var output := XcodePrefix + d + tail;
    assert XcodePrefix <= output;
    assert output[|XcodePrefix|..] == d + tail;
    DigitRunStops(d, tail);
    assert (d + tail)[|d|..] == tail;
  }

  /** The major version is the number after "Xcode ": output starting
      with "Xcode <n>" followed by anything but a digit gives `n`. */
  lemma XcodeMajorOf(n: nat, tail: string)
    requires tail == [] || !IsDigit(tail[0])
    ensures XcodeMajor(XcodePrefix + NatToString(n) + tail) == Some(n)
  {
    var d := NatToString(n);
    NatToStringDigits(n);
    NatToStringValue(n);
    CaptureOfDigits(d, tail);
    ParseIntLeadingDigits(d, MinorPart(tail));
  }

  /** The team is ensured exactly for Xcode 8 and later; an output that
      does not start with "Xcode <digits>" only logs a warning. */
  lemma EnsureTeamFromXcode8(n: nat, tail: string)
    requires tail == [] || !IsDigit(tail[0])
    ensures XcodeCheckOf(Ok(XcodePrefix + NatToString(n) + tail)) == (if n >= 8 then EnsureTeam else Skip)
    ensures forall output :: !(XcodePrefix <= output) ==> XcodeCheckOf(Ok(output)).Warn?
  {
    XcodeMajorOf(n, tail);
  }

  /** One configuration of build.json's `ios` section. */
  datatype ConfigOverride = ConfigOverride(developmentTeam: Option<string>)

  /** build.json as `require` loads it: `None` when it is missing or not
      valid JSON. */
  datatype BuildJson = BuildJson(ios: Option<map<string, ConfigOverride>>)

  /** The development team of a configuration, or why there is none. */
  function DevelopmentTeam(buildJson: Option<BuildJson>, configuration: string): (r: Result<string>)
    ensures r.Ok? ==> r.value != ""
    ensures r.Err? ==> (r.message == "XCode8InvalidBuildJson" <==> buildJson.None?)
    ensures r.Err? ==> r.message in {"XCode8InvalidBuildJson", "XCode8BuildJsonMissingDevelopmentTeam"}
  {
    match buildJson
    case None => Err("XCode8InvalidBuildJson")
    case Some(b) =>
      if b.ios.None? || configuration !in b.ios.value || !Truthy(b.ios.value[configuration].developmentTeam)
      then Err("XCode8BuildJsonMissingDevelopmentTeam")
      else Ok(b.ios.value[configuration].developmentTeam.value)
  }

  /** The line `ensureDevelopmentTeam` appends: "\nDEVELOPMENT_TEAM = <team>". */
  function TeamLine(team: string): string {
    "\n" + TeamKey + " = " + team
  }

  /** build.xcconfig after `ensureDevelopmentTeam`: the team line is
      appended unless the text already names `DEVELOPMENT_TEAM`. */
  function WithTeam(xcconfig: string, team: string): (w: string)
    ensures xcconfig <= w
    ensures Contains(xcconfig, TeamKey) ==> w == xcconfig
  {
    if Contains(xcconfig, TeamKey) then xcconfig else xcconfig + TeamLine(team)
  }

  /** The setting is added at the end, keeping what was there; afterwards
      the text names the key, so a second run changes nothing, whatever
      team it is given. */
  lemma WithTeamIdempotent(xcconfig: string, team: string, team': string)
    ensures xcconfig <= WithTeam(xcconfig, team)
    ensures Contains(WithTeam(xcconfig, team), TeamKey)
    ensures !Contains(xcconfig, TeamKey) ==> WithTeam(xcconfig, team) == xcconfig + TeamLine(team)
    ensures WithTeam(WithTeam(xcconfig, team), team') == WithTeam(xcconfig, team)
  {
    if !Contains(xcconfig, TeamKey) {
      TeamLineNamesKey(xcconfig, team);
    }
  }

  lemma TeamLineNamesKey(xcconfig: string, team: string)
    ensures Contains(xcconfig + TeamLine(team), TeamKey)
  {
    ContainsInside(xcconfig + "\n", TeamKey, " = " + team);
    assert xcconfig + "\n" + TeamKey + (" = " + team) == xcconfig + TeamLine(team);
  }

  /** The Cordova project's build.xcconfig and the errors the builder
      logs. */
  class XcodeProject {
    var xcconfig: string
    var logged: seq<Resource>

    constructor (xcconfig: string)
      ensures this.xcconfig == xcconfig && logged == []
    {
      this.xcconfig := xcconfig;
      logged := [];
    }

    /** `ensureDevelopmentTeam`: throws the missing or invalid build.json
        error, or writes the team into build.xcconfig when absent. */
    method EnsureDevelopmentTeam(buildJson: Option<BuildJson>, configuration: string) returns (r: Result<()>)
      modifies this`xcconfig
      ensures DevelopmentTeam(buildJson, configuration).Err? ==>
                r == Err(DevelopmentTeam(buildJson, configuration).message) && xcconfig == old(xcconfig)
      ensures DevelopmentTeam(buildJson, configuration).Ok? ==>
                r == Ok(()) && xcconfig == WithTeam(old(xcconfig), DevelopmentTeam(buildJson, configuration).value)
    {
      var team := DevelopmentTeam(buildJson, configuration);
      if team.Err? {
        return Err(team.message);
      }
      if !Contains(xcconfig, TeamKey) {
        xcconfig := xcconfig + TeamLine(team.value);
      }
      r := Ok(());
    }

    /** `setSupportProperties`: reads the Xcode version (`version` is the
        output of `xcodebuild -version` or its error) and ensures the team
        for Xcode 8 or later. Every failure is logged and the promise
        resolves. */
    method SetSupportProperties(version: Result<string>, buildJson: Option<BuildJson>, configuration: string)
      returns (p: Promise<()>)
      modifies this
      ensures p == Resolved(())
      ensures XcodeCheckOf(version) != EnsureTeam ==> xcconfig == old(xcconfig)
      ensures XcodeCheckOf(version).Skip? ==> logged == old(logged)
      ensures XcodeCheckOf(version).Warn? ==> logged == old(logged) + [XcodeCheckOf(version).warning]
      ensures XcodeCheckOf(version) == EnsureTeam ==>
                match DevelopmentTeam(buildJson, configuration)
                case Ok(team) => xcconfig == WithTeam(old(xcconfig), team) && logged == old(logged)
                case Err(m) => xcconfig == old(xcconfig) && logged == old(logged) + [Resource(m, [])]
    {
      p := Resolved(());
      var check := XcodeCheckOf(version);
      match check
      case EnsureTeam =>
        var r := EnsureDevelopmentTeam(buildJson, configuration);
        if r.Err? {
          logged := logged + [Resource(r.message, [])];
        }
      case Skip =>
      case Warn(w) =>
        logged := logged + [w];
    }
  }
}
