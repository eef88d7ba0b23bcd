/** The isolated-workspace helper of the internal tests: each instance
    owns a numbered folder under a fixed root, runs processes there with
    HOME and APPDATA pointing at it, remembers every process it started,
    and kills them all on cleanup. The folder listing, the process table
    and the environment of the test process are inputs. */
module IsolatedWorkspace {
  import opened Common

  /** `path.join("/", "tmp", "taco-test-agent")`. */
  const TestRoot: string := "/tmp/taco-test-agent"

  /** The keys of an instance's own environment, in insertion order. */
  const OwnKeys: seq<string> := ["ORIGINALHOME", "HOME", "ORIGINALAPDATA", "APPDATA"]

  /** The folder names parsed as `parseInt(folder, 0)` (radix 0 reads a
      "0x" prefix as hexadecimal); NaN is None. */
  function ParsedNames(folders: seq<string>): (parsed: seq<Option<int>>)
    ensures |parsed| == |folders|
    ensures forall j :: 0 <= j < |folders| ==> parsed[j] == ParseInt(folders[j], Auto)
  {
    seq(|folders|, j requires 0 <= j < |folders| => ParseInt(folders[j], Auto))
  }

  /** `nextTest`: one more than the largest numeric folder name, after
      NaN is filtered out; 1 when there is none or when the root cannot be
      listed (`folders` is None). */
  function NextTest(folders: Option<seq<string>>): (n: int)
    ensures folders.None? ==> n == 1
    ensures folders.Some? ==> forall x :: Some(x) in ParsedNames(folders.value) ==> x < n
    ensures folders.Some? ==> n == 1 || Some(n - 1) in ParsedNames(folders.value)
  {
    if folders.None? then 1 else HighestPlusOne(Somes(ParsedNames(folders.value)))
  }

  /** A folder named after a number, as earlier instances create them,
      is never numbered again. */
  lemma NextTestPastFolder(folders: seq<string>, k: nat)
    requires NatToString(k) in folders
    ensures NextTest(Some(folders)) > k
  {
    var j :| 0 <= j < |folders| && folders[j] == NatToString(k);
    ParseNatToString(k, Auto);
    assert ParsedNames(folders)[j] == Some(k);
  }

  /** `cwd` as `exec` resolves it: a relative path is joined onto the
      workspace folder, an absolute one kept, an absent or empty one
      replaced by the workspace folder. */
  function ExecCwd(rootFolder: string, cwd: Option<string>): (d: string)
    ensures !Truthy(cwd) ==> d == rootFolder
  {
    if Truthy(cwd) && cwd.value[0] != '/' then PathJoin(rootFolder, cwd.value)
    else if !Truthy(cwd) then rootFolder
    else cwd.value
  }

  /** Unless the caller names an absolute path, the command runs inside the
      workspace folder; with an absolute workspace folder it always runs at
      an absolute path. */
  lemma ExecCwdInsideWorkspace(rootFolder: string, cwd: Option<string>)
    ensures !(Truthy(cwd) && cwd.value[0] == '/') ==> rootFolder <= ExecCwd(rootFolder, cwd)
    ensures Truthy(cwd) && cwd.value[0] == '/' ==> ExecCwd(rootFolder, cwd) == cwd.value
    ensures rootFolder != "" && rootFolder[0] == '/' ==> ExecCwd(rootFolder, cwd)[0] == '/'
  {
  }

  /** The environment a process sees: the instance's own keys win over the
      caller's `options.env`, which wins over the test process's
      environment (reached through the prototype). An own key whose value
      was undefined stays undefined (None). */
  ghost predicate ComposedEnv(env: map<string, Option<string>>, processEnv: map<string, string>, callerEnv: map<string, string>, own: map<string, Option<string>>) {
    && (forall k :: k in env <==> k in own || k in callerEnv || k in processEnv)
    && (forall k :: k in own ==> env[k] == own[k])
    && (forall k :: k in callerEnv && k !in own ==> env[k] == Some(callerEnv[k]))
    && (forall k :: k in processEnv && k !in own && k !in callerEnv ==> env[k] == Some(processEnv[k]))
  }

  /** Copies `own[k]` for every key `k` of `keys` over `base`, one key at a
      time (the `Object.keys(this.env).forEach` of `exec` and `spawn`). */
  method Overlay(base: map<string, Option<string>>, own: map<string, Option<string>>, keys: seq<string>)
    returns (env: map<string, Option<string>>)
    requires forall k :: k in own <==> k in keys
    ensures forall k :: k in env <==> k in base || k in own
    ensures forall k :: k in own ==> env[k] == own[k]
    ensures forall k :: k in base && k !in own ==> env[k] == base[k]
  {
    env := base;
    var i := 0;
    while i < |keys|
      invariant 0 <= i <= |keys|
      invariant forall k :: k in env <==> k in base || k in keys[..i]
      invariant forall k :: k in keys[..i] ==> env[k] == own[k]
      invariant forall k :: k in base && k !in keys[..i] ==> env[k] == base[k]
    {
      assert keys[..i + 1] == keys[..i] + [keys[i]];
      env := env[keys[i] := own[keys[i]]];
      i := i + 1;
    }
    assert keys[..i] == keys;
  }

  /** The caller's `options` of `exec` and `spawn`, after the JSON copy. */
  datatype ProcessOptions = ProcessOptions(cwd: Option<string>, env: Option<map<string, string>>)

  /** A process an instance started: `args` is None for `exec`. */
  datatype Launch = Launch(command: string, args: Option<seq<string>>, cwd: Option<string>, env: map<string, Option<string>>)

  /** The shared `TestCount` and the environment of the test process. */
  class TestCounter {
    var count: int
    const processEnv: map<string, string>

    /** Starts after the highest numbered folder under the root. */
    constructor (folders: Option<seq<string>>, processEnv: map<string, string>)
      ensures count == NextTest(folders) && this.processEnv == processEnv
    {
      count := NextTest(folders);
      this.processEnv := processEnv;
    }
  }

  class IsolatedTest {
    const testId: int
    const rootFolder: string
    const env: map<string, Option<string>>
    const counter: TestCounter
    var runCommands: seq<Launch>
    /** Every `proc.kill()` call, in order. */
    var killed: seq<Launch>

    /** Takes the next number of the counter and a folder named after it,
        with HOME and APPDATA pointing there and their old values kept. */
    constructor (counter: TestCounter)
      modifies counter
      ensures testId == old(counter.count) && counter.count == old(counter.count) + 1
      ensures rootFolder == PathJoin(TestRoot, IntToString(testId))
      ensures env.Keys == {"ORIGINALHOME", "HOME", "ORIGINALAPDATA", "APPDATA"}
      ensures env["HOME"] == Some(rootFolder) && env["APPDATA"] == Some(rootFolder)
      ensures env["ORIGINALHOME"] == Lookup(counter.processEnv, "HOME")
      ensures env["ORIGINALAPDATA"] == Lookup(counter.processEnv, "APPDATA")
      ensures this.counter == counter && runCommands == [] && killed == []
    {
      testId := counter.count;
      counter.count := counter.count + 1;
      var folder := PathJoin(TestRoot, IntToString(counter.count - 1));
      rootFolder := folder;
      env := map["ORIGINALHOME" := Lookup(counter.processEnv, "HOME"), "HOME" := Some(folder),
                 "ORIGINALAPDATA" := Lookup(counter.processEnv, "APPDATA"), "APPDATA" := Some(folder)];
      this.counter := counter;
      runCommands := [];
      killed := [];
    }

    /** The environment of a process started with the caller's `env`. */
    method ProcessEnv(callerEnv: Option<map<string, string>>) returns (e: map<string, Option<string>>)
      requires env.Keys == {"ORIGINALHOME", "HOME", "ORIGINALAPDATA", "APPDATA"}
      ensures ComposedEnv(e, counter.processEnv, if callerEnv.Some? then callerEnv.value else map[], env)
    {
      var caller := if callerEnv.Some? then callerEnv.value else map[];
      var base := map k | k in caller.Keys + counter.processEnv.Keys ::
        if k in caller then Some(caller[k]) else Some(counter.processEnv[k]);
      e := Overlay(base, env, OwnKeys);
    }

    /** `exec`: runs `command` in the resolved working folder with the
        composed environment and records the process. */
    method Exec(command: string, options: ProcessOptions) returns (proc: Launch)
      requires env.Keys == {"ORIGINALHOME", "HOME", "ORIGINALAPDATA", "APPDATA"}
      modifies this`runCommands
      ensures proc.command == command && proc.args.None?
      ensures proc.cwd == Some(ExecCwd(rootFolder, options.cwd))
      ensures ComposedEnv(proc.env, counter.processEnv, if options.env.Some? then options.env.value else map[], env)
      ensures runCommands == old(runCommands) + [proc]
    {
      var e := ProcessEnv(options.env);
      proc := Launch(command, None, Some(ExecCwd(rootFolder, options.cwd)), e);
      runCommands := runCommands + [proc];
    }

    /** `spawn`: like `exec`, but the working folder is passed on as given. */
    method Spawn(command: string, args: seq<string>, options: ProcessOptions) returns (proc: Launch)
      requires env.Keys == {"ORIGINALHOME", "HOME", "ORIGINALAPDATA", "APPDATA"}
      modifies this`runCommands
      ensures proc.command == command && proc.args == Some(args) && proc.cwd == options.cwd
      ensures ComposedEnv(proc.env, counter.processEnv, if options.env.Some? then options.env.value else map[], env)
      ensures runCommands == old(runCommands) + [proc]
    {
      var e := ProcessEnv(options.env);
      proc := Launch(command, Some(args), options.cwd, e);
      runCommands := runCommands + [proc];
    }

    /** `cleanup`: kills every process started, in order, then removes the
        workspace folder only when `cleanFolder` is set; `removal` is how
        that removal went (None: it succeeded). */
    method Cleanup(cleanFolder: bool, removal: Option<string>) returns (removed: Option<string>, p: Promise<()>)
      modifies this`killed
      ensures killed == old(killed) + runCommands
      ensures removed.Some? <==> cleanFolder
      ensures cleanFolder ==> removed == Some(rootFolder)
      ensures p.Rejected? <==> cleanFolder && removal.Some?
    {
      var i := 0;
      while i < |runCommands|
        invariant 0 <= i <= |runCommands|
        invariant killed == old(killed) + runCommands[..i]
      {
        assert runCommands[..i + 1] == runCommands[..i] + [runCommands[i]];
        killed := killed + [runCommands[i]];
        i := i + 1;
      }
      assert runCommands[..i] == runCommands;
      if cleanFolder {
        removed := Some(rootFolder);
        p := if removal.Some? then Rejected(ErrorMessage(removal.value)) else Resolved(());
      } else {
        removed := None;
        p := Resolved(());
      }
    }
  }

  /** Two instances made one after the other from the same counter get
      different numbers and different folders. */
  method TwoInstances(counter: TestCounter) returns (a: IsolatedTest, b: IsolatedTest)
    modifies counter
    ensures a.testId < b.testId && a.rootFolder != b.rootFolder
  {
    a := new IsolatedTest(counter);
    b := new IsolatedTest(counter);
    FoldersDistinct(a.testId, b.testId);
  }

  /** Different numbers give different folders. */
  lemma FoldersDistinct(m: int, n: int)
    requires m != n
    ensures PathJoin(TestRoot, IntToString(m)) != PathJoin(TestRoot, IntToString(n))
  {
    IntToStringInjective(m, n);
    var u := TestRoot + "/" + IntToString(m);
    var v := TestRoot + "/" + IntToString(n);
    assert u[|TestRoot| + 1..] == IntToString(m) && v[|TestRoot| + 1..] == IntToString(n);
  }
}
