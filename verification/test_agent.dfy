/** The taco-test-agent: an in-memory store of numbered test workspaces on
    a remote machine, each holding numbered shell commands, with a FIFO
    retention queue that bounds how many workspaces are kept. Every HTTP
    handler is a method of `TestAgentServer`; the processes it starts, the
    files it writes and the signals it sends are abstract: a command's end
    is an `ExitEvent`, a workspace's files are a map from path to bytes, and
    every `proc.kill` call is appended to the `kills` log. */
module TestAgent {
  import opened Common

  /** How many workspaces stay in the retention queue (`testsToKeep`). */
  const TestsToKeep: nat := 10

  type Bytes = seq<bv8>

  datatype Status = Started | Done | Error

  /** What the operating system reports once a command's process ends: the
      error of the exec callback (set by Node for a non-zero exit code, a
      terminating signal or a failed spawn), the exit code (absent when a
      signal ended the process), the signal, and the captured output. */
  datatype ExitEvent = ExitEvent(err: bool, code: Option<int>, signal: Option<string>, stdout: string, stderr: string)

  /** The process handle kept beside a command and never serialised: the
      command line, working directory and environment it was started with,
      and whether it has exited. */
  datatype Process = Process(commandLine: string, cwd: string, env: map<string, string>, exited: bool)

  datatype Command = Command(
    id: int,
    status: Status,
    command: string,
    result: string,
    stderr: Option<string>,
    code: Option<int>,
    signal: Option<string>,
    proc: Process)

  /** A workspace: its folder, its commands by id, the next command id, and
      the files written into its folder, by path relative to the folder. */
  datatype Test = Test(id: int, folder: string, commands: map<int, Command>, nextCommand: int, files: map<string, Bytes>)

  /** One `proc.kill` call: which command, and the signal (None: default). */
  datatype KillRequest = KillRequest(testId: int, commandId: int, signal: Option<string>)

  /** What a handler answers: 200 with a value, 404, or 500 for an upload
      whose stream failed. */
  datatype Reply<T> = Found(value: T) | NotFound | WriteFailed

  function StatusCode<T>(r: Reply<T>): int {
    match r
    case Found(_) => 200
    case NotFound => 404
    case WriteFailed => 500
  }

  // ---------------------------------------------------------------------
  // Command status

  /** `if (code)`: a present, non-zero exit code. */
  predicate NonZero(code: Option<int>) {
    code.Some? && code.value != 0
  }

  /** The status the exec callback writes. */
  function AfterExecCallback(err: bool): Status {
    if err then Error else Done
  }

  /** The status after the exit handler ran on status `s`. */
  function AfterExitHandler(s: Status, code: Option<int>): (r: Status)
    ensures r == s || r == Error
    ensures r == Error <==> NonZero(code) || s == Error
  {
    if NonZero(code) then Error else s
  }

  /** The final status of a command whose process ended with `err` and
      `code`: `error` exactly when the callback reported an error or the
      exit code is non-zero. */
  function FinalStatus(err: bool, code: Option<int>): (s: Status)
    ensures s != Started
    ensures s == Error <==> err || NonZero(code)
  {
    if err || NonZero(code) then Error else Done
  }

  /** Whichever of the exit handler and the exec callback runs first, the
      command ends with `FinalStatus`, because Node reports an error to the
      callback whenever the exit code is non-zero. */
  lemma HandlerOrderIrrelevant(err: bool, code: Option<int>)
    requires NonZero(code) ==> err
    ensures AfterExecCallback(err) == FinalStatus(err, code)
    ensures AfterExitHandler(AfterExecCallback(err), code) == FinalStatus(err, code)
  {
  }

  /** The command record after its process ended. */
  function Finished(c: Command, ev: ExitEvent): (d: Command)
    ensures d.status == FinalStatus(ev.err, ev.code) && d.proc.exited
    ensures d.id == c.id && d.command == c.command && d.proc.cwd == c.proc.cwd && d.proc.env == c.proc.env
    ensures d.result == ev.stdout && d.stderr == Some(ev.stderr) && d.code == ev.code && d.signal == ev.signal
  {
    c.(status := FinalStatus(ev.err, ev.code), result := ev.stdout, stderr := Some(ev.stderr),
       code := ev.code, signal := ev.signal, proc := c.proc.(exited := true))
  }

  // ---------------------------------------------------------------------
  // Environment and working directory of a command

  /** An own property of the child environment object: a defined value
      shadows the inherited one, an undefined one hides it. */
  function Override(env: map<string, string>, key: string, v: Option<string>): map<string, string> {
    if v.Some? then env[key := v.value] else env - {key}
  }

  /** The environment a command runs with: the agent's own environment,
      overridden by TEST_ID, HOME and APPDATA (both the workspace folder) and
      ORIGINALHOME / ORIGINALAPDATA (the agent's HOME and APPDATA). */
  function CommandEnv(processEnv: map<string, string>, testId: string, folder: string): (env: map<string, string>)
    ensures "HOME" in env && env["HOME"] == folder
    ensures "APPDATA" in env && env["APPDATA"] == folder
    ensures "TEST_ID" in env && env["TEST_ID"] == testId
    ensures Lookup(env, "ORIGINALHOME") == Lookup(processEnv, "HOME")
    ensures Lookup(env, "ORIGINALAPDATA") == Lookup(processEnv, "APPDATA")
    ensures forall k :: k !in {"HOME", "APPDATA", "TEST_ID", "ORIGINALHOME", "ORIGINALAPDATA"} ==>
              Lookup(env, k) == Lookup(processEnv, k)
  {
    var own := processEnv["TEST_ID" := testId]["HOME" := folder]["APPDATA" := folder];
    Override(Override(own, "ORIGINALHOME", Lookup(processEnv, "HOME")), "ORIGINALAPDATA", Lookup(processEnv, "APPDATA"))
  }

  // ---------------------------------------------------------------------
  // Retention queue helpers

  predicate StrictlyIncreasing(q: seq<int>) {
    forall i, j :: 0 <= i < j < |q| ==> q[i] < q[j]
  }

  /** `indexOf` followed by `splice(index, 1)`: drops the first occurrence. */
  function Dequeued(q: seq<int>, x: int): (r: seq<int>)
    ensures x !in q ==> r == q
    ensures |r| <= |q|
  {
    if q == [] then []
    else if q[0] == x then q[1..]
    else [q[0]] + Dequeued(q[1..], x)
  }

  /** Dequeuing drops exactly the first occurrence, at `i`. */
  lemma {:induction false} DequeuedAt(q: seq<int>, x: int, i: int)
    requires 0 <= i < |q| && q[i] == x
    requires forall k :: 0 <= k < i ==> q[k] != x
    ensures Dequeued(q, x) == q[..i] + q[i + 1..]
  {
    if i > 0 {
      var tail := q[1..];
      forall k | 0 <= k < i - 1 ensures tail[k] != x {
        assert tail[k] == q[k + 1];
      }
      DequeuedAt(tail, x, i - 1);
      assert q[0] != x;
      assert tail[..i - 1] == q[1..i] && tail[i..] == q[i + 1..];
      ConcatAssoc([q[0]], q[1..i], q[i + 1..]);
      assert [q[0]] + q[1..i] == q[..i];
    }
  }

  /** Dequeuing keeps every other id and adds none. */
  lemma {:induction false} DequeuedMembers(q: seq<int>, x: int)
    ensures forall y :: y in Dequeued(q, x) ==> y in q
    ensures forall y :: y in q && y != x ==> y in Dequeued(q, x)
  {
    if q != [] && q[0] != x {
      DequeuedMembers(q[1..], x);
      assert q == [q[0]] + q[1..];
    }
  }

  /** Taking a workspace off an ordered queue keeps it ordered and leaves
      no copy of it behind. */
  lemma DequeuedOrdered(q: seq<int>, x: int)
    requires StrictlyIncreasing(q)
    ensures StrictlyIncreasing(Dequeued(q, x)) && x !in Dequeued(q, x)
  {
    if x in q {
      var i :| 0 <= i < |q| && q[i] == x;
      forall k | 0 <= k < i ensures q[k] != x {
        assert q[k] < q[i];
      }
      DequeuedAt(q, x, i);
      SpliceOrdered(q, i);
    }
  }

  /** Cutting one element out of an ordered queue keeps it ordered and
      leaves no copy of that element. */
  lemma SpliceOrdered(q: seq<int>, i: int)
    requires StrictlyIncreasing(q) && 0 <= i < |q|
    ensures StrictlyIncreasing(q[..i] + q[i + 1..]) && q[i] !in q[..i] + q[i + 1..]
  {
    var r := q[..i] + q[i + 1..];
    forall a, b | 0 <= a < b < |r| ensures r[a] < r[b] {
      SpliceIndex(q, i, a);
      SpliceIndex(q, i, b);
    }
    forall a | 0 <= a < |r| ensures r[a] != q[i] {
      SpliceIndex(q, i, a);
      var a' := if a < i then a else a + 1;
      if a' < i { assert q[a'] < q[i]; } else { assert q[i] < q[a']; }
    }
  }

  /** Where an element of a sequence lands once the one at `i` is cut out. */
  lemma SpliceIndex(q: seq<int>, i: int, a: int)
    requires 0 <= i < |q| && 0 <= a < |q| - 1
    ensures (q[..i] + q[i + 1..])[a] == q[if a < i then a else a + 1]
  {
  }

  /** The kill requests `cleanUpRunningProcesses` issues for a workspace
      whose commands are 1 .. nextCommand-1: one default kill per command,
      in ascending id order. */
  function CommandKills(t: Test): (ks: seq<KillRequest>)
    ensures |ks| == if t.nextCommand > 1 then t.nextCommand - 1 else 0
    ensures forall i :: 0 <= i < |ks| ==> ks[i] == KillRequest(t.id, i + 1, None)
  {
    if t.nextCommand <= 1 then [] else seq(t.nextCommand - 1, i => KillRequest(t.id, i + 1, None))
  }

  /** The kill requests of deleting, in order, the workspaces `ids` from
      the store `ts`. */
  function EvictionKills(ts: map<int, Test>, ids: seq<int>): seq<KillRequest> {
    if ids == [] then [] else KillsIfPresent(ts, ids[0]) + EvictionKills(ts - {ids[0]}, ids[1..])
  }

  /** The kill requests of deleting workspace `id` if it exists. */
  function KillsIfPresent(ts: map<int, Test>, id: int): seq<KillRequest> {
    if id in ts then CommandKills(ts[id]) else []
  }

  /** The store after deleting each of `ids`. */
  function Without(ts: map<int, Test>, ids: seq<int>): (r: map<int, Test>)
    ensures forall id :: id in r <==> id in ts && id !in ids
    ensures forall id :: id in r ==> r[id] == ts[id]
  {
    if ids == [] then ts else Without(ts, ids[..|ids| - 1]) - {ids[|ids| - 1]}
  }

  /** Evicting the next queued workspace `q[j]` deletes it from what is
      left of the store, and its kill requests come first among those of
      the evictions still to do. */
  lemma EvictionStep(t0: map<int, Test>, q: seq<int>, j: nat, k: nat)
    requires j < k <= |q|
    ensures Without(t0, q[..j + 1]) == Without(t0, q[..j]) - {q[j]}
    ensures EvictionKills(Without(t0, q[..j]), q[j..k])
         == KillsIfPresent(Without(t0, q[..j]), q[j]) + EvictionKills(Without(t0, q[..j]) - {q[j]}, q[j + 1..k])
  {
    assert q[..j + 1][..j] == q[..j];
    assert q[j..k][1..] == q[j + 1..k];
  }

  /** The invariant of the store: every workspace sits in its own folder
      under an id already handed out, every id handed out is below the next
      one, and the retention queue holds existing workspaces, oldest first. */
  ghost predicate StoreValid(tests: map<int, Test>, issued: set<int>, nextId: int, queue: seq<int>, basePath: string) {
    && (forall id :: id in tests ==>
          id in issued && tests[id].id == id && tests[id].folder == PathJoin(basePath, IntToString(id)) && TestValid(tests[id]))
    && (forall id :: id in issued ==> id < nextId)
    && StrictlyIncreasing(queue)
    && (forall i :: 0 <= i < |queue| ==> queue[i] in tests)
  }

  /** A fresh workspace with id `id`: no commands, no files. */
  function NewWorkspace(id: int, basePath: string): (t: Test)
    ensures t.id == id && t.folder == PathJoin(basePath, IntToString(id))
    ensures TestValid(t) && t.commands == map[] && t.files == map[]
  {
    Test(id, PathJoin(basePath, IntToString(id)), map[], 1, map[])
  }

  /** Admitting a workspace under the next id keeps the store valid, and
      that id was never handed out before. */
  lemma AdmitKeepsValid(tests: map<int, Test>, issued: set<int>, nextId: int, queue: seq<int>, basePath: string)
    requires StoreValid(tests, issued, nextId, queue, basePath)
    ensures nextId !in issued && nextId !in tests
    ensures StoreValid(tests[nextId := NewWorkspace(nextId, basePath)], issued + {nextId}, nextId + 1, queue + [nextId], basePath)
  {
    var q := queue + [nextId];
    forall i, j | 0 <= i < j < |q| ensures q[i] < q[j] {
      if j == |q| - 1 {
        assert q[i] == queue[i] && queue[i] in tests;
      } else {
        assert q[i] == queue[i] && q[j] == queue[j];
      }
    }
  }

  /** Replacing a workspace by a valid one with the same id and folder
      keeps the store valid. */
  lemma ReplaceKeepsValid(tests: map<int, Test>, issued: set<int>, nextId: int, queue: seq<int>, basePath: string, t: Test)
    requires StoreValid(tests, issued, nextId, queue, basePath)
    requires t.id in tests && t.folder == tests[t.id].folder && TestValid(t)
    ensures StoreValid(tests[t.id := t], issued, nextId, queue, basePath)
  {
  }

  /** Recording the next command of a workspace as started keeps the
      workspace valid. */
  lemma StartKeepsTestValid(t: Test, cmd: Command)
    requires TestValid(t) && cmd.id == t.nextCommand && cmd.status == Started && !cmd.proc.exited
    ensures TestValid(t.(commands := t.commands[t.nextCommand := cmd], nextCommand := t.nextCommand + 1))
  {
  }

  /** Updating one workspace in a way that keeps its finished commands
      keeps every finished command of the store. */
  lemma UpdateKeepsFinal(before: map<int, Test>, id: int, t: Test)
    requires id in before
    requires forall c :: c in before[id].commands && before[id].commands[c].status != Started ==>
               c in t.commands && t.commands[c] == before[id].commands[c]
    ensures FinalStatusesKept(before, before[id := t])
  {
  }

  /** Taking a workspace off the queue keeps the store valid, and so does
      deleting it from the store as well. */
  lemma DequeueKeepsValid(tests: map<int, Test>, issued: set<int>, nextId: int, queue: seq<int>, basePath: string, id: int)
    requires StoreValid(tests, issued, nextId, queue, basePath)
    ensures StoreValid(tests, issued, nextId, Dequeued(queue, id), basePath)
    ensures StoreValid(tests - {id}, issued, nextId, Dequeued(queue, id), basePath)
  {
    var r := Dequeued(queue, id);
    DequeuedOrdered(queue, id);
    DequeuedMembers(queue, id);
    forall i | 0 <= i < |r| ensures r[i] in tests - {id} {
      assert r[i] in r;
      var j :| 0 <= j < |queue| && queue[j] == r[i];
    }
  }

  /** Evicting the `k` oldest queued workspaces keeps the store valid. */
  lemma EvictKeepsValid(tests: map<int, Test>, issued: set<int>, nextId: int, q: seq<int>, basePath: string, k: nat)
    requires StoreValid(tests, issued, nextId, q, basePath) && k <= |q|
    ensures StoreValid(Without(tests, q[..k]), issued, nextId, q[k..], basePath)
  {
    var rest := q[k..];
    forall i | 0 <= i < |rest| ensures rest[i] in Without(tests, q[..k]) {
      assert rest[i] == q[k + i];
      assert q[k + i] !in q[..k] by {
        forall m | 0 <= m < k ensures q[..k][m] != q[k + i] {
          assert q[..k][m] == q[m];
        }
      }
    }
    forall i, j | 0 <= i < j < |rest| ensures rest[i] < rest[j] {
      assert rest[i] == q[k + i] && rest[j] == q[k + j];
    }
  }

  /** How many queued workspaces must go so that at most `TestsToKeep`
      remain. */
  function Overflow(n: nat): (k: nat)
    ensures k <= n && n - k <= TestsToKeep
    ensures n <= TestsToKeep ==> k == 0
  {
    if n > TestsToKeep then n - TestsToKeep else 0
  }

  /** Commands that have reached `done` or `error` are never changed while
      their workspace exists. */
  ghost predicate FinalStatusesKept(before: map<int, Test>, after: map<int, Test>) {
    forall id, c :: id in before && id in after && c in before[id].commands && before[id].commands[c].status != Started ==>
      c in after[id].commands && after[id].commands[c] == before[id].commands[c]
  }

  ghost predicate TestValid(t: Test) {
    && t.nextCommand >= 1
    && (forall c :: c in t.commands <==> 1 <= c < t.nextCommand)
    && (forall c :: c in t.commands ==> t.commands[c].id == c && (t.commands[c].status == Started <==> !t.commands[c].proc.exited))
  }

  /** The folder names parsed as base-10 integers (NaN is None). */
  function ParsedFolders(folders: seq<string>): (parsed: seq<Option<int>>)
    ensures |parsed| == |folders|
    ensures forall j :: 0 <= j < |folders| ==> parsed[j] == ParseInt(folders[j], Decimal)
  {
    seq(|folders|, j requires 0 <= j < |folders| => ParseInt(folders[j], Decimal))
  }

  /** The comparator the constructor sorts with, `(l, r) => r - l`: NaN on
      either side makes the difference NaN, which the sort treats as "equal". */
  function CompareDescending(l: Option<int>, r: Option<int>): (c: int)
    ensures l.Some? && r.Some? ==> (c <= 0 <==> l.value >= r.value)
    ensures l.None? || r.None? ==> c == 0
  {
    if l.Some? && r.Some? then r.value - l.value else 0
  }

  /** No neighbouring pair is out of order under the comparator: a stable
      sort leaves such a listing as it is. */
  predicate InComparatorOrder(s: seq<Option<int>>) {
    forall i :: 0 <= i < |s| - 1 ==> CompareDescending(s[i], s[i + 1]) <= 0
  }

  /** The constructor's next id as written: `(sortedFolders[0] || 0) + 1`,
      reading only the first element of the sorted listing (NaN and 0 are
      falsy). */
  function NextIdAsWritten(sorted: seq<Option<int>>): (n: int)
    ensures sorted != [] && sorted[0].Some? && sorted[0].value != 0 ==> n == sorted[0].value + 1
    ensures sorted == [] || sorted[0].None? ==> n == 1
  {
    if sorted != [] && sorted[0].Some? && sorted[0].value != 0 then sorted[0].value + 1 else 1
  }

  /** A listing whose first entry is not a number (".DS_Store" sorts before
      the digits) is already in comparator order, so the sort keeps it, and
      the constructor as written starts numbering at 1 although workspaces 9
      and 10 exist; the corrected rule starts at 11. */
  lemma NonNumericFolderResetsIds()
    ensures var parsed := ParsedFolders([".DS_Store", "10", "9"]);
            && parsed == [None, Some(10), Some(9)]
            && InComparatorOrder(parsed)
            && NextIdAsWritten(parsed) == 1
            && HighestPlusOne(Somes(parsed)) == 11
  {
    ListingParsed();
    ListingNextId();
    ListingInOrder();
  }

  lemma ListingInOrder()
    ensures InComparatorOrder([None, Some(10), Some(9)])
    ensures NextIdAsWritten([None, Some(10), Some(9)]) == 1
  {
    var parsed: seq<Option<int>> := [None, Some(10), Some(9)];
    assert CompareDescending(parsed[0], parsed[1]) == 0;
    assert CompareDescending(parsed[1], parsed[2]) < 0;
  }

  lemma ListingNextId()
    ensures HighestPlusOne(Somes([None, Some(10), Some(9)])) == 11
  {
    var parsed: seq<Option<int>> := [None, Some(10), Some(9)];
    assert Somes(parsed) == [10, 9] by {
      assert parsed[1..] == [Some(10), Some(9)] && parsed[1..][1..] == [Some(9)];
    }
    assert Highest([10, 9]) == 10 by {
      assert [10, 9][1..] == [9];
    }
  }

  lemma ListingParsed()
    ensures ParsedFolders([".DS_Store", "10", "9"]) == [None, Some(10), Some(9)]
  {
    var names := [".DS_Store", "10", "9"];
    var parsed := ParsedFolders(names);
    assert parsed[0] == None by {
      DsStoreIsNaN();
    }
    assert parsed[1] == Some(10) by {
      SmallNumerals();
      ParseNatToString(10, Decimal);
    }
    assert parsed[2] == Some(9) by {
      SmallNumerals();
      ParseNatToString(9, Decimal);
    }
  }

  lemma DsStoreIsNaN()
    ensures ParseInt(".DS_Store", Decimal) == None
  {
    assert TrimStart(".DS_Store") == ".DS_Store";
    assert DigitRun(".DS_Store", false) == [];
  }

  lemma SmallNumerals()
    ensures NatToString(10) == "10" && NatToString(9) == "9"
  {
  }

  /** The folder of the agent's workspaces: `taco-test-agent` under HOME, or
      under APPDATA when HOME is unset or empty; `path.join` throws when both
      are unset, modelled as None. */
  function AgentBasePath(processEnv: map<string, string>): Option<string> {
    if Truthy(Lookup(processEnv, "HOME")) then Some(PathJoin(processEnv["HOME"], "taco-test-agent"))
    else if "APPDATA" in processEnv then Some(PathJoin(processEnv["APPDATA"], "taco-test-agent"))
    else None
  }

  class TestAgentServer {
    var tests: map<int, Test>
    var nextId: int
    var deletionQueue: seq<int>
    /** Every `proc.kill` call, in order. */
    var kills: seq<KillRequest>
    /** Every workspace id handed out so far. */
    ghost var issued: set<int>

    const basePath: string
    const processEnv: map<string, string>
    /** `path.sep`, which replaces every '/' of a command line. */
    const pathSep: char
    const testsToKeep: nat := TestsToKeep

    ghost predicate Valid()
      reads this
    {
      StoreValid(tests, issued, nextId, deletionQueue, basePath) && |deletionQueue| <= testsToKeep
    }

    /** Starts with no workspace and with the id after the highest numeric
        folder already present under the base path (`folders` is the listing
        of that folder). */
    constructor (processEnv: map<string, string>, folders: seq<string>, pathSep: char)
      requires AgentBasePath(processEnv).Some?
      ensures Valid()
      ensures this.processEnv == processEnv && this.pathSep == pathSep
      ensures basePath == AgentBasePath(processEnv).value
      ensures tests == map[] && deletionQueue == [] && kills == []
      ensures forall n :: Some(n) in ParsedFolders(folders) ==> n < nextId
      ensures nextId == 1 || Some(nextId - 1) in ParsedFolders(folders)
    {
      this.processEnv := processEnv;
      this.pathSep := pathSep;
      basePath := AgentBasePath(processEnv).value;
      tests := map[];
      deletionQueue := [];
      kills := [];
      issued := {};
      nextId := HighestPlusOne(Somes(ParsedFolders(folders)));
    }

    /** Kills every command of a workspace, finished or not. The source
        walks the keys of `test.commands` and kills those with a process;
        in a workspace that keeps TestValid these keys are exactly
        1 .. nextCommand - 1 and every command has its process, so the two
        issue the same kills. */
    method CleanUpRunningProcesses(t: Test)
      modifies this`kills
      ensures kills == old(kills) + CommandKills(t)
    {
      var commandId := 1;
      while commandId < t.nextCommand
        invariant t.nextCommand <= 1 ==> commandId == 1
        invariant t.nextCommand > 1 ==> 1 <= commandId <= t.nextCommand
        invariant kills == old(kills) + seq(commandId - 1, i => KillRequest(t.id, i + 1, None))
      {
        kills := kills + [KillRequest(t.id, commandId, None)];
        commandId := commandId + 1;
      }
    }

    /** Removes a workspace (if it still exists) and kills its commands. */
    method CleanAndDeleteTest(testToDelete: int)
      modifies this`tests, this`kills
      ensures tests == old(tests) - {testToDelete}
      ensures kills == old(kills) + KillsIfPresent(old(tests), testToDelete)
    {
      if testToDelete in tests {
        var t := tests[testToDelete];
        tests := tests - {testToDelete};
        CleanUpRunningProcesses(t);
      }
    }

    /** Evicts the oldest queued workspaces while more than `testsToKeep`
        are queued. */
    method EvictOldest()
      requires StrictlyIncreasing(deletionQueue)
      requires forall i :: 0 <= i < |deletionQueue| ==> deletionQueue[i] in tests
      modifies this`deletionQueue, this`tests, this`kills
      ensures var q := old(deletionQueue);
              var k := Overflow(|q|);
              && deletionQueue == q[k..]
              && tests == Without(old(tests), q[..k])
              && kills == old(kills) + EvictionKills(old(tests), q[..k])
    {
      ghost var q := deletionQueue;
      ghost var t0 := tests;
      ghost var k0 := kills;
      ghost var k := Overflow(|q|);
      ghost var j := 0;
      while |deletionQueue| > testsToKeep
        invariant StrictlyIncreasing(q) && forall i :: 0 <= i < |q| ==> q[i] in t0
        invariant 0 <= j <= k
        invariant deletionQueue == q[j..]
        invariant tests == Without(t0, q[..j])
        invariant k0 + EvictionKills(t0, q[..k]) == kills + EvictionKills(tests, q[j..k])
        decreases |deletionQueue|
      {
        var testToDelete := deletionQueue[0];
        deletionQueue := deletionQueue[1..];
        EvictionStep(t0, q, j, k);
        ghost var before := kills;
        CleanAndDeleteTest(testToDelete);
        ConcatAssoc(before, KillsIfPresent(Without(t0, q[..j]), q[j]), EvictionKills(tests, q[j + 1..k]));
        j := j + 1;
      }
    }

    /** POST /test: a new workspace with the next id, queued for eviction
        after `testsToKeep` newer ones. */
    method NewTest() returns (t: Test)
      requires Valid()
      modifies this
      ensures Valid()
      ensures t.id == old(nextId) && t.id !in old(issued) && nextId == old(nextId) + 1
      ensures t.commands == map[] && t.nextCommand == 1 && t.files == map[]
      ensures t.folder == PathJoin(basePath, IntToString(t.id))
      ensures var q := old(deletionQueue) + [t.id];
              var k := Overflow(|q|);
              && deletionQueue == q[k..]
              && tests == Without(old(tests)[t.id := t], q[..k])
              && kills == old(kills) + EvictionKills(old(tests)[t.id := t], q[..k])
      ensures FinalStatusesKept(old(tests), tests)
    {
      var id := nextId;
      nextId := nextId + 1;
      t := NewWorkspace(id, basePath);
      AdmitKeepsValid(tests, issued, id, deletionQueue, basePath);
      tests := tests[id := t];
      issued := issued + {id};
      deletionQueue := deletionQueue + [id];
      ghost var q := deletionQueue;
      EvictOldest();
      EvictKeepsValid(old(tests)[id := t], issued, nextId, q, basePath, Overflow(|q|));
    }

    /** GET /test/:id. */
    method GetTest(id: int) returns (r: Reply<Test>)
      ensures r.Found? <==> id in tests
      ensures r.Found? ==> r.value == tests[id]
      ensures !r.Found? ==> StatusCode(r) == 404
    {
      if id in tests {
        r := Found(tests[id]);
      } else {
        r := NotFound;
      }
    }

    /** POST /test/:id/keep: takes the workspace off the retention queue. */
    method KeepTest(id: int) returns (r: Reply<Test>)
      requires Valid()
      modifies this`deletionQueue
      ensures Valid()
      ensures id !in tests ==> r == NotFound && deletionQueue == old(deletionQueue)
      ensures id in tests ==> r == Found(tests[id]) && deletionQueue == Dequeued(old(deletionQueue), id) && id !in deletionQueue
    {
      DequeuedOrdered(deletionQueue, id);
      DequeueKeepsValid(tests, issued, nextId, deletionQueue, basePath, id);
      if id in tests {
        var index := IndexOfId(deletionQueue, id);
        if index >= 0 {
          deletionQueue := deletionQueue[..index] + deletionQueue[index + 1..];
        }
        r := Found(tests[id]);
      } else {
        r := NotFound;
      }
    }

    /** POST /test/:id/done: kills the workspace's commands and keeps
        everything else. */
    method FinishTest(id: int) returns (r: Reply<Test>)
      requires Valid()
      modifies this`kills
      ensures Valid()
      ensures id !in tests ==> r == NotFound && kills == old(kills)
      ensures id in tests ==> r == Found(tests[id]) && kills == old(kills) + CommandKills(tests[id])
    {
      if id in tests {
        CleanUpRunningProcesses(tests[id]);
        r := Found(tests[id]);
      } else {
        r := NotFound;
      }
    }

    /** POST /test/:id/delete: removes the workspace from the queue and from
        the store, killing its commands. */
    method DeleteTest(id: int) returns (r: Reply<()>)
      requires Valid()
      modifies this`deletionQueue, this`tests, this`kills
      ensures Valid()
      ensures id !in old(tests) ==> r == NotFound && tests == old(tests) && deletionQueue == old(deletionQueue) && kills == old(kills)
      ensures id in old(tests) ==>
                && r == Found(()) && tests == old(tests) - {id} && id !in deletionQueue
                && deletionQueue == Dequeued(old(deletionQueue), id)
                && kills == old(kills) + CommandKills(old(tests)[id])
      ensures FinalStatusesKept(old(tests), tests)
    {
      DequeuedOrdered(deletionQueue, id);
      DequeueKeepsValid(tests, issued, nextId, deletionQueue, basePath, id);
      if id in tests {
        var index := IndexOfId(deletionQueue, id);
        if index >= 0 {
          deletionQueue := deletionQueue[..index] + deletionQueue[index + 1..];
        }
        CleanAndDeleteTest(id);
        r := Found(());
      } else {
        r := NotFound;
      }
    }

    /** POST /test/:id/file?path=P: the file at P holds what reached the
        disk (the whole body when the stream finished); 500 when the stream
        reported an error. */
    method PutFile(id: int, path: string, written: Bytes, streamOk: bool) returns (r: Reply<()>)
      requires Valid()
      modifies this`tests
      ensures Valid()
      ensures id !in old(tests) ==> r == NotFound && tests == old(tests)
      ensures id in old(tests) ==>
                && tests == old(tests)[id := old(tests)[id].(files := old(tests)[id].files[path := written])]
                && r == (if streamOk then Found(()) else WriteFailed)
      ensures FinalStatusesKept(old(tests), tests)
    {
      if id !in tests {
        r := NotFound;
        return;
      }
      var t := tests[id];
      tests := tests[id := t.(files := t.files[path := written])];
      r := if streamOk then Found(()) else WriteFailed;
    }

    /** GET /test/:id/file?path=P. */
    method GetFile(id: int, path: string) returns (r: Reply<Bytes>)
      ensures r.Found? <==> id in tests && path in tests[id].files
      ensures r.Found? ==> r.value == tests[id].files[path]
      ensures !r.Found? ==> r == NotFound
    {
      if id !in tests {
        r := NotFound;
        return;
      }
      if path !in tests[id].files {
        r := NotFound;
        return;
      }
      r := Found(tests[id].files[path]);
    }

    /** POST /test/:id/command?cmd=C&cwd=D: records command `nextCommand`
        as `started` and starts it in the workspace folder joined with D. */
    method NewCommand(id: int, command: string, cwd: string) returns (r: Reply<Command>)
      requires Valid()
      modifies this`tests
      ensures Valid()
      ensures id !in old(tests) ==> r == NotFound && tests == old(tests)
      ensures id in old(tests) ==>
                var t := old(tests)[id];
                && r.Found?
                && r.value.id == t.nextCommand
                && r.value.status == Started && r.value.result == "" && r.value.command == command
                && r.value.stderr.None? && r.value.code.None? && r.value.signal.None?
                && r.value.proc == Process(ReplaceChar(command, '/', pathSep), PathJoin(t.folder, cwd),
                                           CommandEnv(processEnv, IntToString(id), t.folder), false)
                && tests == old(tests)[id := t.(commands := t.commands[t.nextCommand := r.value], nextCommand := t.nextCommand + 1)]
      ensures FinalStatusesKept(old(tests), tests)
    {
      if id !in tests {
        r := NotFound;
        return;
      }
      var t := tests[id];
      var commandId := t.nextCommand;
      var env := CommandEnv(processEnv, IntToString(id), t.folder);
      var proc := Process(ReplaceChar(command, '/', pathSep), PathJoin(t.folder, cwd), env, false);
      var cmd := Command(commandId, Started, command, "", None, None, None, proc);
      var updated := t.(commands := t.commands[commandId := cmd], nextCommand := commandId + 1);
      StartKeepsTestValid(t, cmd);
      ReplaceKeepsValid(tests, issued, nextId, deletionQueue, basePath, updated);
      assert commandId !in t.commands;
      UpdateKeepsFinal(tests, id, updated);
      tests := tests[id := updated];
      r := Found(cmd);
    }

    /** The end of a command's process: a command still running gets its
        final status, output, code and signal; an event for a command that
        is gone or has already ended changes nothing. */
    method ProcessExited(id: int, commandId: int, ev: ExitEvent)
      requires Valid()
      modifies this`tests
      ensures Valid()
      ensures if id in old(tests) && commandId in old(tests)[id].commands && !old(tests)[id].commands[commandId].proc.exited
              then var t := old(tests)[id];
                   tests == old(tests)[id := t.(commands := t.commands[commandId := Finished(t.commands[commandId], ev)])]
              else tests == old(tests)
      ensures FinalStatusesKept(old(tests), tests)
    {
      if id in tests && commandId in tests[id].commands && !tests[id].commands[commandId].proc.exited {
        var t := tests[id];
        tests := tests[id := t.(commands := t.commands[commandId := Finished(t.commands[commandId], ev)])];
      }
    }

    /** POST /test/:id/command/:command/kill?signal=S: sends S, or the
        default signal when S is empty, to the command's process. */
    method KillCommand(id: int, commandId: int, signal: string) returns (r: Reply<()>)
      modifies this`kills
      ensures id in tests && commandId in tests[id].commands ==>
                r == Found(()) && kills == old(kills) + [KillRequest(id, commandId, if signal == "" then None else Some(signal))]
      ensures !(id in tests && commandId in tests[id].commands) ==> r == NotFound && kills == old(kills)
    {
      if id in tests && commandId in tests[id].commands {
        kills := kills + [KillRequest(id, commandId, if signal == "" then None else Some(signal))];
        r := Found(());
      } else {
        r := NotFound;
      }
    }

    /** GET /test/:id/command/:command. */
    method GetCommand(id: int, commandId: int) returns (r: Reply<Command>)
      ensures r.Found? <==> id in tests && commandId in tests[id].commands
      ensures r.Found? ==> r.value == tests[id].commands[commandId]
      ensures !r.Found? ==> r == NotFound
    {
      if id in tests && commandId in tests[id].commands {
        r := Found(tests[id].commands[commandId]);
      } else {
        r := NotFound;
      }
    }
  }

  /** `indexOf` on the retention queue. */
  method IndexOfId(q: seq<int>, x: int) returns (index: int)
    ensures -1 <= index < |q|
    ensures index == -1 <==> x !in q
    ensures index >= 0 ==> q[index] == x && x !in q[..index]
    ensures index >= 0 ==> q[..index] + q[index + 1..] == Dequeued(q, x)
  {
    index := 0;
    while index < |q| && q[index] != x
      invariant 0 <= index <= |q|
      invariant forall k :: 0 <= k < index ==> q[k] != x
    {
      index := index + 1;
    }
    if index == |q| {
      index := -1;
    } else {
      DequeuedAt(q, x, index);
    }
  }
}
