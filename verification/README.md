# remotebuild test tooling and iOS build core, in Dafny

This project models the parts of remotebuild that test a remote build
agent and the decision logic of its iOS builder:

- **taco-test-agent** (`TestAgent`): an HTTP server that keeps numbered
  test workspaces on a remote machine. Each workspace holds numbered shell
  commands. A FIFO retention queue bounds how many workspaces are kept
  (ten). Every HTTP handler is a method of the `TestAgentServer` class,
  whose maps and queue the handlers update in place.
- **Client HTTP helpers** (`RemotebuildUtils`): URL building, starting,
  polling and killing commands, waiting for success, running commands in
  sequence, the line-buffered stream replacer and port validation.
- **Test handles** (`RemoteTestHandle`): the `RemoteTest` and
  `RemoteCommand` classes of the internal tests.
- **Isolated workspace** (`IsolatedWorkspace`): a numbered folder per test
  instance, processes run with HOME and APPDATA pointing at it, and
  cleanup that kills every process it started.
- **remote-test-runner**: the command line and configuration checks
  (`RemoteTestRunner`), the shapes it passes around (`RunnerInterfaces`),
  the suite factory (`SuiteFactory`), the sequential suite runner
  (`Runner`), the shared suite base (`AbstractSuite`), the remote suite
  (`RemoteSuiteModel`) and the VirtualBox helpers (`VmUtils`).
- **iOS builder** (`IosBuild`): the one-build-per-process message
  handler, the cordova/node version gate, artifact naming, the `.app`
  rename and the Xcode 8 development-team setting.
- **configureRemote helper** (`ConfigureRemote`): the prompt-answering
  state machine that drives `taco remote add`.

Asynchronous results are promises that settle as `Resolved`, `Rejected`
or `Pending` (never settles). Processes, HTTP replies, the file system,
timers and the environment are inputs. They are given as parameters,
maps or event sequences, so every behaviour is stated for every possible
outcome of those inputs. The JavaScript string operations the code
relies on (`parseInt`, `replace`, `split`, `indexOf`, `toUpperCase`) are
written out in `Common`, with the edge cases the code meets: an absent
separator or token, leading white space and trailing text for
`parseInt`, an empty string. Their limits are listed under "Left out".

Where the code has a bug (see "Findings"), the operations of the model
follow the corrected rule. Their "## Model" rows start with
"corrected:", and the as-written rule is a separate member with a lemma
that shows the difference. The one exception is the stream replacer. It
keeps the as-written first-occurrence rule, and the corrected global
rule is stated beside it.

## Model

| member | source | states |
|---|---|---|
| Common.DigitRun | internal_tools/tests/remote-test-runner/utils/remotebuildUtils.ts:222 | parseInt reads the longest run of digits at the start of the text: it is a prefix, all digits, and the next character is not a digit |
| Common.TrimStart | internal_tools/tests/remote-test-runner/utils/remotebuildUtils.ts:222 | parseInt skips leading white space: what is left is no longer and does not start with white space |
| Common.NatToStringDigits | internal_tools/tests/remote-test-runner/utils/vmUtils.ts:303 | a number printed with "%d" is made of decimal digits |
| Common.NatToStringValue | internal_tools/tests/remote-test-runner/utils/vmUtils.ts:303 | the digits printed for a number read back as that number |
| Common.ParseNatToString | internal_tools/tests/remote-test-runner/utils/remotebuildUtils.ts:221-229 | parseInt, with or without radix 10, reads a printed natural number back exactly |
| Common.NatToStringInjective | internal_tools/tests/remote-test-runner/utils/vmUtils.ts:303 | different numbers print differently |
| Common.IntToStringInjective | internal_tools/tests/remote-test-runner/utils/remotebuildUtils.ts:47-54 | different integers, negative ones included, print differently |
| Common.Lookup | internal_tools/tests/internal-tests/test/util/isolatedTest.ts:31-33 | reading an environment variable gives its value exactly when it is set |
| Common.ExitReasonMentions | internal_tools/tests/remote-test-runner/utils/vmUtils.ts:278-282 | the exit reason contains the error output whenever there is any |
| Common.IndexOfChar | internal_tools/tests/remote-test-runner/suites/remoteSuite.ts:115 | indexOf gives -1 or a position holding the character |
| Common.IndexOfCharFirst | internal_tools/tests/remote-test-runner/suites/remoteSuite.ts:115 | no earlier position holds the character, and none at all when it gives -1 |
| Common.ReplaceChar | internal_tools/tests/internal-tests/test/taco-cli/configureRemote.js:14 | replacing one character by another keeps the length and changes exactly the positions holding it |
| Common.ReplaceAbsent | internal_tools/tests/remote-test-runner/utils/remotebuildUtils.ts:184-190 | replacing a token that does not occur changes nothing, whether the first occurrence or all are replaced |
| Common.ReplaceAllSplitsAt | internal_tools/tests/remote-test-runner/utils/remotebuildUtils.ts:190 | a global replace of a token without the character c distributes over a text split at one c |
| Common.Split | internal_tools/tests/remote-test-runner/utils/remotebuildUtils.ts:177-181 | splitting always gives at least one piece, so the last one can always be held back |
| Common.SplitPartsFree | internal_tools/tests/remote-test-runner/utils/remotebuildUtils.ts:177 | no piece of a split contains the separator |
| Common.SplitJoin | internal_tools/tests/remote-test-runner/utils/remotebuildUtils.ts:177 | joining the pieces of a split with its separator gives the text back |
| Common.SplitJoinReplaces | internal_tools/tests/internal-tests/test/taco-cli/configureRemote.js:14 | splitting on one character and joining with another replaces the first by the second everywhere |
| Common.SplitAppend | internal_tools/tests/remote-test-runner/utils/remotebuildUtils.ts:177-181 | the pieces of a text followed by more text are those of the text with its last piece glued to the pieces of the rest |
| Common.MapPromise | internal_tools/tests/internal-tests/test/util/remoteTest.ts:25-28 | mapping a promise's value keeps whether it resolves, and a rejection's reason |
| Common.FirstUnresolved | internal_tools/tests/remote-test-runner/utils/remotebuildUtils.ts:160-164 | every step before the first unresolved one resolved, and that one did not |
| Common.ChainBlocked | internal_tools/tests/remote-test-runner/utils/remotebuildUtils.ts:160-164 | a chain whose start does not resolve starts no step and settles as its start |
| Common.ChainOutcome | internal_tools/tests/remote-test-runner/utils/remotebuildUtils.ts:160-164 | a chain started from a resolved value starts the steps up to and including the first unresolved one and settles as that step, or as the last step when all resolve |
| Common.ToUpper | internal_tools/tests/remote-test-runner/suites/suiteFactory.ts:183 | upper-casing keeps the length |
| Common.PathJoin | internal_tools/tests/internal-tests/test/util/isolatedTest.ts:27 | joining with an empty part keeps the other part; joining two non-empty parts puts one "/" between them |
| Common.ResolvePath | internal_tools/tests/remote-test-runner/remoteTestRunner.ts:75-81 | an absolute path resolves to itself, and resolving against an absolute folder gives an absolute path |
| Common.BasenameIsLastSegment | internal_tools/tests/remote-test-runner/suites/remoteSuite.ts:102 | the basename is the part after the last "/": it holds no "/", ends the path, and is preceded by "/" when shorter than the path |
| Common.Somes | internal_tools/tests/internal-tests/test/util/isolatedTest.ts:41-42 | dropping the NaN results keeps exactly the numbers parsed |
| Common.Highest | internal_tools/tests/internal-tests/test/util/isolatedTest.ts:43 | the highest of a non-empty list is in it and no element exceeds it |
| Common.HighestPlusOne | internal_tools/tests/internal-tests/test/util/isolatedTest.ts:43-44 | the next id is above every number, 1 for none, and otherwise one more than one of them |
| Common.FirstSettling | internal_tools/tests/remote-test-runner/utils/vmUtils.ts:270-290 | the first exit or error event of a process is the one that settles it; no earlier event does |
| TestAgent.AfterExitHandler | internal_tools/tests/taco-test-agent/server.ts:278-282 | the exit handler can only turn a status into `error`: it is `error` exactly when the code is non-zero or it already was |
| TestAgent.FinalStatus | internal_tools/tests/taco-test-agent/server.ts:269-287 | a finished command is never `started`; it is `error` exactly when exec reported an error or the exit code is non-zero, `done` otherwise |
| TestAgent.HandlerOrderIrrelevant | internal_tools/tests/taco-test-agent/server.ts:269-287 | when a non-zero code implies an exec error, the exec callback alone and the callback followed by the exit handler give the same final status |
| TestAgent.Finished | internal_tools/tests/taco-test-agent/server.ts:269-287 | a finished command keeps its id, text, cwd and env and takes the final status, stdout as result, stderr, code and signal |
| TestAgent.CommandEnv | internal_tools/tests/taco-test-agent/server.ts:257-264 | HOME and APPDATA are the workspace folder, TEST_ID the id, ORIGINALHOME/ORIGINALAPDATA the agent's old values, and every other key is inherited from the agent's environment |
| TestAgent.Dequeued | internal_tools/tests/taco-test-agent/server.ts:160-163 | `indexOf` + `splice(index, 1)`: an id not in the queue leaves it unchanged; the queue never grows |
| TestAgent.DequeuedAt | internal_tools/tests/taco-test-agent/server.ts:160-163 | the removal takes out exactly the first occurrence of the id |
| TestAgent.DequeuedMembers | internal_tools/tests/taco-test-agent/server.ts:160-163 | only the id is removed and nothing is added |
| TestAgent.DequeuedOrdered | internal_tools/tests/taco-test-agent/server.ts:156-197 | the deletion queue stays strictly increasing and no longer holds the id |
| TestAgent.CommandKills | internal_tools/tests/taco-test-agent/server.ts:101-109 | cleaning up a workspace kills each of its commands 1 .. nextCommand-1 once, with the default signal |
| TestAgent.Without | internal_tools/tests/taco-test-agent/server.ts:111-121 | deleting ids from `tests` keeps exactly the other workspaces, unchanged |
| TestAgent.NewWorkspace | internal_tools/tests/taco-test-agent/server.ts:125-133 | a new workspace has the given id, folder `basePath/id`, no command, `nextCommand` 1 |
| TestAgent.AdmitKeepsValid | internal_tools/tests/taco-test-agent/server.ts:125-141 | adding workspace `nextId` and queueing it keeps the store invariant (fresh id, queue increasing, queued ids present) |
| TestAgent.DequeueKeepsValid | internal_tools/tests/taco-test-agent/server.ts:156-197 | removing an id from the queue, with or without deleting its workspace, keeps the store invariant |
| TestAgent.EvictKeepsValid | internal_tools/tests/taco-test-agent/server.ts:136-141 | evicting the oldest k queued workspaces keeps the store invariant |
| TestAgent.Overflow | internal_tools/tests/taco-test-agent/server.ts:138-141 | the eviction loop removes just enough entries to leave at most 10 queued, none when there are at most 10 |
| TestAgent.ParsedFolders | internal_tools/tests/taco-test-agent/server.ts:73-74 | each folder name is read with `parseInt(name, 10)` |
| TestAgent.CompareDescending | internal_tools/tests/taco-test-agent/server.ts:75 | the comparator orders numbers from highest to lowest and calls any pair with NaN equal |
| TestAgent.NextIdAsWritten | internal_tools/tests/taco-test-agent/server.ts:77 | `(sortedFolders[0] \|\| 0) + 1`: one more than the first sorted entry, 1 when it is NaN, 0 or missing |
| TestAgent.NonNumericFolderResetsIds | internal_tools/tests/taco-test-agent/server.ts:73-77 | a listing `.DS_Store`, `10`, `9` is already in comparator order and gives next id 1 as written, 11 when the highest number is used |
| TestAgent.TestAgentServer.constructor | internal_tools/tests/taco-test-agent/server.ts:68-79 | corrected: starts empty, with the base path under HOME (or APPDATA) and a next id above every numeric folder (the source reads only the first entry of its sorted listing: NextIdAsWritten) |
| TestAgent.TestAgentServer.CleanUpRunningProcesses | internal_tools/tests/taco-test-agent/server.ts:101-109 | kills every command of the workspace |
| TestAgent.TestAgentServer.CleanAndDeleteTest | internal_tools/tests/taco-test-agent/server.ts:111-121 | removes the workspace if present and kills its commands; otherwise nothing happens |
| TestAgent.TestAgentServer.EvictOldest | internal_tools/tests/taco-test-agent/server.ts:136-141 | shifts the oldest ids off until at most 10 remain, deleting each of their workspaces |
| TestAgent.TestAgentServer.NewTest | internal_tools/tests/taco-test-agent/server.ts:123-143 | hands out `nextId` (fresh, then incremented), creates the empty workspace, queues it and evicts down to 10; keeps the invariant and every final command status |
| TestAgent.TestAgentServer.GetTest | internal_tools/tests/taco-test-agent/server.ts:145-154 | 200 with the workspace iff it exists, 404 otherwise |
| TestAgent.TestAgentServer.KeepTest | internal_tools/tests/taco-test-agent/server.ts:156-169 | known id: leaves `tests` as is and removes the id from the queue; unknown id: 404 and no change |
| TestAgent.TestAgentServer.FinishTest | internal_tools/tests/taco-test-agent/server.ts:171-181 | known id: kills its commands and keeps the workspace and its queue entry; unknown id: 404 |
| TestAgent.TestAgentServer.DeleteTest | internal_tools/tests/taco-test-agent/server.ts:183-197 | known id: removed from queue and `tests`, commands killed; unknown id: 404 and no change |
| TestAgent.TestAgentServer.PutFile | internal_tools/tests/taco-test-agent/server.ts:199-216 | known id: the file at the path becomes the written bytes, 200 or 500 as the stream ends; unknown id: 404 |
| TestAgent.TestAgentServer.GetFile | internal_tools/tests/taco-test-agent/server.ts:218-233 | returns what PutFile last wrote at the path; 404 for a missing file or workspace (files that commands create are not in the model) |
| TestAgent.TestAgentServer.NewCommand | internal_tools/tests/taco-test-agent/server.ts:235-290 | takes id `nextCommand` and increments it, starts the command as `started` with result "", cwd `join(folder, cwd)`, the workspace env and '/' made the path separator; unknown workspace: 404 |
| TestAgent.TestAgentServer.ProcessExited | internal_tools/tests/taco-test-agent/server.ts:269-287 | a running command gets its final status, output, code and signal; nothing else changes |
| TestAgent.TestAgentServer.KillCommand | internal_tools/tests/taco-test-agent/server.ts:292-308 | existing command: its process gets the signal, or the default one when none is given; otherwise 404 |
| TestAgent.TestAgentServer.GetCommand | internal_tools/tests/taco-test-agent/server.ts:310-320 | 200 with the command iff both the workspace and the command exist, 404 otherwise |
| TestAgent.IndexOfId | internal_tools/tests/taco-test-agent/server.ts:160 | `indexOf`: the first index holding the id, -1 iff absent; splicing there is `Dequeued` |
| TestAgent.ReplaceKeepsValid | internal_tools/tests/taco-test-agent/server.ts:235-290 | updating one workspace in place, its folder kept, keeps the store invariant |
| TestAgent.StartKeepsTestValid | internal_tools/tests/taco-test-agent/server.ts:244-252 | starting a command under the next command id, as "started", keeps the workspace invariant |
| TestAgent.UpdateKeepsFinal | internal_tools/tests/taco-test-agent/server.ts:269-287 | an update that leaves every finished command of a workspace as it was keeps all final statuses |
| TestAgent.ListingInOrder | internal_tools/tests/taco-test-agent/server.ts:75-77 | the parsed listing NaN, 10, 9 is already in the comparator's order, so as written the next id is 1 |
| TestAgent.ListingNextId | internal_tools/tests/taco-test-agent/server.ts:73-77 | the highest number of that listing plus one is 11 |
| RemotebuildUtils.TestUrl | internal_tools/tests/remote-test-runner/utils/remotebuildUtils.ts:47-54 | the URL is the base URL followed by "/test"; exactly when the test id is set and non-zero it continues with "/<id>/<path>" |
| RemotebuildUtils.RequestOptions.constructor | internal_tools/tests/remote-test-runner/utils/remotebuildUtils.ts:47-54 | request options start with the caller's query and no URL |
| RemotebuildUtils.MakeRequestOptions | internal_tools/tests/remote-test-runner/utils/remotebuildUtils.ts:47-54 | the same options object is returned, its URL set to the test URL and its query left as it was |
| RemotebuildUtils.TestUrlDistinct | internal_tools/tests/remote-test-runner/utils/remotebuildUtils.ts:47-54 | two different non-zero test ids give two different URLs for the same path |
| RemotebuildUtils.PollUrl | internal_tools/tests/remote-test-runner/utils/remotebuildUtils.ts:89-102 | polling a command asks for the test URL of "command/<commandId>" |
| RemotebuildUtils.PollForCommandFinish | internal_tools/tests/remote-test-runner/utils/remotebuildUtils.ts:89-102 | the poll never settles exactly while every reply says "started"; it resolves only with a 200 reply whose status is not "started" after only "started" replies, and rejects only on the first transport error or non-200 status |
| RemotebuildUtils.PollIgnoresLaterReplies | internal_tools/tests/remote-test-runner/utils/remotebuildUtils.ts:89-102 | once the poll has settled, further replies do not change its outcome |
| RemotebuildUtils.StartCommandRequest | internal_tools/tests/remote-test-runner/utils/remotebuildUtils.ts:104-111 | starting a command POSTs to the "command" URL with a query holding "cmd" and, exactly when the working directory is truthy, "cwd", and nothing else |
| RemotebuildUtils.KillOptionsAsWritten | internal_tools/tests/remote-test-runner/utils/remotebuildUtils.ts:113-131 | as written, a truthy signal leaves the request without any query |
| RemotebuildUtils.KillSignalNeverForwarded | internal_tools/tests/remote-test-runner/utils/remotebuildUtils.ts:113-131 | as written, the server never receives the caller's signal |
| RemotebuildUtils.KillOptions | internal_tools/tests/remote-test-runner/utils/remotebuildUtils.ts:113-131 | corrected: the request carries a query exactly when the signal is truthy |
| RemotebuildUtils.KillSignalForwarded | internal_tools/tests/remote-test-runner/utils/remotebuildUtils.ts:113-131 | corrected: the server receives the caller's signal when it is truthy and none otherwise |
| RemotebuildUtils.KillCommandRequest | internal_tools/tests/remote-test-runner/utils/remotebuildUtils.ts:113-131 | corrected: killing POSTs to "command/<commandId>/kill" and forwards the signal when it is truthy (the source never forwards it: KillOptionsAsWritten) |
| RemotebuildUtils.ThenPoll | internal_tools/tests/remote-test-runner/utils/remotebuildUtils.ts:123-130 | killing (and, on a workspace handle, starting then polling) rejects with the transport error or the non-200 response of the first request; it resolves only after a 200 reply followed by a snapshot that is not "started" |
| RemotebuildUtils.RunCommandAndWait | internal_tools/tests/remote-test-runner/utils/remotebuildUtils.ts:133-142 | a failed start rejects (transport error, or "Error in command" plus the command for a non-200 status); a started command's outcome is the poll's; a resolved result is never "started"; the poll replies are taken to be those for the command the agent created (at PollUrl of its id), which the contract does not state |
| RemotebuildUtils.FailureMessageMentions | internal_tools/tests/remote-test-runner/utils/remotebuildUtils.ts:148-155 | the failure message names the command, its result and its stderr |
| RemotebuildUtils.RunCommandAndWaitForSuccess | internal_tools/tests/remote-test-runner/utils/remotebuildUtils.ts:148-155 | the command succeeds exactly when it resolved with a status other than "error"; an "error" status rejects with the failure message; any other rejection passes through |
| RemotebuildUtils.AsSteps | internal_tools/tests/remote-test-runner/utils/remotebuildUtils.ts:160-164 | each command's outcome becomes one step of the chain, in order |
| RemotebuildUtils.RunCommandsInSequence | internal_tools/tests/remote-test-runner/utils/remotebuildUtils.ts:160-164 | the chain of commands run one after another resolves with no result for an empty list; what it settles to for every list of outcomes is stated by SequenceStopsAtFirstFailure |
| RemotebuildUtils.SequenceStopsAtFirstFailure | internal_tools/tests/remote-test-runner/utils/remotebuildUtils.ts:160-164 | commands run one after another: every command before the first unresolved one succeeded, no command after it is started, and the sequence's outcome is that command's; when all resolve, all are started and the sequence resolves |
| RemotebuildUtils.LinesFree | internal_tools/tests/remote-test-runner/utils/remotebuildUtils.ts:169-197 | neither the complete lines nor the held-back partial line contain a line break |
| RemotebuildUtils.EmitAppend | internal_tools/tests/remote-test-runner/utils/remotebuildUtils.ts:172-187 | pushing two runs of lines pushes the text of the first followed by that of the second |
| RemotebuildUtils.ChunkLines | internal_tools/tests/remote-test-runner/utils/remotebuildUtils.ts:172-187 | a new chunk extends the complete lines by the complete lines of the held-back text followed by the chunk, and its last piece becomes the held-back line |
| RemotebuildUtils.TransformStep | internal_tools/tests/remote-test-runner/utils/remotebuildUtils.ts:172-187 | what one transform pushes, appended to what was pushed before, is what the whole input so far pushes |
| RemotebuildUtils.StreamReplacer.constructor | internal_tools/tests/remote-test-runner/utils/remotebuildUtils.ts:169-171 | a new replacer has seen no input and pushed nothing |
| RemotebuildUtils.StreamReplacer.Transform | internal_tools/tests/remote-test-runner/utils/remotebuildUtils.ts:172-187 | after each chunk the replacer has pushed exactly the complete lines of all its input so far, each with its first occurrence replaced, and only appended to its output |
| RemotebuildUtils.StreamReplacer.PushLines | internal_tools/tests/remote-test-runner/utils/remotebuildUtils.ts:183-185 | pushing lines appends each, replaced and followed by a line break, to the output |
| RemotebuildUtils.StreamReplacer.Flush | internal_tools/tests/remote-test-runner/utils/remotebuildUtils.ts:188-194 | after flushing the whole output is that of the complete lines followed by the remaining line with every occurrence replaced |
| RemotebuildUtils.StreamReplaceFirstOnly | internal_tools/tests/remote-test-runner/utils/remotebuildUtils.ts:184-190 | as written, "aa\n" becomes "ba\n" while "aa" becomes "bb": complete lines get only their first occurrence replaced |
| RemotebuildUtils.StreamOutput | internal_tools/tests/remote-test-runner/utils/remotebuildUtils.ts:169-197 | as written: the text the source's replacer emits for a whole input; empty input emits nothing and a single unterminated line gets every occurrence replaced; TransformStep ties the stepwise replacer to it and StreamReplaceFirstOnly shows complete lines getting only their first occurrence replaced |
| RemotebuildUtils.IntendedIsGlobalReplace | internal_tools/tests/remote-test-runner/utils/remotebuildUtils.ts:169-197 | corrected: replacing every occurrence on every line gives the global replacement of the whole input, however it was chunked, for a token without a line break |
| RemotebuildUtils.PortValidRange | internal_tools/tests/remote-test-runner/utils/remotebuildUtils.ts:221-229 | a port written in decimal is valid exactly when it lies in 1 .. 65535 |
| RemotebuildUtils.PortBoundaries | internal_tools/tests/remote-test-runner/utils/remotebuildUtils.ts:221-229 | "0" and "65536" are rejected |
| RemotebuildUtils.IsPortValid | internal_tools/tests/remote-test-runner/utils/remotebuildUtils.ts:221-229 | a valid port string is never empty; PortValidRange states that a decimal port is valid exactly when it lies in 1 .. 65535 |
| RemoteTestHandle.RemoteCommand.constructor | internal_tools/tests/internal-tests/test/util/remoteTest.ts:18-22 | a command handle records the agent, the workspace id and the command's snapshot |
| RemoteTestHandle.RemoteCommand.PollTarget | internal_tools/tests/internal-tests/test/util/remoteTest.ts:24-25 | a handle polls the command URL of its own command id in its own workspace |
| RemoteTestHandle.RemoteCommand.PollForFinish | internal_tools/tests/internal-tests/test/util/remoteTest.ts:24-29 | when the poll resolves the handle holds the final snapshot (never "started") and resolves with itself; when it rejects or never settles the snapshot is unchanged and the failure passes through |
| RemoteTestHandle.RemoteCommand.Kill | internal_tools/tests/internal-tests/test/util/remoteTest.ts:31-33 | corrected: killing posts to its own command's kill URL and forwards a truthy signal (the source never does: KillOptionsAsWritten); it settles as ThenPoll does: a transport error rejects, a non-200 reply rejects with the response, and a 200 reply settles as the poll of the command |
| RemoteTestHandle.CreateRequest | internal_tools/tests/internal-tests/test/util/remoteTest.ts:45 | creating a workspace posts to "<base>/test" with no query |
| RemoteTestHandle.RemoteTest.constructor | internal_tools/tests/internal-tests/test/util/remoteTest.ts:42-54 | a 200 reply records the new workspace id and makes it ready; any other status rejects with "Failed to instantiate new remote test"; a transport error rejects with that error; no id is recorded on failure |
| RemoteTestHandle.RemoteTest.Cleanup | internal_tools/tests/internal-tests/test/util/remoteTest.ts:60-65 | "done" is posted to the workspace exactly when an id is recorded (and non-zero); otherwise nothing is sent and cleanup resolves |
| RemoteTestHandle.RemoteTest.StartCommand | internal_tools/tests/internal-tests/test/util/remoteTest.ts:75-84 | the start request is that of startCommand; the result resolves exactly on a 200 reply, with a new handle on the returned command in this workspace; otherwise it rejects with the response or the transport error |
| RemoteTestHandle.RemoteTest.RunCommandAndWait | internal_tools/tests/internal-tests/test/util/remoteTest.ts:86-90 | the handle settles as starting and polling does, holding the final snapshot when it resolves |
| RemoteTestHandle.RemoteTest.RunCommandAndWaitForSuccess | internal_tools/tests/internal-tests/test/util/remoteTest.ts:92-99 | it resolves exactly when waiting resolves with a status other than "error"; an "error" status rejects with a message naming the command, its result and its stderr; other outcomes pass through |
| IsolatedWorkspace.ParsedNames | internal_tools/tests/internal-tests/test/util/isolatedTest.ts:41 | each folder name is parsed on its own, in order, with the radix-0 parse |
| IsolatedWorkspace.NextTest | internal_tools/tests/internal-tests/test/util/isolatedTest.ts:38-48 | an unreadable root gives 1; otherwise the next id is above every numeric folder name and is 1 or one more than such a name |
| IsolatedWorkspace.NextTestPastFolder | internal_tools/tests/internal-tests/test/util/isolatedTest.ts:38-48 | a folder named by a decimal number k forces the next id above k |
| IsolatedWorkspace.ExecCwdInsideWorkspace | internal_tools/tests/internal-tests/test/util/isolatedTest.ts:66-70 | a missing or relative working directory lands inside the workspace folder; an absolute one is kept as given; under an absolute root the result is absolute |
| IsolatedWorkspace.ExecCwd | internal_tools/tests/internal-tests/test/util/isolatedTest.ts:66-70 | a missing or empty working directory is replaced by the workspace folder; ExecCwdInsideWorkspace places every relative one inside it |
| IsolatedWorkspace.Overlay | internal_tools/tests/internal-tests/test/util/isolatedTest.ts:62-65 | the instance's own variables overwrite the inherited ones, every other inherited variable is kept, and nothing else is added |
| IsolatedWorkspace.TestCounter.constructor | internal_tools/tests/internal-tests/test/util/isolatedTest.ts:38-48 | the shared counter starts at the next free test id |
| IsolatedWorkspace.IsolatedTest.constructor | internal_tools/tests/internal-tests/test/util/isolatedTest.ts:25-36 | a new instance takes the counter's value as its id and increments it, owns the folder "<root>/<id>", points HOME and APPDATA at it, keeps the original HOME and APPDATA, and has started no process |
| IsolatedWorkspace.IsolatedTest.ProcessEnv | internal_tools/tests/internal-tests/test/util/isolatedTest.ts:61-65 | a process's environment is the instance's own variables over the caller's over the test process's |
| IsolatedWorkspace.IsolatedTest.Exec | internal_tools/tests/internal-tests/test/util/isolatedTest.ts:59-75 | exec runs the command in the resolved working directory with the composed environment and records the process |
| IsolatedWorkspace.IsolatedTest.Spawn | internal_tools/tests/internal-tests/test/util/isolatedTest.ts:89-99 | spawn runs the command with its arguments and the caller's working directory, with the composed environment, and records the process |
| IsolatedWorkspace.IsolatedTest.Cleanup | internal_tools/tests/internal-tests/test/util/isolatedTest.ts:50-57 | cleanup kills every process started, removes the folder exactly when asked, and rejects exactly when a requested removal fails |
| IsolatedWorkspace.TwoInstances | internal_tools/tests/internal-tests/test/util/isolatedTest.ts:25-27 | two instances created one after the other get increasing ids and different folders |
| IsolatedWorkspace.FoldersDistinct | internal_tools/tests/internal-tests/test/util/isolatedTest.ts:27 | different ids give different workspace folders |
| RemoteTestRunner.IndexOfElem | internal_tools/tests/remote-test-runner/remoteTestRunner.ts:57 | the index of the first occurrence, or -1 exactly when the element is absent |
| RemoteTestRunner.IndexOfElemAfter | internal_tools/tests/remote-test-runner/remoteTestRunner.ts:57 | an element absent from a prefix is found right after it |
| RemoteTestRunner.ParseArgs | internal_tools/tests/remote-test-runner/remoteTestRunner.ts:49-102 | the splice steps of parseArgs give the parse result of the arguments, which the lemmas below characterise |
| RemoteTestRunner.UsageErrorIffNoFolder | internal_tools/tests/remote-test-runner/remoteTestRunner.ts:53-72 | the usage error comes exactly when nothing but a "--reporter" flag and its value follows the first two entries |
| RemoteTestRunner.ParsedThroughDrop | internal_tools/tests/remote-test-runner/remoteTestRunner.ts:57-67 | the parse sees the arguments only through what removing the first "--reporter" and its value leaves, plus that value |
| RemoteTestRunner.DropReporterAround | internal_tools/tests/remote-test-runner/remoteTestRunner.ts:57-67 | the first "--reporter" is removed together with the value after it, wherever it stands |
| RemoteTestRunner.DropReporterLast | internal_tools/tests/remote-test-runner/remoteTestRunner.ts:62-66 | a "--reporter" with nothing after it is removed and sets no reporter |
| RemoteTestRunner.ReporterAnywhere | internal_tools/tests/remote-test-runner/remoteTestRunner.ts:57-99 | a "--reporter r" pair anywhere among the arguments sets the reporter to r and changes nothing else of the result |
| RemoteTestRunner.DanglingReporterIgnored | internal_tools/tests/remote-test-runner/remoteTestRunner.ts:62-66 | a trailing "--reporter" without a value leaves the result as if it were absent |
| RemoteTestRunner.ValidateArgs | internal_tools/tests/remote-test-runner/remoteTestRunner.ts:107-137 | validation passes exactly when the test folder exists, is a directory, holds package.json and testConfig.json, and a given sources folder exists and is a directory; each failure gives the message of the first check that fails |
| RemoteTestRunner.ParseTestConfig | internal_tools/tests/remote-test-runner/remoteTestRunner.ts:143-162 | the config is accepted exactly when the file was read and parsed and its root has a "suites" array, which it keeps; a read failure gives the header, a line break and the error; a `null` root fails with the TypeError of reading `suites` off it; otherwise the invalid-config message |
| Runner.Reached | internal_tools/tests/remote-test-runner/runner.ts:29-39 | the number of suites started never exceeds the number of suites |
| Runner.Failures | internal_tools/tests/remote-test-runner/runner.ts:34-38 | every logged failure belongs to a suite that exists |
| Runner.Indices | internal_tools/tests/remote-test-runner/runner.ts:29 | the suites are started by their index, in order |
| Runner.BlockedIff | internal_tools/tests/remote-test-runner/runner.ts:29-39 | the chain stops exactly when some suite's run never settles |
| Runner.ReachedUpToFirstPending | internal_tools/tests/remote-test-runner/runner.ts:29-39 | without a suite that never settles every suite is started; otherwise the suites are started up to and including the first that never settles |
| Runner.FailuresAreFailedSuites | internal_tools/tests/remote-test-runner/runner.ts:34-38 | exactly the started suites whose run rejected are logged, with their reason |
| Runner.FailureDoesNotStopLaterSuites | internal_tools/tests/remote-test-runner/runner.ts:34-38 | a suite that rejects does not stop the next one from starting |
| Runner.ReachedMonotone | internal_tools/tests/remote-test-runner/runner.ts:29-39 | adding suites never starts fewer of the earlier ones |
| Runner.RejectsIffSomeFailed | internal_tools/tests/remote-test-runner/runner.ts:39-46 | when every suite settles, the overall result rejects exactly when some suite rejected, with the critical-error message |
| Runner.RunTests | internal_tools/tests/remote-test-runner/runner.ts:19-47 | corrected: building throws exactly when some suite cannot be built under the corrected BuildSuite, naming the first such suite, and nothing is started; otherwise the suites run in order and the result, the suites started and the failures logged are those of the chain |
| SuiteFactory.GetSuiteTypeFromString | internal_tools/tests/remote-test-runner/suites/suiteFactory.ts:182-190 | as written: the type is rejected with "Invalid suite type: " and the given string exactly when its upper case is none of LOCAL, REMOTE, VM and the enum's numeric keys 0, 1, 2 |
| SuiteFactory.NumericSuiteTypeBuildsNothing | internal_tools/tests/remote-test-runner/suites/suiteFactory.ts:105-117 | as written: type "0" passes the lookup, matches no case of the switch, and so yields no suite, while the corrected lookup rejects it |
| SuiteFactory.SuiteTypeOf | internal_tools/tests/remote-test-runner/suites/suiteFactory.ts:182-190 | corrected: a type is accepted exactly when its upper case is LOCAL, REMOTE or VM, each giving its own kind; anything else is rejected with "Invalid suite type: " and the given string |
| SuiteFactory.SuiteTypeAgreesOnNames | internal_tools/tests/remote-test-runner/suites/suiteFactory.ts:182-190 | the corrected lookup gives the same kind as the enum on the three names, and the same error wherever the enum rejects |
| SuiteFactory.ForwardSlashes | internal_tools/tests/remote-test-runner/suites/suiteFactory.ts:96 | backslashes become forward slashes: none is left and the length is kept |
| SuiteFactory.ResolveFiles | internal_tools/tests/remote-test-runner/suites/suiteFactory.ts:192-205 | every resolved file was matched by one of the globs, with its backslashes turned into forward slashes |
| SuiteFactory.ResolveFilesAppend | internal_tools/tests/remote-test-runner/suites/suiteFactory.ts:192-205 | the files of two lists of globs are those of the first followed by those of the second |
| SuiteFactory.ResolveFilesComplete | internal_tools/tests/remote-test-runner/suites/suiteFactory.ts:192-205 | every file a glob matches is among the resolved files |
| SuiteFactory.SiblingFolderPassesPrefixCheck | internal_tools/tests/remote-test-runner/suites/suiteFactory.ts:88 | as written: "/t/pkg2/s.js" passes the check of being under "/t/pkg", though it lies in a sibling folder |
| SuiteFactory.ScriptUnderTestsAsWritten | internal_tools/tests/remote-test-runner/suites/suiteFactory.ts:88 | as written: the check holds exactly when the test folder's text is a prefix of the script path; SiblingFolderPassesPrefixCheck gives a sibling folder it lets through |
| SuiteFactory.FolderPrefix | internal_tools/tests/remote-test-runner/suites/suiteFactory.ts:88 | corrected: the test folder's path ending in exactly one added "/" (none added when it already ends in one), which the folder's path prefixes |
| SuiteFactory.ScriptUnderTestsMeansInside | internal_tools/tests/remote-test-runner/suites/suiteFactory.ts:88 | corrected: a script is under the test folder exactly when its path starts with the folder's path followed by a "/" (the folder's own trailing "/" counts, so "/" holds "/s.js"); the corrected check is stricter than the prefix check |
| SuiteFactory.SetupScriptPath | internal_tools/tests/remote-test-runner/suites/suiteFactory.ts:67-100 | corrected: a relative script path is joined to the test folder; it is accepted exactly when it names an existing file inside the test folder (the source's check is a raw prefix test: ScriptUnderTestsAsWritten), giving its relative path with forward slashes; a missing path, a directory and an existing file outside the test folder each give their own message |
| SuiteFactory.ArgsOptions | internal_tools/tests/remote-test-runner/suites/suiteFactory.ts:55-65 | the build options carry the reporter and the sources folder exactly when they are truthy, and nothing else |
| SuiteFactory.BuildRemoteSuite | internal_tools/tests/remote-test-runner/suites/suiteFactory.ts:131-149 | a remote suite is built exactly when the IP and the port are given and the port is valid, with the suite's files, folder, IP, port and options; each missing or invalid attribute gives its own message, in the source's order |
| SuiteFactory.VmOptions | internal_tools/tests/remote-test-runner/suites/suiteFactory.ts:168-176 | "cloneVm" and "keepVmOnTestPass" are taken from the suite when present there; every other option is kept |
| SuiteFactory.BuildVmSuite | internal_tools/tests/remote-test-runner/suites/suiteFactory.ts:151-180 | a VM suite is built exactly when the template and the startup port are given and the port is valid, with the VM options; each missing or invalid attribute gives its own message, in the source's order |
| SuiteFactory.BuildKind | internal_tools/tests/remote-test-runner/suites/suiteFactory.ts:102-115 | the suite built is of the kind asked for, with the given files and folder; a local suite always builds with the options unchanged |
| SuiteFactory.BuildSuite | internal_tools/tests/remote-test-runner/suites/suiteFactory.ts:32-117 | corrected: a suite without a type, with a type other than LOCAL, REMOTE or VM (the source also lets "0", "1" and "2" through and builds no suite: GetSuiteTypeFromString), without a testFiles array, whose globs match nothing or whose setup script is rejected fails with the message of the first failing check; a built suite has a known type, the resolved non-empty files, the reporter and sources of the arguments and the relative setup script exactly when one was given |
| SuiteFactory.BuildEach | internal_tools/tests/remote-test-runner/suites/suiteFactory.ts:32-123 | all entries are built exactly when each entry builds, in order; otherwise the first entry that fails is reported as "Error building suite #k" with its message (generic in the per-entry build, which the model gives the corrected BuildSuite) |
| SuiteFactory.BuildSuites | internal_tools/tests/remote-test-runner/suites/suiteFactory.ts:29-124 | corrected: buildSuites succeeds exactly when every configured suite builds under the corrected BuildSuite, giving the suites in order; otherwise it fails for the first suite that does not build, naming its index and cause |
| AbstractSuite.OrEmpty | internal_tools/tests/remote-test-runner/suites/abstractSuite.ts:23-25 | an option field reads as "" exactly when it is missing or empty, and otherwise as its value |
| AbstractSuite.NewSuiteBase | internal_tools/tests/remote-test-runner/suites/abstractSuite.ts:18-26 | a suite keeps its files and test folder; its reporter, setup script and sources folder are "" exactly when the options or the field are missing or empty, and the field's value otherwise |
| AbstractSuite.Run | internal_tools/tests/remote-test-runner/suites/abstractSuite.ts:28-32 | a suite launches only after its setup resolved, and then settles as the launch does; a setup that rejects or never settles is the suite's outcome |
| AbstractSuite.RunIsOneStepChain | internal_tools/tests/remote-test-runner/suites/abstractSuite.ts:28-37 | running a suite is a one-step chain started from its setup: the launch starts exactly when the setup resolved, and with the default setup the outcome is the launch's |
| RemoteSuiteModel.RemotebuildTestUrl | internal_tools/tests/remote-test-runner/suites/remoteSuite.ts:39-41 | the agent URL is "http://[ip]:port/test" |
| RemoteSuiteModel.RemotebuildTestUrlInjective | internal_tools/tests/remote-test-runner/suites/remoteSuite.ts:39-41 | two different ports of one IP give two different agent URLs |
| RemoteSuiteModel.PackageNameBeforeAt | internal_tools/tests/remote-test-runner/suites/remoteSuite.ts:113-115 | the package name is the text before the first "@": it holds no "@", starts the output and is followed by "@"; without an "@" it is empty |
| RemoteSuiteModel.PackageNameOfInstallLine | internal_tools/tests/remote-test-runner/suites/remoteSuite.ts:113-115 | from an install line "name@version ..." the name is recovered exactly |
| RemoteSuiteModel.LaunchCommand | internal_tools/tests/remote-test-runner/suites/remoteSuite.ts:72-80 | the command enters the installed package and runs mocha on the test files joined by spaces, followed by " --reporter r" exactly when a reporter is set |
| RemoteSuiteModel.LaunchCommandReporterOnly | internal_tools/tests/remote-test-runner/suites/remoteSuite.ts:72-80 | two launch commands for the same package and files are equal exactly when their reporters are |
| RemoteSuiteModel.SourcesActions | internal_tools/tests/remote-test-runner/suites/remoteSuite.ts:166-183 | uploading the sources is, in order: upload "<folder>.tgz", upload the unzip script, install tar, run the unzip script on the archive into the folder |
| RemoteSuiteModel.Settlements | internal_tools/tests/remote-test-runner/suites/remoteSuite.ts:53-69 | each action settles as the agent settles it, in order |
| RemoteSuiteModel.Performed | internal_tools/tests/remote-test-runner/suites/remoteSuite.ts:53-69 | no more actions are performed than were asked for |
| RemoteSuiteModel.ChainResult | internal_tools/tests/remote-test-runner/suites/remoteSuite.ts:173-182 | a chain of actions resolves only when every action in it resolved |
| RemoteSuiteModel.ChainResultIsChainSteps | internal_tools/tests/remote-test-runner/suites/remoteSuite.ts:53-69 | a chain of agent actions behaves as a promise chain: its result and the number of actions started are those of the chain of their settlements |
| RemoteSuiteModel.Done | internal_tools/tests/remote-test-runner/suites/remoteSuite.ts:53-69 | a step's outcome without its value resolves, rejects and stays pending exactly as the step does, with the same reason |
| RemoteSuiteModel.PackSettlement | internal_tools/tests/remote-test-runner/suites/remoteSuite.ts:125-161 | "npm pack" resolves exactly on an exit with no code or code 0, with the archive named by its output inside the temporary folder; a non-zero exit and a spawn error reject with their messages |
| RemoteSuiteModel.PackTestPackage | internal_tools/tests/remote-test-runner/suites/remoteSuite.ts:125-161 | packing settles as the first exit or error event of the process determines, with the output and error output gathered before it |
| RemoteSuiteModel.PackRejectsIffNonZeroExit | internal_tools/tests/remote-test-runner/suites/remoteSuite.ts:135-146 | an exit rejects exactly when its code is non-zero, and the message then starts with the pack error header and contains the error output when there is any |
| RemoteSuiteModel.RemoteSuite.constructor | internal_tools/tests/remote-test-runner/suites/remoteSuite.ts:43-47 | a remote suite keeps the common suite fields, its IP and its port, and has not yet connected, installed or performed anything |
| RemoteSuiteModel.RemoteSuite.Perform | internal_tools/tests/remote-test-runner/suites/remoteSuite.ts:53-69 | performing a chain records the actions started, up to the first that does not resolve, and settles as the chain |
| RemoteSuiteModel.RemoteSuite.UploadTestPackage | internal_tools/tests/remote-test-runner/suites/remoteSuite.ts:92-119 | uploading records the upload, the local removal and the install, stopping at the first failure; it resolves exactly when packing, upload, removal and install resolved, and only then records the installed package name |
| RemoteSuiteModel.RemoteSuite.Setup | internal_tools/tests/remote-test-runner/suites/remoteSuite.ts:49-70 | setup connects to the agent URL; a connection that does not resolve is the outcome; otherwise the package is uploaded and installed, then the sources and the setup script actions run, and only when all resolve is mocha's install asked for and setup resolved, without waiting for that install |
| RemoteSuiteModel.RemoteSuite.Launch | internal_tools/tests/remote-test-runner/suites/remoteSuite.ts:72-87 | launching runs the mocha command for the installed package and settles as that command does |
| RemoteSuiteModel.RemoteSuite.RunSuite | internal_tools/tests/remote-test-runner/suites/remoteSuite.ts:49-87 | the launch runs only after setup resolved, right after mocha's install was asked for; a connection that fails stops the suite without any action |
| RemoteSuiteModel.PackOutcome | internal_tools/tests/remote-test-runner/suites/remoteSuite.ts:125-161 | packing never settles when no exit or error event arrives |
| RemoteSuiteModel.UploadSteps | internal_tools/tests/remote-test-runner/suites/remoteSuite.ts:92-119 | nothing is uploaded unless packing resolved; the archive's basename is uploaded first; the local removal follows exactly when the upload resolved, and the install exactly when the removal also succeeded |
| RemoteSuiteModel.UploadOutcome | internal_tools/tests/remote-test-runner/suites/remoteSuite.ts:92-119 | uploading the package resolves exactly when packing, the upload, the local removal and the install all resolved; a packing failure, a throwing removal and a failed install are each passed on |
| RemoteSuiteModel.PostInstallActions | internal_tools/tests/remote-test-runner/suites/remoteSuite.ts:56-65 | after the install come the four sources actions exactly when a sources folder is set, then the setup script command exactly when a setup script is set |
| VmUtils.Subcommand | internal_tools/tests/remote-test-runner/utils/vmUtils.ts:277 | the subcommand shown in an error is " " and the first argument, or "" exactly when there is no first argument or it is empty |
| VmUtils.VboxSettlement | internal_tools/tests/remote-test-runner/utils/vmUtils.ts:270-290 | a vboxmanage call resolves exactly on an exit with no code or code 0; a spawn error rejects with its own message; a non-zero exit rejects with the vboxmanage failure message |
| VmUtils.InvokeVboxmanageCommand | internal_tools/tests/remote-test-runner/utils/vmUtils.ts:265-297 | the call never settles without an exit or error event; otherwise it settles as the first such event decides, with the error output gathered before it |
| VmUtils.VboxFailureMessageMentions | internal_tools/tests/remote-test-runner/utils/vmUtils.ts:276-286 | the failure message names the subcommand when there is one and contains the error output when there is any |
| VmUtils.SubcommandMentioned | internal_tools/tests/remote-test-runner/utils/vmUtils.ts:277-284 | the failure message names a non-empty subcommand |
| VmUtils.VboxRejectsIffNonZeroExit | internal_tools/tests/remote-test-runner/utils/vmUtils.ts:274-290 | an exit rejects exactly when its code is non-zero, with a message naming the subcommand and holding the error output |
| VmUtils.NameChecked | internal_tools/tests/remote-test-runner/utils/vmUtils.ts:193-260 | each VM operation rejects exactly when the VM name is empty, with its own "invoked with no VM name" message, and otherwise issues its command line |
| VmUtils.CommandLinesNameTheVm | internal_tools/tests/remote-test-runner/utils/vmUtils.ts:193-260 | for a named VM, start, power-off, save-state and unregister each name the VM second; power-off and save-state differ; unregister adds "--delete" exactly when asked |
| VmUtils.DeleteVmIsShutdownThenUnregister | internal_tools/tests/remote-test-runner/utils/vmUtils.ts:151-159 | deleting a VM powers it off and then unregisters it with "--delete", the second only after the first resolved |
| VmUtils.DeleteVm | internal_tools/tests/remote-test-runner/utils/vmUtils.ts:151-159 | an unnamed VM rejects with the deleteVm no-name message; deletion resolves only when both the power-off and the unregistration resolved (DeleteVmIsShutdownThenUnregister gives their order) |
| VmUtils.TrailingDigitCount | internal_tools/tests/remote-test-runner/utils/vmUtils.ts:314 | the counted suffix of the name is made of digits |
| VmUtils.DashBeforeDigits | internal_tools/tests/remote-test-runner/utils/vmUtils.ts:314 | after a dash followed only by digits, those digits are the name's trailing digits |
| VmUtils.TrailingNumberIsCapture | internal_tools/tests/remote-test-runner/utils/vmUtils.ts:314-322 | a name ending in "-" and digits yields the value of those digits; a name that yields a number ends in "-" and the digits it was read from |
| VmUtils.CaptureGivesNumber | internal_tools/tests/remote-test-runner/utils/vmUtils.ts:314-322 | a name of the form "<prefix>-<digits>" yields the value of the digits |
| VmUtils.NumberHasCapture | internal_tools/tests/remote-test-runner/utils/vmUtils.ts:314-322 | a name that yields a number has a dash right before its trailing digits |
| VmUtils.TrailingNumber | internal_tools/tests/remote-test-runner/utils/vmUtils.ts:314-322 | a name yields a number only when it ends in a digit after at least one other character; TrailingNumberIsCapture, CaptureGivesNumber and NumberHasCapture state exactly when it exists and what it is |
| VmUtils.InitializeCounter | internal_tools/tests/remote-test-runner/utils/vmUtils.ts:313-331 | the counter is at least 1, above the number of every runner VM whose name ends in "-<digits>", and one above such a number when above 1 |
| VmUtils.RunnerNameInjective | internal_tools/tests/remote-test-runner/utils/vmUtils.ts:302-303 | different templates or counters never give the same runner name |
| VmUtils.RunnerName | internal_tools/tests/remote-test-runner/utils/vmUtils.ts:302-303 | a runner name starts with "<template>-runner-" and ends with the counter; RunnerNameInjective shows no two runners share one |
| VmUtils.DashDigitsSplit | internal_tools/tests/remote-test-runner/utils/vmUtils.ts:303 | a name splits in at most one way into a part ending in "-" and trailing digits |
| VmUtils.RequestVerdict | internal_tools/tests/remote-test-runner/utils/vmUtils.ts:60-119 | every request the VM sends settles the startup: "/listening" with a valid port from a known address resolves it; an invalid port, a missing address (rejected with its own no-address message), "/error" and any other path reject it with their own messages |
| VmUtils.Settle | internal_tools/tests/remote-test-runner/utils/vmUtils.ts:73-118 | the startup promise settles once: a first settlement is kept, later ones are ignored |
| VmUtils.LastRecorded | internal_tools/tests/remote-test-runner/utils/vmUtils.ts:85-88 | the remotebuild info recorded by a run of requests is that of the last "/listening" request from a known address, or unchanged without one |
| VmUtils.VmInfo.constructor | internal_tools/tests/remote-test-runner/utils/vmUtils.ts:40-55 | a new VM record has its name and no remotebuild info |
| VmUtils.StartupListener.constructor | internal_tools/tests/remote-test-runner/utils/vmUtils.ts:41 | the startup promise of a new listener is pending |
| VmUtils.StartupListener.Reject | internal_tools/tests/remote-test-runner/utils/vmUtils.ts:73-118 | rejecting settles the startup promise unless it was already settled |
| VmUtils.StartupListener.Resolve | internal_tools/tests/remote-test-runner/utils/vmUtils.ts:91 | resolving settles the startup promise unless it was already settled |
| VmUtils.StartupListener.HandleRequest | internal_tools/tests/remote-test-runner/utils/vmUtils.ts:60-119 | handling a request settles the startup promise with its verdict unless already settled, and records the address and port of a "/listening" request from a known address even after the promise settled |
| VmUtils.StartupListener.Serve | internal_tools/tests/remote-test-runner/utils/vmUtils.ts:60-122 | after a run of requests the startup promise holds the first request's verdict, and the info is the last one recorded |
| VmUtils.FirstRequestDecides | internal_tools/tests/remote-test-runner/utils/vmUtils.ts:60-119 | a run of requests settles the startup promise as its first request does |
| VmUtils.LaunchResolvesIff | internal_tools/tests/remote-test-runner/utils/vmUtils.ts:31-145 | the launch resolves exactly when the template is set, the port valid, the clone (if any) and the start succeed, and the first report is a "/listening" with a valid port from a known address; it resolves with the clone's name, or the template's when not cloning |
| VmUtils.LaunchResult | internal_tools/tests/remote-test-runner/utils/vmUtils.ts:31-145 | a launch without a template rejects with its message; a launch resolves only with a template, a valid port and a report from the VM; LaunchResolvesIff and LaunchTimesOut state exactly when it resolves, rejects or times out |
| VmUtils.LaunchTimesOut | internal_tools/tests/remote-test-runner/utils/vmUtils.ts:128-134 | once the VM is started the launch never stays pending: with no report before the five-minute timeout it rejects with the timeout error, otherwise it resolves exactly when the first report does |
| VmUtils.VmHost.constructor | internal_tools/tests/remote-test-runner/utils/vmUtils.ts:313-331 | the runner folder is "<HOME>/VirtualBox VMs/testRuns" and the counter is the highest runner number plus one (1 when no runner VM has a number): it is above every runner VM's number and, when above 1, one runner VM carries the number just below it |
| VmUtils.VmHost.GetNewVmName | internal_tools/tests/remote-test-runner/utils/vmUtils.ts:302-308 | the new name is "<template>-runner-<counter>" and the counter moves on by one |
| VmUtils.VmHost.CloneVm | internal_tools/tests/remote-test-runner/utils/vmUtils.ts:164-188 | without a template the clone rejects and nothing changes; otherwise it takes a new runner name, issues the clone into the runner folder, and resolves with that name when the clone succeeds |
| VmUtils.VmHost.LaunchNewVmWithRemotebuild | internal_tools/tests/remote-test-runner/utils/vmUtils.ts:31-145 | the launch settles as the launch result says (a VM silent until the timeout rejects it), issues the clone and start command lines in order, takes a runner name only when it clones, and a launched VM carries the remotebuild info last recorded |
| VmUtils.NameOf | internal_tools/tests/remote-test-runner/utils/vmUtils.ts:31-145 | a VM result and its name resolve, reject and stay pending together, with the same reason |
| IosBuild.AcquisitionsAppend | src/taco-remote-lib/ios/iosBuild.ts:42-43 | the "AcquiringCordova" updates sent by two runs of messages add up |
| IosBuild.DeliverRunsOnce | src/taco-remote-lib/ios/iosBuild.ts:30-54 | the first build message starts the build, sends "AcquiringCordova" and then the load failure or the build's report; a second message sends "BuildInvokedTwice" and exits with code 1; the language is that of the last message handled |
| IosBuild.OnMessage | src/taco-remote-lib/ios/iosBuild.ts:30-54 | every build message marks the process running, records its language and sends something more; a second message ends the process with exit code 1, a first one leaves the exit code alone |
| IosBuild.AcquiringAtMostOnce | src/taco-remote-lib/ios/iosBuild.ts:30-54 | however many build messages arrive, Cordova is acquired once, and not at all without a message |
| IosBuild.BuildProcess.constructor | src/taco-remote-lib/ios/iosBuild.ts:57 | a new build process is not running, has sent nothing and has not exited |
| IosBuild.BuildProcess.HandleMessage | src/taco-remote-lib/ios/iosBuild.ts:30-54 | handling a message moves the process state as the message handler does |
| IosBuild.VersionOrder | src/taco-remote-lib/ios/iosBuild.ts:67 | version comparison is a strict total order |
| IosBuild.BeforePrepare | src/taco-remote-lib/ios/iosBuild.ts:66-74 | the only failure is "UnsupportedCordovaAndNodeVersion" |
| IosBuild.BeforePrepareGate | src/taco-remote-lib/ios/iosBuild.ts:66-74 | Cordova 5.3.3 or later, or Node before 4.0.0, or no "target-device" and no "deployment-target" preference always passes; Cordova before 5 on Node 4 or later with a "target-device" preference fails |
| IosBuild.Package | src/taco-remote-lib/ios/iosBuild.ts:80-105 | packaging runs an "xcrun -v -sdk iphoneos PackageApplication" command; it resolves and writes the enterprise plist exactly when xcrun succeeds, and rejects exactly when it fails; PackageNames states the full command |
| IosBuild.BasenameAfterSlash | src/taco-remote-lib/ios/iosBuild.ts:85-88 | the last segment of a path ending in "/<name>" is the name |
| IosBuild.BasenameOfJoin | src/taco-remote-lib/ios/iosBuild.ts:87-88 | joining a name without "/" to a folder leaves the name as the last segment |
| IosBuild.PackageNames | src/taco-remote-lib/ios/iosBuild.ts:85-98 | the command Package runs, whatever xcrun reports, is "xcrun -v -sdk iphoneos PackageApplication <app> -o <ipa>", each path quoted: <app> is "platforms/ios/build/device/<id>.app" (base name "<id>.app") and <ipa> is "<cwd>/platforms/ios/build/device/<appName>.ipa" (base name "<appName>.ipa"); on success the plist is "<cwd>/platforms/ios/build/device/<appName>.plist" |
| IosBuild.BuildFolder | src/taco-remote-lib/ios/iosBuild.ts:112-114 | the build folder is "device" exactly for a "--device" build |
| IosBuild.RenameApp | src/taco-remote-lib/ios/iosBuild.ts:107-144 | corrected: renaming always settles |
| IosBuild.RenameAppEffect | src/taco-remote-lib/ios/iosBuild.ts:107-144 | corrected: when the old bundle exists under another name it is moved to the new name, an existing target being removed first; nothing else changes; it rejects exactly when that removal or the rename fails; otherwise it resolves with nothing changed |
| IosBuild.RenameAppAgrees | src/taco-remote-lib/ios/iosBuild.ts:107-144 | the corrected rename agrees with the source's wherever the source's settles |
| IosBuild.RenameAppAsWrittenHangs | src/taco-remote-lib/ios/iosBuild.ts:117-138 | as written, a failed removal of an existing target leaves the rename pending for ever, where the corrected one rejects with the error |
| IosBuild.RenameAppAsWritten | src/taco-remote-lib/ios/iosBuild.ts:107-144 | as written: the rename stays pending only after a failed removal, with the files untouched; a resolved rename moves the old bundle to the new name, or changes nothing when there is nothing to move; RenameAppAsWrittenHangs gives the input that hangs it and RenameAppAgrees shows it agrees with the corrected RenameApp elsewhere |
| IosBuild.MinorPart | src/taco-remote-lib/ios/iosBuild.ts:163 | the optional minor part of the Xcode version is empty or starts with "." |
| IosBuild.DigitRunStops | src/taco-remote-lib/ios/iosBuild.ts:163-166 | a run of digits ends at the first non-digit |
| IosBuild.ParseIntLeadingDigits | src/taco-remote-lib/ios/iosBuild.ts:166 | parseInt in base 10 reads the leading digits and ignores the rest |
| IosBuild.CaptureOfDigits | src/taco-remote-lib/ios/iosBuild.ts:163-165 | after "Xcode " the version captured is the digits and the optional minor part |
| IosBuild.XcodeMajorOf | src/taco-remote-lib/ios/iosBuild.ts:163-166 | the major version read from "Xcode <n>..." is n |
| IosBuild.EnsureTeamFromXcode8 | src/taco-remote-lib/ios/iosBuild.ts:162-177 | Xcode 8 or later leads to ensuring the development team and earlier versions skip it; output not starting with "Xcode " ends with a warning |
| IosBuild.XcodeCheckOf | src/taco-remote-lib/ios/iosBuild.ts:162-177 | the team is ensured exactly when `xcodebuild -version` succeeded and reports a major version of 8 or more; a failed command always ends in a warning |
| IosBuild.DevelopmentTeam | src/taco-remote-lib/ios/iosBuild.ts:182-193 | a team found is never empty; "XCode8InvalidBuildJson" comes exactly when build.json cannot be loaded, and the only other error is "XCode8BuildJsonMissingDevelopmentTeam" |
| IosBuild.WithTeamIdempotent | src/taco-remote-lib/ios/iosBuild.ts:199-204 | adding the team keeps the old text as a prefix and leaves the key in it; without the key the line "\nDEVELOPMENT_TEAM = <team>" is appended; adding a team a second time changes nothing |
| IosBuild.TeamLineNamesKey | src/taco-remote-lib/ios/iosBuild.ts:200 | the appended line contains the key |
| IosBuild.WithTeam | src/taco-remote-lib/ios/iosBuild.ts:199-204 | the new build.xcconfig keeps the old text as a prefix and is the old text itself when that already names DEVELOPMENT_TEAM |
| IosBuild.XcodeProject.constructor | src/taco-remote-lib/ios/iosBuild.ts:197 | the project starts with the given build.xcconfig and nothing logged |
| IosBuild.XcodeProject.EnsureDevelopmentTeam | src/taco-remote-lib/ios/iosBuild.ts:180-207 | a missing or invalid build.json fails with its message and leaves build.xcconfig alone; otherwise the team is added to build.xcconfig |
| IosBuild.XcodeProject.SetSupportProperties | src/taco-remote-lib/ios/iosBuild.ts:146-178 | the step always resolves; only Xcode 8 or later can change build.xcconfig; a version warning or a team error is logged; an older Xcode changes nothing |
| ConfigureRemote.Arg | internal_tools/tests/internal-tests/test/taco-cli/configureRemote.js:8-12 | an argument is defined exactly when the command line is long enough |
| ConfigureRemote.Pin | internal_tools/tests/internal-tests/test/taco-cli/configureRemote.js:12 | the PIN is the seventh argument when it is present and non-empty, and "" otherwise |
| ConfigureRemote.Answers | internal_tools/tests/internal-tests/test/taco-cli/configureRemote.js:10-31 | the three answers are the address, the port (each printed as "undefined" when its argument is missing) and the PIN, in prompt order, each followed by the platform's end of line |
| ConfigureRemote.SpawnPathIsTacoPath | internal_tools/tests/internal-tests/test/taco-cli/configureRemote.js:8-14 | the spawned path is the CLI path with every "/" turned into the platform's separator: unchanged on POSIX; on Windows it has no "/" and is the argument plus ".cmd" |
| ConfigureRemote.OnData | internal_tools/tests/internal-tests/test/taco-cli/configureRemote.js:17-36 | a chunk writes at most one answer, moves the step by at most one, can only end the process with 1, and a chunk naming no keyword changes nothing |
| ConfigureRemote.Next | internal_tools/tests/internal-tests/test/taco-cli/configureRemote.js:16-49 | an exited process ignores every event; the answers written only grow; any event other than output ends the process without writing |
| ConfigureRemote.NextConsistent | internal_tools/tests/internal-tests/test/taco-cli/configureRemote.js:16-49 | every event keeps the session consistent: the step stays within 0..3, the answers written are the first "step" answers in order, and input is closed only after the PIN |
| ConfigureRemote.RunConsistent | internal_tools/tests/internal-tests/test/taco-cli/configureRemote.js:16-49 | any run of events keeps the session consistent |
| ConfigureRemote.RunAfterExit | internal_tools/tests/internal-tests/test/taco-cli/configureRemote.js:38-49 | once the process has exited no event changes anything |
| ConfigureRemote.ExitCodes | internal_tools/tests/internal-tests/test/taco-cli/configureRemote.js:38-49 | a spawn error exits with 1, the child's exit with its code (0 without one), and the timeout with 2 |
| ConfigureRemote.ExpectedConversation | internal_tools/tests/internal-tests/test/taco-cli/configureRemote.js:16-44 | the prompts IP, Port, PIN and Success! in order get the address, the port and the PIN written, then the input closed, and the process exits with the child's code |
| ConfigureRemote.FirstKeywordOnly | internal_tools/tests/internal-tests/test/taco-cli/configureRemote.js:20-23 | a chunk mentioning "IP" answers with the address and moves to step 1; a second such chunk fails the step assertion and exits with 1 |
| ConfigureRemote.RemoteConfigurer.constructor | internal_tools/tests/internal-tests/test/taco-cli/configureRemote.js:8-16 | a new configurer is at step 0 with nothing written and holds the answers from the command line |
| ConfigureRemote.RemoteConfigurer.HandleData | internal_tools/tests/internal-tests/test/taco-cli/configureRemote.js:17-36 | a chunk of output moves the session as the data handler does and keeps it consistent |
| ConfigureRemote.RemoteConfigurer.HandleError | internal_tools/tests/internal-tests/test/taco-cli/configureRemote.js:38-41 | a spawn error ends the process with code 1 |
| ConfigureRemote.RemoteConfigurer.HandleExit | internal_tools/tests/internal-tests/test/taco-cli/configureRemote.js:42-44 | the child's exit ends the process with the child's code, 0 when there is none |
| ConfigureRemote.RemoteConfigurer.HandleTimeout | internal_tools/tests/internal-tests/test/taco-cli/configureRemote.js:46-49 | the timeout ends the process with code 2 |

## Left out

- Real child processes, HTTP transport, streams, directory creation and removal, and file reads and writes: they are events, replies and maps instead.
- Timers: the 1000 ms poll delay, the five-minute VM start-up timeout, the 30-second timeout of the configure helper and the measured `timeTaken` are not modelled as time. The configure helper's timeout is an event. The VM start-up timeout fires when none of the given requests settled the start-up. A poll answers from the next given reply.
- The race between an `exec` callback and the process's `exit` event in the test agent: the exit is one event that carries both.
- `path.join`, `path.resolve`, `path.relative` and `path.basename` are simple string versions without `..` or `.` normalisation. `glob.sync`, `path.relative` in the suite factory and `quotesAroundIfNecessary` are given functions.
- Semantic versions are compared as (major, minor, patch) triples. Pre-release and build tags are not modelled.
- The `decodeURI` of the error a VM reports, and the `listen`/`close` of the local server that waits for a VM.
- RemotebuildUtils.StreamReplacer: takes each chunk as already-decoded text. The source decodes each Buffer chunk on its own, so a multi-byte UTF-8 character split across two chunks is garbled, and then the output does depend on the chunking.
- RemotebuildUtils.StreamReplacer: the token is matched as a literal string. The regular-expression meaning it has in the final flush (metacharacters in the token) is not modelled.
- RemotebuildUtils.StreamReplacer: the `$` patterns (`$&`, `$1`, `$$` and so on) in the replacement string are not expanded. The same holds for Common.ReplaceFirst and Common.ReplaceAll.
- Common.ToUpper: maps the ASCII letters only. JavaScript's `toUpperCase` also maps other letters and can change the length ("ß" becomes "SS"). The suite types it is applied to are compared against ASCII names.
- A partial removal by `rimraf`. An app bundle's contents are a set of paths that is moved or removed whole.
- A failing `readFileSync` of `build.xcconfig` in the development-team setting.
- `parseInt` on numbers beyond double precision: integers are unbounded.
- The internals of `Builder`, cordova, `xcrun`, `xcodebuild` and plist handling. How each call settles is a parameter.
- A second build message that arrives while the first build is still loading its modules.
- The arguments `remote add <platform>` given to the CLI spawned by the configure helper are not modelled; its spawned path is.
- A failed `assert` in the configure helper ends the process with exit code 1, as Node does for an uncaught exception.
- Console logging and reporter output.
- TestAgent.TestAgentServer.constructor: computes the corrected next id, one above the highest numeric folder. As written, the agent reads only the first entry of the listing sorted with a comparator that treats NaN as equal, and JavaScript leaves the order of such a sort to the engine. A listing with a non-numeric name first, such as ".DS_Store", "10", "9", starts at 1 (TestAgent.NonNumericFolderResetsIds).
- TestAgent.TestAgentServer.constructor: requires HOME or APPDATA to be set. With both unset, `path.join(undefined, …)` throws and the agent does not start.
- TestAgent.TestAgentServer.NewCommand: takes the `cmd` query as a string. A request without `cmd` is not modelled. The source still records a `started` command and uses up its id, then throws on `command.split`. The reply is then a 500, and the command stays `started` with no process.
- RemotebuildUtils.KillCommandRequest: forwards a truthy signal, the corrected rule. As written, `killCommand` sends no query for a truthy signal and `signal: undefined` otherwise, so no given signal reaches the agent (RemotebuildUtils.KillOptionsAsWritten, RemotebuildUtils.KillSignalNeverForwarded).
- RemoteTestHandle.RemoteCommand.Kill: builds on the corrected RemotebuildUtils.KillCommandRequest. As written, the signal it is given never reaches the agent.
- SuiteFactory.SetupScriptPath: uses the corrected containment rule. As written, any script whose full path merely starts with the tests folder's text is accepted, such as "/t/pkg2/s.js" under "/t/pkg" (SuiteFactory.SiblingFolderPassesPrefixCheck).
- SuiteFactory.BuildSuite: uses the corrected type lookup. As written, the types "0", "1" and "2" pass the check, match no case and add a `null` suite (SuiteFactory.NumericSuiteTypeBuildsNothing). It also inherits the corrected SuiteFactory.SetupScriptPath.
- SuiteFactory.BuildEach: is generic in the per-entry build. The model uses it with the corrected SuiteFactory.BuildSuite, so it inherits that line.
- SuiteFactory.BuildSuites: inherits the corrected SuiteFactory.BuildSuite. As written, a suite of type "0", "1" or "2" is built as `null` instead of failing the build.
- Runner.RunTests: inherits the corrected SuiteFactory.BuildSuite. As written, a `null` suite built for type "0", "1" or "2" throws when its `run` is called inside the chain. The error is logged, later suites still run, and the run rejects at the end with the critical-error message.
- VmUtils.VmHost.constructor: always gets a listing of the runner folder. When `readdirSync` throws (the folder is missing), loading `VMUtils` itself fails, and the model does not express that.
- TestAgent.TestAgentServer.PutFile: takes the `path` query as a string. A request without `path` makes `path.join` throw in the source, which the HTTP server answers with a 500 reply; that reply is not modelled. The same holds for TestAgent.TestAgentServer.GetFile.
- TestAgent.TestAgentServer.GetFile: sees only the files PutFile wrote into the workspace. The source serves any file that exists under the workspace folder, so a file a command created there is served by the agent but is 404 in the model, and a file a command overwrote is served with its new contents.
- TestAgent.TestAgentServer.GetTest: takes the route's `:id` as a canonical decimal number, and so do KeepTest, FinishTest, DeleteTest, PutFile, GetFile, NewCommand, KillCommand and GetCommand (and `:command` for the last two). The source indexes plain objects with the route string, so "05" finds no workspace even when test 5 exists, and keys inherited from the object prototype such as "constructor" or "toString" count as present: GET /test/constructor replies 200 and DELETE /test/toString replies 200 and deletes nothing. The model answers 404 for every id it does not hold.
- VmUtils.VmHost.constructor: takes HOME as a string. With HOME unset, `path.join(undefined, …)` throws when `VMUtils` is loaded, and nothing runs; that failure is not modelled.
- `RemoteTestRunner.run` and its error handler are not modelled, because they only print and call `process.exit`. The parse and check steps they call are modelled.
- `RemoteTest.uploadFile` and `RemoteTest.downloadFile` are not modelled, because they only pipe file streams. `RemoteTest.runCommandsInSequence` is not modelled separately, because it delegates to `RemotebuildUtils.runCommandsInSequence`, which is modelled.
- `IsolatedTest`'s `promiseExec` is a callback-to-promise wrapper around `exec` and is not modelled separately.
- `taco-cli.ts`, the VM suite, the local suite, the Windows-specific helpers, `appCallback`, `redirectOutput`, `unzip` and `testSetup` are not part of this model.

## Findings

| source | as written | input that shows it | evidently intended | confidence | as-written member | corrected member |
|---|---|---|---|---|---|---|
| internal_tools/tests/remote-test-runner/utils/remotebuildUtils.ts:184 | complete lines go through `line.replace(token, ...)`, which replaces only the first occurrence | token "a", replacement "b", input "aa\n" gives "ba\n" | every occurrence replaced, as the global regular expression of the final flush does | not executed | RemotebuildUtils.StreamReplaceFirstOnly | RemotebuildUtils.IntendedIsGlobalReplace |
| internal_tools/tests/remote-test-runner/suites/suiteFactory.ts:185-189 | the numeric enum's reverse mapping accepts the type "0" and yields no suite kind, so no suite is built | suite type "0" | only LOCAL, REMOTE and VM accepted, anything else rejected as an invalid type | not executed | SuiteFactory.NumericSuiteTypeBuildsNothing | SuiteFactory.SuiteTypeOf |
| internal_tools/tests/remote-test-runner/suites/suiteFactory.ts:88 | the setup script check is a raw string-prefix test on the full paths | tests folder "/t/pkg", script "/t/pkg2/s.js" passes | the script must lie inside the tests folder | not executed | SuiteFactory.SiblingFolderPassesPrefixCheck | SuiteFactory.ScriptUnderTestsMeansInside |
| src/taco-remote-lib/ios/iosBuild.ts:117-138 | when removing an existing target bundle fails, the deferred is never settled | the target bundle exists and its removal fails | the rename rejects with the removal error | not executed | IosBuild.RenameAppAsWrittenHangs | IosBuild.RenameApp |
| internal_tools/tests/taco-test-agent/server.ts:73-77 | the next id is read from the first entry of the listing sorted with a NaN-blind comparator | listing ".DS_Store", "10", "9" gives next id 1 | next id above every numeric folder, 11 here | not executed | TestAgent.NonNumericFolderResetsIds | TestAgent.TestAgentServer.constructor |
| internal_tools/tests/remote-test-runner/utils/remotebuildUtils.ts:113-131 | the two branches on `signal` are swapped: a given signal is dropped and an absent one is sent as undefined | killCommand with signal "SIGINT" sends no signal | the given signal is sent as the query parameter | not executed | RemotebuildUtils.KillSignalNeverForwarded | RemotebuildUtils.KillSignalForwarded |
