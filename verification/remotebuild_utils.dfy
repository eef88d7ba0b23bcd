/** The controller-side client of the test agent: URL building, the
    requests that start, poll and kill commands, the promise logic that
    waits for a command and fails on `error`, the sequencing of several
    commands, the line-buffered stream replacer, and port validation.
    HTTP replies are inputs: a poll is answered by the next element of a
    sequence of replies. */
module RemotebuildUtils {
  import opened Common

  /** A command as the agent reports it (`ICommand`). */
  datatype Snapshot = Snapshot(id: int, status: string, command: string, result: string, stderr: Option<string>)

  datatype Verb = Get | Post

  /** A query string: a key set to `undefined` is kept as None. */
  type Query = map<string, Option<string>>

  /** A request as sent: verb, URL and the `qs` option (None: no `qs`). */
  datatype Request = Request(verb: Verb, url: string, qs: Option<Query>)

  // ---------------------------------------------------------------------
  // URLs

  /** `if (testId)`: a present, non-zero id. */
  predicate TruthyId(testId: Option<int>) {
    testId.Some? && testId.value != 0
  }

  /** The URL `makeRequestOptions` builds: `<base>/test/<id>/<path>` for a
      truthy id, `<base>/test` otherwise. */
  function TestUrl(baseUrl: string, testId: Option<int>, path: string): (u: string)
    ensures baseUrl + "/test" <= u
    ensures !TruthyId(testId) <==> u == baseUrl + "/test"
    ensures TruthyId(testId) ==> u[|baseUrl| + 5..] == "/" + IntToString(testId.value) + "/" + path
  {
    if TruthyId(testId) then baseUrl + "/test/" + IntToString(testId.value) + "/" + path
    else baseUrl + "/test"
  }

  /** A request's options object, whose `url` `makeRequestOptions` sets. */
  class RequestOptions {
    var url: Option<string>
    var qs: Option<Query>

    constructor (qs: Option<Query>)
      ensures this.qs == qs && url.None?
    {
      this.qs := qs;
      url := None;
    }
  }

  /** Sets the URL of `options` and hands the same object back. */
  method MakeRequestOptions(baseUrl: string, options: RequestOptions, testId: Option<int>, path: string) returns (same: RequestOptions)
    modifies options
    ensures same == options
    ensures options.url == Some(TestUrl(baseUrl, testId, path))
    ensures options.qs == old(options.qs)
  {
    if TruthyId(testId) {
      options.url := Some(baseUrl + "/test/" + IntToString(testId.value) + "/" + path);
    } else {
      options.url := Some(baseUrl + "/test");
    }
    same := options;
  }

  /** A piece with no '/' followed by "/" and a tail is determined by the
      whole text. */
  lemma SlashSeparated(x: string, y: string, p: string)
    requires '/' !in x && '/' !in y && x + "/" + p == y + "/" + p
    ensures x == y
  {
    var tail := "/" + p;
    assert IndexOfChar(tail, '/') == 0;
    IndexOfCharAfter(x, tail, '/');
    IndexOfCharAfter(y, tail, '/');
    var s := x + tail;
    assert s == x + "/" + p && s == y + tail;
    assert |x| == |y|;
    assert x == s[..|x|] && y == s[..|y|];
  }

  /** Different positive workspace ids give different URLs for the same
      path, so a request always reaches the workspace it names. */
  lemma TestUrlDistinct(baseUrl: string, m: nat, n: nat, path: string)
    requires 0 < m && 0 < n && m != n
    ensures TestUrl(baseUrl, Some(m), path) != TestUrl(baseUrl, Some(n), path)
  {
    var u := TestUrl(baseUrl, Some(m), path);
    var v := TestUrl(baseUrl, Some(n), path);
    if u == v {
      assert u[|baseUrl| + 5..] == v[|baseUrl| + 5..];
      assert "/" + NatToString(m) + "/" + path == "/" + NatToString(n) + "/" + path;
      assert NatToString(m) + "/" + path == NatToString(n) + "/" + path by {
        assert ("/" + NatToString(m) + "/" + path)[1..] == NatToString(m) + "/" + path;
        assert ("/" + NatToString(n) + "/" + path)[1..] == NatToString(n) + "/" + path;
      }
      NatToStringDigits(m);
      NatToStringDigits(n);
      SlashSeparated(NatToString(m), NatToString(n), path);
      NatToStringInjective(m, n);
    }
  }

  // ---------------------------------------------------------------------
  // Polling

  /** A reply saying the command is still running. */
  predicate StillRunning(reply: HttpResult<Snapshot>) {
    reply.Http? && reply.statusCode == 200 && reply.body.status == "started"
  }

  /** The URL polled for command `commandId`. */
  function PollUrl(baseUrl: string, testId: Option<int>, commandId: int): (u: string)
    ensures u == TestUrl(baseUrl, testId, "command/" + IntToString(commandId))
  {
    TestUrl(baseUrl, testId, "command/" + IntToString(commandId))
  }

  /** `pollForCommandFinish` answered by `replies`, one per poll: it
      resolves with the first snapshot that is not `started`, rejects on a
      transport error or a non-200 status, and keeps polling (never
      settles) while every reply says `started`. */
  function PollForCommandFinish(replies: seq<HttpResult<Snapshot>>): (p: Promise<Snapshot>)
    ensures p.Pending? <==> forall i :: 0 <= i < |replies| ==> StillRunning(replies[i])
    ensures p.Resolved? ==>
              && p.value.status != "started"
              && exists i :: 0 <= i < |replies| && replies[i] == Http(200, p.value) &&
                   forall j :: 0 <= j < i ==> StillRunning(replies[j])
    ensures p.Rejected? ==>
              exists i :: 0 <= i < |replies| && (replies[i].TransportError? || replies[i].statusCode != 200) &&
                forall j :: 0 <= j < i ==> StillRunning(replies[j])
  {
    if replies == [] then Pending
    else
      var rest := PollForCommandFinish(replies[1..]);
      assert forall j :: 1 <= j < |replies| ==> replies[j] == replies[1..][j - 1];
      match replies[0]
      case TransportError(detail) => Rejected(Transport(detail))
      case Http(code, body) =>
        if code == 200 then
          if body.status != "started" then Resolved(body) else rest
        else Rejected(HttpResponse(code))
  }

  /** Replies after the first settling one are never read. */
  lemma {:induction false} PollIgnoresLaterReplies(replies: seq<HttpResult<Snapshot>>, more: seq<HttpResult<Snapshot>>)
    requires !PollForCommandFinish(replies).Pending?
    ensures PollForCommandFinish(replies + more) == PollForCommandFinish(replies)
  {
    assert replies != [];
    assert (replies + more)[0] == replies[0];
    if StillRunning(replies[0]) {
      assert (replies + more)[1..] == replies[1..] + more;
      PollIgnoresLaterReplies(replies[1..], more);
    }
  }

  // ---------------------------------------------------------------------
  // Starting, killing and waiting for commands

  /** The request `startCommand` sends: `cmd` always, `cwd` only when it is
      truthy. */
  function StartCommandRequest(baseUrl: string, testId: Option<int>, command: string, cwd: Option<string>): (req: Request)
    ensures req.verb == Post && req.url == TestUrl(baseUrl, testId, "command") && req.qs.Some?
    ensures "cmd" in req.qs.value && req.qs.value["cmd"] == Some(command)
    ensures "cwd" in req.qs.value <==> Truthy(cwd)
    ensures Truthy(cwd) ==> req.qs.value["cwd"] == cwd
    ensures forall k :: k in req.qs.value ==> k == "cmd" || k == "cwd"
  {
    var qs := map["cmd" := Some(command)];
    Request(Post, TestUrl(baseUrl, testId, "command"), Some(if Truthy(cwd) then qs["cwd" := cwd] else qs))
  }

  /** The signal the agent reads from a kill request's query (`""`: the
      default signal); a key set to `undefined` is not serialised. */
  function SignalReceived(qs: Option<Query>): string {
    if qs.Some? && "signal" in qs.value && qs.value["signal"].Some? then qs.value["signal"].value else ""
  }

  /** The options `killCommand` builds, as written: the branches are
      swapped, so a given signal yields no query at all. */
  function KillOptionsAsWritten(signal: Option<string>): (qs: Option<Query>)
    ensures Truthy(signal) ==> qs.None?
  {
    if Truthy(signal) then None else Some(map["signal" := signal])
  }

  /** The agent never receives the signal the caller asked for. */
  lemma KillSignalNeverForwarded(signal: Option<string>)
    ensures SignalReceived(KillOptionsAsWritten(signal)) == ""
  {
  }

  /** The options `killCommand` evidently means to build: the signal in the
      query when one is given. */
  function KillOptions(signal: Option<string>): (qs: Option<Query>)
    ensures qs.Some? <==> Truthy(signal)
  {
    if Truthy(signal) then Some(map["signal" := signal]) else None
  }

  /** With the intended options the agent receives exactly the signal asked
      for, and the default one when none is given. */
  lemma KillSignalForwarded(signal: Option<string>)
    ensures SignalReceived(KillOptions(signal)) == (if Truthy(signal) then signal.value else "")
  {
  }

  /** The kill request for command `commandId`. */
  function KillCommandRequest(baseUrl: string, testId: Option<int>, commandId: int, signal: Option<string>): (req: Request)
    ensures req.verb == Post
    ensures req.url == TestUrl(baseUrl, testId, "command/" + IntToString(commandId) + "/kill")
    ensures SignalReceived(req.qs) == (if Truthy(signal) then signal.value else "")
  {
    Request(Post, TestUrl(baseUrl, testId, "command/" + IntToString(commandId) + "/kill"), KillOptions(signal))
  }

  /** How a request that is followed by polling settles: a 200 reply leads
      to polling, anything else rejects with that failure. This is how
      `killCommand` settles given the kill reply, and how a workspace
      handle's start-then-poll settles given the start reply. */
  function ThenPoll<T>(reply: HttpResult<T>, polls: seq<HttpResult<Snapshot>>): (p: Promise<Snapshot>)
    ensures reply.TransportError? ==> p == Rejected(Transport(reply.detail))
    ensures reply.Http? && reply.statusCode != 200 ==> p == Rejected(HttpResponse(reply.statusCode))
    ensures p.Resolved? ==> reply.Http? && reply.statusCode == 200 && p.value.status != "started"
  {
    match reply
    case TransportError(detail) => Rejected(Transport(detail))
    case Http(code, _) => if code == 200 then PollForCommandFinish(polls) else Rejected(HttpResponse(code))
  }

  /** How `runCommandAndWait` settles given the start reply and the poll
      replies for the command the agent created. */
  function RunCommandAndWait(command: string, startReply: HttpResult<Snapshot>, polls: seq<HttpResult<Snapshot>>): (p: Promise<Snapshot>)
    ensures startReply.TransportError? ==> p == Rejected(Transport(startReply.detail))
    ensures startReply.Http? && startReply.statusCode != 200 ==> p == Rejected(ErrorMessage("Error in command " + command))
    ensures startReply.Http? && startReply.statusCode == 200 ==> p == PollForCommandFinish(polls)
    ensures p.Resolved? ==> p.value.status != "started"
  {
    match startReply
    case TransportError(detail) => Rejected(Transport(detail))
    case Http(code, _) =>
      if code != 200 then Rejected(ErrorMessage("Error in command " + command)) else PollForCommandFinish(polls)
  }

  /** The message of a failed command. */
  function FailureMessage(command: string, result: string, stderr: Option<string>): string {
    "Command " + command + " failed: " + result + "\n\n" + Formatted(stderr)
  }

  /** The failure message names the command and carries its output and
      error output. */
  lemma FailureMessageMentions(command: string, result: string, stderr: Option<string>)
    ensures Contains(FailureMessage(command, result, stderr), command)
    ensures Contains(FailureMessage(command, result, stderr), result)
    ensures Contains(FailureMessage(command, result, stderr), Formatted(stderr))
  {
    var m := FailureMessage(command, result, stderr);
    ContainsInside("Command ", command, " failed: " + result + "\n\n" + Formatted(stderr));
    assert m == "Command " + command + " failed: " + result + "\n\n" + Formatted(stderr);
    assert "Command " + command + (" failed: " + result + "\n\n" + Formatted(stderr)) == m;
    ContainsInside("Command " + command + " failed: ", result, "\n\n" + Formatted(stderr));
    assert "Command " + command + " failed: " + result + ("\n\n" + Formatted(stderr)) == m;
    ContainsInside("Command " + command + " failed: " + result + "\n\n", Formatted(stderr), "");
    assert "Command " + command + " failed: " + result + "\n\n" + Formatted(stderr) + "" == m;
  }

  /** `runCommandAndWaitForSuccess` on top of how the wait settled: it
      rejects exactly when the wait rejects or the final status is `error`. */
  function RunCommandAndWaitForSuccess(command: string, waited: Promise<Snapshot>): (p: Promise<Snapshot>)
    ensures p.Resolved? <==> waited.Resolved? && waited.value.status != "error"
    ensures p.Resolved? ==> p == waited
    ensures waited.Resolved? && waited.value.status == "error" ==>
              p == Rejected(ErrorMessage(FailureMessage(command, waited.value.result, waited.value.stderr)))
    ensures !waited.Resolved? ==> p == waited
  {
    if waited.Resolved? && waited.value.status == "error" then
      Rejected(ErrorMessage(FailureMessage(command, waited.value.result, waited.value.stderr)))
    else waited
  }

  /** Command outcomes as steps of the chain (their value made optional). */
  function AsSteps(outcomes: seq<Promise<Snapshot>>): (steps: seq<Promise<Option<Snapshot>>>)
    ensures |steps| == |outcomes|
    ensures forall i :: 0 <= i < |outcomes| ==> steps[i] == MapPromise(outcomes[i], (s: Snapshot) => Some(s))
  {
    seq(|outcomes|, i requires 0 <= i < |outcomes| => MapPromise(outcomes[i], (s: Snapshot) => Some(s)))
  }

  /** `runCommandsInSequence`, where `outcomes[i]` is how command `i` would
      settle under `runCommandAndWaitForSuccess` once started; the chain
      starts from `Q({})`, modelled as a resolved None. */
  function RunCommandsInSequence(outcomes: seq<Promise<Snapshot>>): (r: Promise<Option<Snapshot>>)
    ensures outcomes == [] ==> r == Resolved(None)
  {
    ChainSteps(Resolved(None), AsSteps(outcomes))
  }

  /** The commands run in list order, up to and including the first that
      fails; none after it is started, and the sequence settles as that one
      did. When none fails, all run and the sequence resolves. */
  lemma SequenceStopsAtFirstFailure(outcomes: seq<Promise<Snapshot>>)
    ensures var k := FirstUnresolved(AsSteps(outcomes));
            && (forall i :: 0 <= i < k ==> outcomes[i].Resolved?)
            && (k < |outcomes| ==>
                  && !outcomes[k].Resolved?
                  && StepsStarted(Resolved(None), AsSteps(outcomes)) == k + 1
                  && RunCommandsInSequence(outcomes) == MapPromise(outcomes[k], (s: Snapshot) => Some(s)))
            && (k == |outcomes| ==>
                  && StepsStarted(Resolved(None), AsSteps(outcomes)) == |outcomes|
                  && RunCommandsInSequence(outcomes).Resolved?)
  {
    ChainOutcome(None, AsSteps(outcomes));
  }

  // ---------------------------------------------------------------------
  // Streaming replacement

  /** The complete lines of a text: every piece before the last '\n'. */
  function CompleteLines(s: string): seq<string> {
    var p := Split(s, '\n');
    p[..|p| - 1]
  }

  /** The text after the last '\n'. */
  function PendingLine(s: string): string {
    var p := Split(s, '\n');
    p[|p| - 1]
  }

  /** No line, complete or pending, holds a line break. */
  lemma LinesFree(s: string)
    ensures forall i :: 0 <= i < |CompleteLines(s)| ==> '\n' !in CompleteLines(s)[i]
    ensures '\n' !in PendingLine(s)
  {
    SplitPartsFree(s, '\n');
    var p := Split(s, '\n');
    assert forall i :: 0 <= i < |CompleteLines(s)| ==> CompleteLines(s)[i] == p[i];
  }

  /** One replacement on a line: the first occurrence, or all of them. */
  function ReplaceInLine(line: string, token: string, replacement: string, all: bool): string {
    if all then ReplaceAll(line, token, replacement) else ReplaceFirst(line, token, replacement)
  }

  /** The text pushed for a run of complete lines: each replaced, then "\n". */
  function Emit(lines: seq<string>, token: string, replacement: string, all: bool): string {
    if lines == [] then ""
    else ReplaceInLine(lines[0], token, replacement, all) + "\n" + Emit(lines[1..], token, replacement, all)
  }

  lemma {:induction false} EmitAppend(a: seq<string>, b: seq<string>, token: string, replacement: string, all: bool)
    ensures Emit(a + b, token, replacement, all) == Emit(a, token, replacement, all) + Emit(b, token, replacement, all)
  {
    if a != [] {
      assert (a + b)[1..] == a[1..] + b;
      EmitAppend(a[1..], b, token, replacement, all);
    } else {
      assert a + b == b;
    }
  }

  /** What the replacer pushes in total for input `s`, as written: complete
      lines get their first occurrence replaced, the last (unterminated)
      line, when not empty, all of them. */
  function StreamOutput(s: string, token: string, replacement: string): (out: string)
    ensures s == "" ==> out == ""
    ensures '\n' !in s && s != "" ==> out == ReplaceAll(s, token, replacement)
  {
    var last := PendingLine(s);
    Emit(CompleteLines(s), token, replacement, false) + (if last == "" then "" else ReplaceAll(last, token, replacement))
  }

  /** New text extends the complete lines by the complete lines of the
      held-back line followed by that text, and leaves their last piece
      pending. */
  lemma ChunkLines(input: string, chunk: string)
    ensures var lines := Split(PendingLine(input) + chunk, '\n');
            && CompleteLines(input + chunk) == CompleteLines(input) + lines[..|lines| - 1]
            && PendingLine(input + chunk) == lines[|lines| - 1]
  {
    var p, lines, all := Split(input, '\n'), Split(PendingLine(input) + chunk, '\n'), Split(input + chunk, '\n');
    assert all == p[..|p| - 1] + lines by {
      SplitAppend(input, chunk, '\n');
    }
    LastOfJoin(p, lines, all);
    assert CompleteLines(input) == p[..|p| - 1];
    assert CompleteLines(input + chunk) == all[..|all| - 1];
    assert PendingLine(input + chunk) == all[|all| - 1];
  }

  /** Joining all but the last of `p` to `q` leaves `q`'s last element last. */
  lemma LastOfJoin<T>(p: seq<T>, q: seq<T>, w: seq<T>)
    requires |p| >= 1 && |q| >= 1 && w == p[..|p| - 1] + q
    ensures w[..|w| - 1] == p[..|p| - 1] + q[..|q| - 1] && w[|w| - 1] == q[|q| - 1]
  {
  }

  /** What one chunk adds: the complete lines among the held-back line and
      the chunk, and a new held-back line. */
  lemma TransformStep(input: string, chunk: string, out: string, lines: seq<string>, token: string, replacement: string)
    requires out == Emit(CompleteLines(input), token, replacement, false)
    requires lines == Split(PendingLine(input) + chunk, '\n')
    ensures out + Emit(lines[..|lines| - 1], token, replacement, false) == Emit(CompleteLines(input + chunk), token, replacement, false)
    ensures lines[|lines| - 1] == PendingLine(input + chunk)
  {
    ChunkLines(input, chunk);
    EmitAppend(CompleteLines(input), lines[..|lines| - 1], token, replacement, false);
  }

  /** The lines `_transform` handles: those of the chunk, the first glued
      to the held-back line when there is one. */
  lemma GlueHeldLine(held: string, chunk: string)
    requires '\n' !in held
    ensures var p := Split(chunk, '\n');
            (if held != "" then p[0 := held + p[0]] else p) == Split(held + chunk, '\n')
  {
    if held != "" {
      SplitAfterPiece(held, chunk, '\n');
    } else {
      assert held + chunk == chunk;
    }
  }

  /** The lines of a text with a line break at `i`: the first line, then
      those of the rest. */
  lemma LinesAtBreak(s: string, i: int)
    requires i == IndexOfChar(s, '\n') && i != -1
    ensures CompleteLines(s) == [s[..i]] + CompleteLines(s[i + 1..])
    ensures PendingLine(s) == PendingLine(s[i + 1..])
    ensures s == s[..i] + ['\n'] + s[i + 1..]
  {
    BreakAt(s, i);
    var q := Split(s[i + 1..], '\n');
    assert Split(s, '\n') == [s[..i]] + q;
  }

  /** The transform stream of `streamReplace`. `input` is everything it has
      been given; what it has pushed depends on that text alone, not on
      where the chunks broke it. */
  class StreamReplacer {
    const token: string
    const replacement: string
    /** `this.partialLine`: undefined before the first chunk. */
    var partialLine: Option<string>
    /** Everything pushed downstream, in order. */
    var output: string
    var flushed: bool
    ghost var input: string

    /** The held-back text (`undefined` and `""` alike hold nothing). */
    function PartialText(): string
      reads this
    {
      if partialLine.Some? then partialLine.value else ""
    }

    ghost predicate Valid()
      reads this
    {
      if flushed then output == StreamOutput(input, token, replacement)
      else output == Emit(CompleteLines(input), token, replacement, false) && PartialText() == PendingLine(input)
    }

    constructor (token: string, replacement: string)
      ensures Valid() && !flushed
      ensures this.token == token && this.replacement == replacement
      ensures input == "" && output == ""
    {
      this.token := token;
      this.replacement := replacement;
      partialLine := None;
      output := "";
      flushed := false;
      input := "";
      assert Split("", '\n') == [""];
    }

    /** `_transform`: pushes the complete lines of what has arrived and
        holds back the rest. */
    method Transform(chunk: string)
      requires Valid() && !flushed
      modifies this
      ensures Valid() && !flushed
      ensures input == old(input) + chunk
      ensures output == Emit(CompleteLines(input), token, replacement, false)
      ensures old(output) <= output
    {
      var lines := Split(chunk, '\n');
      LinesFree(input);
      GlueHeldLine(PartialText(), chunk);
      if partialLine.Some? && partialLine.value != "" {
        lines := lines[0 := partialLine.value + lines[0]];
      }
      ghost var grown := input + chunk;
      ghost var target := Emit(CompleteLines(grown), token, replacement, false);
      TransformStep(input, chunk, output, lines, token, replacement);
      assert output + Emit(lines[..|lines| - 1], token, replacement, false) == target;
      partialLine := Some(lines[|lines| - 1]);
      PushLines(lines[..|lines| - 1]);
      assert output == target;
      input := grown;
    }

    /** The `forEach` of `_transform`: each complete line, replaced, then
        "\n". */
    method PushLines(complete: seq<string>)
      modifies this`output
      ensures output == old(output) + Emit(complete, token, replacement, false)
    {
      var i := 0;
      while i < |complete|
        invariant 0 <= i <= |complete|
        invariant output == old(output) + Emit(complete[..i], token, replacement, false)
      {
        var pushed := ReplaceFirst(complete[i], token, replacement) + "\n";
        EmitAppend(complete[..i], [complete[i]], token, replacement, false);
        assert complete[..i + 1] == complete[..i] + [complete[i]];
        assert Emit([complete[i]], token, replacement, false) == pushed;
        ConcatAssoc(old(output), Emit(complete[..i], token, replacement, false), pushed);
        output := output + pushed;
        i := i + 1;
      }
      assert complete[..i] == complete;
    }

    /** `_flush`: pushes the held-back line with every occurrence replaced. */
    method Flush()
      requires Valid() && !flushed
      modifies this
      ensures Valid() && flushed
      ensures input == old(input)
      ensures output == StreamOutput(input, token, replacement)
    {
      if partialLine.Some? && partialLine.value != "" {
        output := output + ReplaceAll(partialLine.value, token, replacement);
      }
      flushed := true;
    }
  }

  /** A token occurring twice on a complete line is replaced once, while
      the same line at the end of the input is replaced twice. */
  lemma StreamReplaceFirstOnly()
    ensures StreamOutput("aa\n", "a", "b") == "ba\n"
    ensures StreamOutput("aa", "a", "b") == "bb"
    ensures ReplaceAll("aa\n", "a", "b") == "bb\n"
  {
    LinesOfAa();
    ReplacedAa();
    assert Emit(["aa"], "a", "b", false) == "ba\n" by {
      assert ["aa"][1..] == [];
    }
  }

  /** How "aa\n" and "aa" split into lines. */
  lemma LinesOfAa()
    ensures CompleteLines("aa\n") == ["aa"] && PendingLine("aa\n") == ""
    ensures CompleteLines("aa") == [] && PendingLine("aa") == "aa"
  {
    assert Split("aa\n", '\n') == ["aa", ""] by {
      assert IndexOfChar("aa\n", '\n') == 2 by {
        assert IndexOfChar("\n", '\n') == 0;
        assert "aa\n"[1..] == "a\n" && "a\n"[1..] == "\n";
      }
      assert "aa\n"[3..] == "" && "aa\n"[..2] == "aa";
      assert Split("", '\n') == [""];
    }
    assert Split("aa", '\n') == ["aa"] by {
      assert IndexOfChar("aa", '\n') == -1;
    }
  }

  /** Replacing "a" by "b" in "aa": once, everywhere, and across a line break. */
  lemma ReplacedAa()
    ensures ReplaceFirst("aa", "a", "b") == "ba"
    ensures ReplaceAll("aa", "a", "b") == "bb"
    ensures ReplaceAll("aa\n", "a", "b") == "bb\n"
  {
    assert "aa"[1..] == "a" && "a"[1..] == "";
    assert ReplaceAll("a", "a", "b") == "b";
    assert "aa\n"[1..] == "a\n" && "a\n"[1..] == "\n" && "\n"[1..] == "";
    assert ReplaceAll("\n", "a", "b") == "\n";
    assert ReplaceAll("a\n", "a", "b") == "b\n";
  }

  /** What the replacer evidently means to push: every occurrence replaced
      on every line. */
  function IntendedStreamOutput(s: string, token: string, replacement: string): string {
    var last := PendingLine(s);
    Emit(CompleteLines(s), token, replacement, true) + (if last == "" then "" else ReplaceAll(last, token, replacement))
  }

  /** For a non-empty token without a line break, the intended output is
      the global replacement of the whole input, however it was chunked. */
  lemma {:induction false} IntendedIsGlobalReplace(s: string, token: string, replacement: string)
    requires token != [] && '\n' !in token
    ensures IntendedStreamOutput(s, token, replacement) == ReplaceAll(s, token, replacement)
    decreases |s|
  {
    var i := IndexOfChar(s, '\n');
    if i == -1 {
      assert Split(s, '\n') == [s];
      if s == "" {
        assert ReplaceAll(s, token, replacement) == "";
      }
    } else {
      var a := s[..i];
      var rest := s[i + 1..];
      LinesAtBreak(s, i);
      IntendedIsGlobalReplace(rest, token, replacement);
      var tail := PendingLine(rest);
      var t := if tail == "" then "" else ReplaceAll(tail, token, replacement);
      var e := Emit(CompleteLines(rest), token, replacement, true);
      assert IntendedStreamOutput(s, token, replacement) == ReplaceAll(a, token, replacement) + "\n" + e + t;
      assert IntendedStreamOutput(rest, token, replacement) == e + t;
      var head := ReplaceAll(a, token, replacement) + "\n";
      ConcatAssoc(head, e, t);
      assert IntendedStreamOutput(s, token, replacement) == head + ReplaceAll(rest, token, replacement);
      ReplaceAllSplitsAt(a, '\n', rest, token, replacement);
      assert ReplaceAll(s, token, replacement) == head + ReplaceAll(rest, token, replacement);
    }
  }

  // ---------------------------------------------------------------------
  // Ports

  /** `isPortValid`: `parseInt` without a radix (so "0x" prefixes read as
      hexadecimal) must give a number in 1 .. 65535. */
  predicate IsPortValid(port: string): (valid: bool)
    ensures valid ==> port != ""
  {
    var n := ParseInt(port, Auto);
    n.Some? && 0 < n.value <= 65535
  }

  /** A port written in decimal is valid exactly when it lies in 1 .. 65535. */
  lemma PortValidRange(n: nat)
    ensures IsPortValid(NatToString(n)) <==> 1 <= n <= 65535
  {
    ParseNatToString(n, Auto);
  }

  /** "0" and "65536" are the first invalid ports on either side. */
  lemma PortBoundaries()
    ensures !IsPortValid("0") && !IsPortValid("65536")
  {
    assert NatToString(0) == "0";
    PortValidRange(0);
    PortAboveRange();
  }

  lemma PortAboveRange()
    ensures !IsPortValid("65536")
  {
    assert NatToString(65536) == "65536" by {
      assert NatToString(6) == "6";
      assert NatToString(65) == "65";
      assert NatToString(655) == "655";
      assert NatToString(6553) == "6553";
    }
    PortValidRange(65536);
  }
}
