/** The test-side handle on a workspace of the test agent: a `RemoteTest`
    creates the workspace and starts commands in it, a `RemoteCommand`
    tracks one started command. The HTTP helpers it calls behave as the
    ones of `RemotebuildUtils`; every reply is an input. */
module RemoteTestHandle {
  import opened Common
  import opened RemotebuildUtils

  /** One command started in a workspace; `command` is its latest
      snapshot. */
  class RemoteCommand {
    const baseUrl: string
    const testId: Option<int>
    var command: Snapshot

    constructor (baseUrl: string, testId: Option<int>, command: Snapshot)
      ensures this.baseUrl == baseUrl && this.testId == testId && this.command == command
    {
      this.baseUrl := baseUrl;
      this.testId := testId;
      this.command := command;
    }

    /** The URL `pollForFinish` polls: the one of this command's id. */
    function PollTarget(): (u: string)
      reads this
      ensures u == TestUrl(baseUrl, testId, "command/" + IntToString(command.id))
    {
      PollUrl(baseUrl, testId, command.id)
    }

    /** `pollForFinish`: once the poll resolves, `command` is replaced by the
        final snapshot and the same object is handed back; a rejected or
        never-ending poll leaves `command` as it was. */
    method PollForFinish(replies: seq<HttpResult<Snapshot>>) returns (p: Promise<RemoteCommand>)
      modifies this
      ensures var polled := PollForCommandFinish(replies);
              && (polled.Resolved? ==> p == Resolved(this) && command == polled.value && command.status != "started")
              && (polled.Rejected? ==> p == Rejected(polled.reason) && command == old(command))
              && (polled.Pending? ==> p == Pending && command == old(command))
    {
      var polled := PollForCommandFinish(replies);
      match polled
      case Resolved(snapshot) =>
        command := snapshot;
        p := Resolved(this);
      case Rejected(reason) =>
        p := Rejected(reason);
      case Pending =>
        p := Pending;
    }

    /** `kill`: the kill request for this command and how it settles. */
    method Kill(signal: Option<string>, killReply: HttpResult<()>, polls: seq<HttpResult<Snapshot>>)
      returns (req: Request, p: Promise<Snapshot>)
      ensures req.url == TestUrl(baseUrl, testId, "command/" + IntToString(command.id) + "/kill")
      ensures SignalReceived(req.qs) == (if Truthy(signal) then signal.value else "")
      ensures p.Resolved? ==> killReply.Http? && killReply.statusCode == 200 && p.value.status != "started"
      ensures killReply.Http? && killReply.statusCode != 200 ==> p == Rejected(HttpResponse(killReply.statusCode))
      ensures p == ThenPoll(killReply, polls)
    {
      req := KillCommandRequest(baseUrl, testId, command.id, signal);
      p := ThenPoll(killReply, polls);
    }
  }

  /** The request that creates a workspace: a POST to `<base>/test`. */
  function CreateRequest(baseUrl: string): (req: Request)
    ensures req.verb == Post && req.url == baseUrl + "/test" && req.qs.None?
  {
    Request(Post, TestUrl(baseUrl, None, ""), None)
  }

  /** A promise of a command handle settles as a promise of a snapshot:
      both resolve, both reject for the same reason, or both stay pending. */
  predicate SettlesAs(p: Promise<RemoteCommand>, w: Promise<Snapshot>) {
    && (p.Resolved? <==> w.Resolved?)
    && (p.Pending? <==> w.Pending?)
    && (p.Rejected? ==> w == Rejected(p.reason))
  }

  /** A workspace handle. `ready` is how the creation request settled. */
  class RemoteTest {
    const baseUrl: string
    var testId: Option<int>
    var ready: Promise<()>

    /** Sends the creation request: a 200 records the new workspace's id
        from the body, any other status makes `ready` reject. */
    constructor (baseUrl: string, createReply: HttpResult<int>)
      ensures this.baseUrl == baseUrl
      ensures createReply.Http? && createReply.statusCode == 200 ==> testId == Some(createReply.body) && ready == Resolved(())
      ensures createReply.Http? && createReply.statusCode != 200 ==>
                testId.None? && ready == Rejected(ErrorMessage("Failed to instantiate new remote test"))
      ensures createReply.TransportError? ==> testId.None? && ready == Rejected(Transport(createReply.detail))
    {
      this.baseUrl := baseUrl;
      match createReply
      case TransportError(detail) =>
        testId := None;
        ready := Rejected(Transport(detail));
      case Http(code, id) =>
        if code != 200 {
          testId := None;
          ready := Rejected(ErrorMessage("Failed to instantiate new remote test"));
        } else {
          testId := Some(id);
          ready := Resolved(());
        }
    }

    /** `cleanup`: posts `done` to the workspace only when an id was
        recorded; otherwise sends nothing and resolves. The POST itself
        resolves with any response and rejects on a transport error. */
    method Cleanup(reply: HttpResult<()>) returns (sent: Option<Request>, p: Promise<()>)
      ensures sent.Some? <==> TruthyId(testId)
      ensures sent.Some? ==> sent.value == Request(Post, TestUrl(baseUrl, testId, "done"), None)
      ensures sent.None? ==> p == Resolved(())
      ensures sent.Some? ==> (p.Rejected? <==> reply.TransportError?)
    {
      if TruthyId(testId) {
        sent := Some(Request(Post, TestUrl(baseUrl, testId, "done"), None));
        p := if reply.TransportError? then Rejected(Transport(reply.detail)) else Resolved(());
      } else {
        sent := None;
        p := Resolved(());
      }
    }

    /** `startCommand`: a 200 reply is wrapped in a new `RemoteCommand` of
        this workspace; any other status rejects with the response. */
    method StartCommand(command: string, cwd: Option<string>, reply: HttpResult<Snapshot>)
      returns (req: Request, p: Promise<RemoteCommand>)
      ensures req == StartCommandRequest(baseUrl, testId, command, cwd)
      ensures p.Resolved? <==> reply.Http? && reply.statusCode == 200
      ensures p.Resolved? ==>
                && fresh(p.value)
                && p.value.command == reply.body
                && p.value.baseUrl == baseUrl && p.value.testId == testId
      ensures reply.Http? && reply.statusCode != 200 ==> p == Rejected(HttpResponse(reply.statusCode))
      ensures reply.TransportError? ==> p == Rejected(Transport(reply.detail))
    {
      req := StartCommandRequest(baseUrl, testId, command, cwd);
      match reply
      case TransportError(detail) =>
        p := Rejected(Transport(detail));
      case Http(code, body) =>
        if code == 200 {
          var handle := new RemoteCommand(baseUrl, testId, body);
          p := Resolved(handle);
        } else {
          p := Rejected(HttpResponse(code));
        }
    }

    /** `runCommandAndWait`: start, then poll the new command to its end. */
    method RunCommandAndWait(command: string, cwd: Option<string>, startReply: HttpResult<Snapshot>, polls: seq<HttpResult<Snapshot>>)
      returns (p: Promise<RemoteCommand>)
      ensures SettlesAs(p, ThenPoll(startReply, polls))
      ensures p.Resolved? ==> fresh(p.value) && p.value.command == ThenPoll(startReply, polls).value
    {
      var req;
      req, p := StartCommand(command, cwd, startReply);
      if p.Resolved? {
        p := p.value.PollForFinish(polls);
      }
    }

    /** `runCommandAndWaitForSuccess`: rejects exactly when waiting rejects
        or the final status is `error`, with a message naming the command
        as the agent reports it, its output and its error output. */
    method RunCommandAndWaitForSuccess(command: string, cwd: Option<string>, startReply: HttpResult<Snapshot>, polls: seq<HttpResult<Snapshot>>)
      returns (p: Promise<RemoteCommand>)
      ensures var w := ThenPoll(startReply, polls);
              && (p.Resolved? <==> w.Resolved? && w.value.status != "error")
              && (p.Resolved? ==> fresh(p.value) && p.value.command == w.value)
              && (w.Resolved? && w.value.status == "error" ==>
                    p == Rejected(ErrorMessage(FailureMessage(w.value.command, w.value.result, w.value.stderr))))
              && (!w.Resolved? ==> SettlesAs(p, w))
    {
      p := RunCommandAndWait(command, cwd, startReply, polls);
      if p.Resolved? && p.value.command.status == "error" {
        var c := p.value.command;
        p := Rejected(ErrorMessage(FailureMessage(c.command, c.result, c.stderr)));
      }
    }
  }
}
