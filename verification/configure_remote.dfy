/** The helper that configures a remote build agent through the CLI
    (`configureRemote.js`): it spawns `taco remote add <platform>` and
    answers its prompts from the command line — the address on "IP", the
    port on "Port", the PIN on "PIN" — then closes the child's input on
    "Success!". The process ends with the child's exit code, with 1 when
    the child cannot be spawned and with 2 after 30 seconds. Which chunks
    of output arrive, and when the child exits or the timer fires, are
    inputs: the events are delivered in the order given. */
module ConfigureRemote {
  import opened Common

  /** `process.argv[i]`: undefined (None) past the end. */
  function Arg(argv: seq<string>, i: nat): (a: Option<string>)
    ensures a.Some? <==> i < |argv|
  {
    if i < |argv| then Some(argv[i]) else None
  }

  /** `os.EOL`. */
  function Eol(windows: bool): string {
    if windows then "\r\n" else "\n"
  }

  /** `path.sep`. */
  function Sep(windows: bool): char {
    if windows then '\\' else '/'
  }

  /** `tacoPath`: the third argument, with ".cmd" on Windows. */
  function TacoPath(argv: seq<string>, windows: bool): string {
    Formatted(Arg(argv, 2)) + (if windows then ".cmd" else "")
  }

  /** What is spawned: `tacoPath.split("/").join(path.sep)`. */
  function SpawnPath(argv: seq<string>, windows: bool): string {
    JoinWith(Split(TacoPath(argv, windows), '/'), [Sep(windows)])
  }

  /** The PIN: the seventh argument, or "" when it is absent or empty. */
  function Pin(argv: seq<string>): (pin: string)
    ensures Truthy(Arg(argv, 6)) ==> pin == argv[6]
    ensures !Truthy(Arg(argv, 6)) ==> pin == ""
  {
    if Truthy(Arg(argv, 6)) then argv[6] else ""
  }

  /** What is written for each prompt, in prompt order: the address, the
      port and the PIN, each followed by the end of line. */
  function Answers(argv: seq<string>, windows: bool): (answers: seq<string>)
    ensures |answers| == 3
    ensures 4 < |argv| ==> answers[0] == argv[4] + Eol(windows)
    ensures 5 < |argv| ==> answers[1] == argv[5] + Eol(windows)
    ensures |argv| <= 4 ==> answers[0] == "undefined" + Eol(windows)
    ensures |argv| <= 5 ==> answers[1] == "undefined" + Eol(windows)
    ensures answers[2] == Pin(argv) + Eol(windows)
  {
    var eol := Eol(windows);
    [Formatted(Arg(argv, 4)) + eol, Formatted(Arg(argv, 5)) + eol, Pin(argv) + eol]
  }

  /** The spawned path is `tacoPath` with every '/' made the platform's
      separator: unchanged on POSIX, free of '/' on Windows, where it
      names the ".cmd" wrapper. */
  lemma SpawnPathIsTacoPath(argv: seq<string>, windows: bool)
    ensures SpawnPath(argv, windows) == ReplaceChar(TacoPath(argv, windows), '/', Sep(windows))
    ensures !windows ==> SpawnPath(argv, windows) == Formatted(Arg(argv, 2))
    ensures windows ==> '/' !in SpawnPath(argv, windows)
    ensures windows ==> |SpawnPath(argv, windows)| == |Formatted(Arg(argv, 2))| + 4
  {
    var t := TacoPath(argv, windows);
    SplitJoinReplaces(t, '/', Sep(windows));
    var u := ReplaceChar(t, '/', Sep(windows));
    if !windows {
      assert t == Formatted(Arg(argv, 2)) + "";
      assert u == t;
    } else {
      forall k | 0 <= k < |u|
        ensures u[k] != '/'
      {
      }
    }
  }

  // ---------------------------------------------------------------------
  // The prompt state machine

  /** What happens to the script: a chunk of the child's output, the
      child's `error` event, its `exit` event with its code (None when it
      was ended by a signal), or the 30-second timer. */
  datatype Event = Data(chunk: string) | ChildError | ChildExit(code: Option<int>) | Timeout

  /** The script's state: the `step` counter, what it wrote to the child's
      input, whether it closed that input, whether an `assert` failed, and
      the exit code once the process ended. */
  datatype Session = Session(step: int, written: seq<string>, stdinEnded: bool, assertionFailed: bool, exitCode: Option<int>)

  const Start: Session := Session(0, [], false, false, None)

  /** A failed `assert` throws out of the `data` handler; the uncaught
      exception ends the process with exit code 1. */
  function Failed(s: Session): Session {
    s.(assertionFailed := true, exitCode := Some(1))
  }

  /** The `data` handler: only the first keyword the chunk contains, in
      the order IP, Port, PIN, Success!, is acted on, and only at the
      step that keyword belongs to. */
  function OnData(s: Session, chunk: string, answers: seq<string>): (r: Session)
    requires |answers| == 3
    ensures s.written <= r.written && |r.written| <= |s.written| + 1
    ensures r.step == s.step || r.step == s.step + 1
    ensures r.exitCode == s.exitCode || r.exitCode == Some(1)
    ensures !Contains(chunk, "IP") && !Contains(chunk, "Port") && !Contains(chunk, "PIN") && !Contains(chunk, "Success!") ==> r == s
  {
    if Contains(chunk, "IP") then
      if s.step != 0 then Failed(s) else s.(step := 1, written := s.written + [answers[0]])
    else if Contains(chunk, "Port") then
      if s.step != 1 then Failed(s) else s.(step := 2, written := s.written + [answers[1]])
    else if Contains(chunk, "PIN") then
      if s.step != 2 then Failed(s) else s.(step := 3, written := s.written + [answers[2]])
    else if Contains(chunk, "Success!") then
      if s.step != 3 then Failed(s) else s.(stdinEnded := true)
    else s
  }

  /** One event; a process that has exited sees nothing more. */
  function Next(s: Session, e: Event, answers: seq<string>): (r: Session)
    requires |answers| == 3
    ensures s.exitCode.Some? ==> r == s
    ensures s.written <= r.written
    ensures !e.Data? && s.exitCode.None? ==> r.exitCode.Some? && r.written == s.written
  {
    if s.exitCode.Some? then s
    else
      match e
      case Data(chunk) => OnData(s, chunk, answers)
      case ChildError => s.(exitCode := Some(1))
      case ChildExit(code) => s.(exitCode := Some(if code.Some? then code.value else 0))
      case Timeout => s.(exitCode := Some(2))
  }

  function Run(s: Session, events: seq<Event>, answers: seq<string>): Session
    requires |answers| == 3
    decreases |events|
  {
    if events == [] then s else Run(Next(s, events[0], answers), events[1..], answers)
  }

  /** The steps only go forward through the prompts: the answers written
      are always the first `step` of them, in order, and input is closed
      only after the PIN. */
  ghost predicate Consistent(s: Session, answers: seq<string>)
    requires |answers| == 3
  {
    0 <= s.step <= 3 && s.written == answers[..s.step] && (s.stdinEnded ==> s.step == 3)
  }

  lemma NextConsistent(s: Session, e: Event, answers: seq<string>)
    requires |answers| == 3 && Consistent(s, answers)
    ensures Consistent(Next(s, e, answers), answers)
  {
    if s.exitCode.None? && e.Data? {
      var t := OnData(s, e.chunk, answers);
      if t.step == s.step + 1 {
        assert answers[..t.step] == answers[..s.step] + [answers[s.step]];
      }
    }
  }

  lemma {:induction false} RunConsistent(s: Session, events: seq<Event>, answers: seq<string>)
    requires |answers| == 3 && Consistent(s, answers)
    ensures Consistent(Run(s, events, answers), answers)
    decreases |events|
  {
    if events != [] {
      NextConsistent(s, events[0], answers);
      RunConsistent(Next(s, events[0], answers), events[1..], answers);
    }
  }

  /** The exit code is decided by the first event that ends the process:
      once it is set, nothing changes any more. */
  lemma {:induction false} RunAfterExit(s: Session, events: seq<Event>, answers: seq<string>)
    requires |answers| == 3 && s.exitCode.Some?
    ensures Run(s, events, answers) == s
    decreases |events|
  {
    if events != [] {
      RunAfterExit(s, events[1..], answers);
    }
  }

  /** The exit codes: 1 for a spawn error, the child's code for its exit
      (0 when it has none), 2 for the timeout. */
  lemma ExitCodes(s: Session, answers: seq<string>, code: Option<int>)
    requires |answers| == 3 && s.exitCode.None?
    ensures Next(s, ChildError, answers).exitCode == Some(1)
    ensures Next(s, ChildExit(code), answers).exitCode == Some(if code.Some? then code.value else 0)
    ensures Next(s, Timeout, answers).exitCode == Some(2)
  {
  }

  /** The conversation the script expects: prompts for IP, Port, PIN and
      then "Success!" (each chunk holding no earlier keyword), and the
      child's exit. All three answers are written in order, the input is
      closed and the process exits with the child's code. */
  lemma {:induction false} ExpectedConversation(answers: seq<string>, ip: string, port: string, pin: string, success: string, code: int)
    requires |answers| == 3
    requires Contains(ip, "IP")
    requires Contains(port, "Port") && !Contains(port, "IP")
    requires Contains(pin, "PIN") && !Contains(pin, "IP") && !Contains(pin, "Port")
    requires Contains(success, "Success!") && !Contains(success, "IP") && !Contains(success, "Port") && !Contains(success, "PIN")
    ensures Run(Start, [Data(ip), Data(port), Data(pin), Data(success), ChildExit(Some(code))], answers)
              == Session(3, answers, true, false, Some(code))
  {
    var events := [Data(ip), Data(port), Data(pin), Data(success), ChildExit(Some(code))];
    var s1 := Next(Start, events[0], answers);
    var s2 := Next(s1, events[1], answers);
    var s3 := Next(s2, events[2], answers);
    var s4 := Next(s3, events[3], answers);
    var s5 := Next(s4, events[4], answers);
    assert s3.written == [answers[0], answers[1], answers[2]];
    assert answers == [answers[0], answers[1], answers[2]];
    assert s5 == Session(3, answers, true, false, Some(code));
    assert events[1..] == [Data(port), Data(pin), Data(success), ChildExit(Some(code))];
    assert events[2..] == [Data(pin), Data(success), ChildExit(Some(code))];
    assert events[3..] == [Data(success), ChildExit(Some(code))];
    assert events[4..] == [ChildExit(Some(code))];
    calc {
      Run(Start, events, answers);
      Run(s1, events[1..], answers);
      Run(s2, events[2..], answers);
      Run(s3, events[3..], answers);
      Run(s4, events[4..], answers);
      { assert events[4..][1..] == []; }
      Run(s5, [], answers);
    }
  }

  /** A chunk naming two prompts is answered for the first of them only,
      and a prompt seen again fails the script's assertion. */
  lemma FirstKeywordOnly(answers: seq<string>, chunk: string)
    requires |answers| == 3 && Contains(chunk, "IP")
    ensures Next(Start, Data(chunk), answers) == Session(1, [answers[0]], false, false, None)
    ensures Next(Next(Start, Data(chunk), answers), Data(chunk), answers).assertionFailed
    ensures Next(Next(Start, Data(chunk), answers), Data(chunk), answers).exitCode == Some(1)
  {
  }

  /** The script as a running process: the `step` counter and the child's
      input are updated by the `data` handler as chunks arrive. */
  class RemoteConfigurer {
    const answers: seq<string>
    var step: int
    var written: seq<string>
    var stdinEnded: bool
    var assertionFailed: bool
    var exitCode: Option<int>

    ghost predicate Valid()
      reads this
    {
      |answers| == 3 && Consistent(State(), answers)
    }

    function State(): Session
      reads this
    {
      Session(step, written, stdinEnded, assertionFailed, exitCode)
    }

    /** Reads the command line (`windows` is `os.platform() === "win32"`)
        and starts with no prompt answered. */
    constructor (argv: seq<string>, windows: bool)
      ensures Valid() && State() == Start
      ensures answers == Answers(argv, windows)
    {
      answers := Answers(argv, windows);
      step, written, stdinEnded, assertionFailed, exitCode := 0, [], false, false, None;
    }

    /** The `data` handler for one chunk of the child's output. */
    method HandleData(chunk: string)
      requires Valid() && exitCode.None?
      modifies this
      ensures Valid() && State() == Next(old(State()), Data(chunk), answers)
    {
      if Contains(chunk, "IP") {
        if step != 0 {
          assertionFailed, exitCode := true, Some(1);
          return;
        }
        step := step + 1;
        written := written + [answers[0]];
      } else if Contains(chunk, "Port") {
        if step != 1 {
          assertionFailed, exitCode := true, Some(1);
          return;
        }
        step := step + 1;
        written := written + [answers[1]];
      } else if Contains(chunk, "PIN") {
        if step != 2 {
          assertionFailed, exitCode := true, Some(1);
          return;
        }
        step := step + 1;
        written := written + [answers[2]];
      } else if Contains(chunk, "Success!") {
        if step != 3 {
          assertionFailed, exitCode := true, Some(1);
          return;
        }
        stdinEnded := true;
      }
      NextConsistent(old(State()), Data(chunk), answers);
    }

    /** The `error` handler: the child could not be spawned. */
    method HandleError()
      requires exitCode.None?
      modifies this`exitCode
      ensures exitCode == Some(1)
    {
      exitCode := Some(1);
    }

    /** The `exit` handler: the script exits with the child's code. */
    method HandleExit(code: Option<int>)
      requires exitCode.None?
      modifies this`exitCode
      ensures exitCode == Some(if code.Some? then code.value else 0)
    {
      exitCode := Some(if code.Some? then code.value else 0);
    }

    /** The 30-second timer. */
    method HandleTimeout()
      requires exitCode.None?
      modifies this`exitCode
      ensures exitCode == Some(2)
    {
      exitCode := Some(2);
    }
  }
}
