/** `runTests`: all suites are built first, so a build error is thrown
    before anything runs; then the suites run one after the other, a
    failing suite is logged and the next one still runs, and the overall
    promise rejects at the end when any suite failed. How the run of
    suite #i settles is an input (`settle(i)`); a run that never settles
    holds up every later suite. */
module Runner {
  import opened Common
  import opened RunnerInterfaces
  import opened SuiteFactory

  const CriticalErrorMessage: string := "There was an error in at least one suite, see above for details"

  /** What `runTests` does: throw synchronously, or return a promise. */
  datatype RunOutcome = Thrown(message: string) | Returned(promise: Promise<()>)

  /** Some run among the first `n` never settles, so the fold is stuck. */
  predicate Blocked(settle: nat -> Promise<()>, n: nat)
    decreases n
  {
    n > 0 && (Blocked(settle, n - 1) || settle(n - 1).Pending?)
  }

  /** How many of the first `n` suites are started: each starts once the
      one before it has settled, whichever way. */
  function Reached(settle: nat -> Promise<()>, n: nat): (k: nat)
    ensures k <= n
    decreases n
  {
    if n == 0 then 0
    else if Blocked(settle, n - 1) then Reached(settle, n - 1)
    else n
  }

  /** The failures the `catch` logs among the first `n` suites, as
      (index, reason), in index order. */
  function Failures(settle: nat -> Promise<()>, n: nat): (fs: seq<(nat, Failure)>)
    ensures forall e :: e in fs ==> e.0 < n
    decreases n
  {
    if n == 0 then []
    else
      var earlier := Failures(settle, n - 1);
      match settle(n - 1)
      case Rejected(reason) => if Blocked(settle, n - 1) then earlier else earlier + [(n - 1, reason)]
      case _ => earlier
  }

  /** How the promise `runTests` returns settles for `n` suites. */
  function Overall(settle: nat -> Promise<()>, n: nat): Promise<()> {
    if Blocked(settle, n) then Pending
    else if Failures(settle, n) != [] then Rejected(ErrorMessage(CriticalErrorMessage))
    else Resolved(())
  }

  /** The indices 0 .. n-1 in order. */
  function Indices(n: nat): (s: seq<nat>)
    ensures |s| == n && forall i :: 0 <= i < n ==> s[i] == i
  {
    seq(n, i requires 0 <= i < n => i)
  }

  /** The fold is stuck exactly when some run never settles. */
  lemma {:induction false} BlockedIff(settle: nat -> Promise<()>, n: nat)
    ensures Blocked(settle, n) <==> exists j :: 0 <= j < n && settle(j).Pending?
  {
    if n > 0 {
      BlockedIff(settle, n - 1);
    }
  }

  /** Suites run in index order up to and including the first one that
      never settles; with none, all run. */
  lemma {:induction false} ReachedUpToFirstPending(settle: nat -> Promise<()>, n: nat)
    ensures !Blocked(settle, n) ==> Reached(settle, n) == n
    ensures Blocked(settle, n) ==>
              && 0 < Reached(settle, n) <= n
              && settle(Reached(settle, n) - 1).Pending?
              && !Blocked(settle, Reached(settle, n) - 1)
  {
    if n > 0 && Blocked(settle, n) && Blocked(settle, n - 1) {
      ReachedUpToFirstPending(settle, n - 1);
    }
  }

  /** A logged failure is a started suite whose run rejected, and every
      started suite whose run rejected is logged. */
  lemma {:induction false} FailuresAreFailedSuites(settle: nat -> Promise<()>, n: nat, j: nat, f: Failure)
    ensures (j, f) in Failures(settle, n) <==> j < Reached(settle, n) && settle(j) == Rejected(f)
  {
    if n > 0 {
      FailuresAreFailedSuites(settle, n - 1, j, f);
      ReachedUpToFirstPending(settle, n - 1);
      if Blocked(settle, n - 1) && j < Reached(settle, n - 1) {
        assert j < n - 1;
      }
    }
  }

  /** A failure does not stop the fold: the suite after a failing one
      still starts. */
  lemma FailureDoesNotStopLaterSuites(settle: nat -> Promise<()>, n: nat, j: nat)
    requires j + 1 < n && settle(j).Rejected? && !Blocked(settle, j)
    ensures j + 1 < Reached(settle, n)
  {
    ReachedMonotone(settle, j + 2, n);
  }

  lemma {:induction false} ReachedMonotone(settle: nat -> Promise<()>, m: nat, n: nat)
    requires m <= n
    ensures Reached(settle, m) <= Reached(settle, n)
    decreases n
  {
    if m < n {
      ReachedMonotone(settle, m, n - 1);
    }
  }

  /** Once every run settles, the overall promise rejects exactly when
      some suite failed. */
  lemma RejectsIffSomeFailed(settle: nat -> Promise<()>, n: nat)
    requires !Blocked(settle, n)
    ensures Overall(settle, n).Rejected? <==> exists j :: 0 <= j < n && settle(j).Rejected?
    ensures Overall(settle, n).Rejected? ==> Overall(settle, n).reason == ErrorMessage(CriticalErrorMessage)
  {
    ReachedUpToFirstPending(settle, n);
    if exists j :: 0 <= j < n && settle(j).Rejected? {
      var j :| 0 <= j < n && settle(j).Rejected?;
      FailuresAreFailedSuites(settle, n, j, settle(j).reason);
    } else if Failures(settle, n) != [] {
      var e := Failures(settle, n)[0];
      FailuresAreFailedSuites(settle, n, e.0, e.1);
    }
  }

  /** `runTests`: builds every suite, then folds over them with the
      `criticalErrorOccurred` flag. Returns what it did, the suites it
      started, in order, and the failures it logged. */
  method RunTests(config: TestConfig, args: ParsedArgs, fs: FileSystem, glob: Glob, relative: Relative, settle: nat -> Promise<()>)
    returns (outcome: RunOutcome, started: seq<nat>, logged: seq<(nat, Failure)>)
    ensures outcome.Thrown? <==> exists k :: 0 <= k < |config.suites| && BuildSuite(config.suites[k], args, fs, glob, relative).Err?
    ensures outcome.Thrown? ==>
              exists k :: 0 <= k < |config.suites| && BuildSuite(config.suites[k], args, fs, glob, relative).Err?
                && outcome.message == SuiteErrorMessage(k, BuildSuite(config.suites[k], args, fs, glob, relative).message)
                && forall j :: 0 <= j < k ==> BuildSuite(config.suites[j], args, fs, glob, relative).Ok?
    ensures outcome.Thrown? ==> started == [] && logged == []
    ensures outcome.Returned? ==>
              && outcome.promise == Overall(settle, |config.suites|)
              && started == Indices(Reached(settle, |config.suites|))
              && logged == Failures(settle, |config.suites|)
  {
    var built := BuildSuites(config, args, fs, glob, relative);
    if built.Err? {
      return Thrown(built.message), [], [];
    }
    var suites := built.value;
    var previous: Promise<()> := Resolved(());
    var criticalErrorOccurred := false;
    started, logged := [], [];
    var index := 0;
    while index < |suites|
      invariant 0 <= index <= |suites|
      invariant previous == (if Blocked(settle, index) then Pending else Resolved(()))
      invariant started == Indices(Reached(settle, index))
      invariant logged == Failures(settle, index)
      invariant criticalErrorOccurred <==> logged != []
    {
      if previous.Resolved? {
        started := started + [index];
        match settle(index)
        case Resolved(_) =>
        case Rejected(reason) =>
          criticalErrorOccurred := true;
          logged := logged + [(index, reason)];
        case Pending =>
          previous := Pending;
      }
      index := index + 1;
    }
    outcome := Returned(if previous.Pending? then Pending
                        else if criticalErrorOccurred then Rejected(ErrorMessage(CriticalErrorMessage))
                        else Resolved(()));
  }
}
