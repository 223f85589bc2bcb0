/**
 * The Windows pseudo-console (ConPTY) process: the exit-code holder shared between the
 * waiter thread and callers, the waiter's exit-code derivation, and the order in which the
 * native handles are acquired, handed out and released.
 *
 * Native calls are not executed: acquisitions, close calls and `TerminateProcess` are recorded
 * as `Event`s in a log, with the exit code's publication and the drain wait; what the operating
 * system answers is a parameter.
 */
module WinConPty {
  import opened Wrappers

  /** Published when the termination wait or the exit-code query fails. */
  const UnknownExitCode: int := -100
  const DefaultColumns: int := 80
  const DefaultRows: int := 25
  /** `WinBase.WAIT_OBJECT_0`: `WaitForSingleObject` saw the process end. */
  const WaitObject0: int := 0
  /** The exit code `destroy()` passes to `TerminateProcess`. */
  const TerminateExitCode: int := 1

  datatype WinSize = WinSize(columns: int, rows: int)

  /** `getInitialSize`: absent dimensions default to 80x25, given ones pass through unchecked. */
  function InitialSize(columns: Option<int>, rows: Option<int>): (size: WinSize)
    ensures columns.Some? ==> size.columns == columns.value
    ensures columns.None? ==> size.columns == DefaultColumns
    ensures rows.Some? ==> size.rows == rows.value
    ensures rows.None? ==> size.rows == DefaultRows
  {
    WinSize(if columns.Some? then columns.value else DefaultColumns,
            if rows.Some? then rows.value else DefaultRows)
  }

  /** The answer of `GetExitCodeProcess`: failure, or the code it stored. */
  datatype ExitCodeQuery = QueryFailed | Queried(code: int)

  /**
   * The exit code the waiter publishes. `query` is consulted only after a successful wait,
   * which is the only case in which the source calls `GetExitCodeProcess`.
   */
  function WaiterExitCode(waitResult: int, query: ExitCodeQuery): (code: int)
    ensures waitResult == WaitObject0 && query.Queried? ==> code == query.code
    ensures waitResult != WaitObject0 || query.QueryFailed? ==> code == UnknownExitCode
    ensures code != UnknownExitCode ==> waitResult == WaitObject0 && query == Queried(code)
  {
    if waitResult == WaitObject0 then
      match query
      case Queried(c) => c
      case QueryFailed => UnknownExitCode
    else UnknownExitCode
  }

  // ---------------------------------------------------------------------------------------
  // Native handles and the log of native calls

  /**
   * The native handles one process owns. `ProcessHandles` stands for the process and thread
   * handles of `PROCESS_INFORMATION`, which are released together.
   */
  datatype Handle = InPipeRead | InPipeWrite | OutPipeRead | OutPipeWrite | PseudoConsoleHandle | ProcessHandles

  /** `CloseHandle` closes at once; a stream's `close(false)` waits for pending I/O. */
  datatype CloseKind = Immediate | Graceful

  datatype Event =
    | Acquire(handle: Handle)
    | Close(handle: Handle, kind: CloseKind, succeeded: bool)
    | Terminate(handle: Handle, exitCode: int, succeeded: bool)
    | Publish(code: int)
    | AwaitOutputRead

  const AllHandles: set<Handle> :=
    {InPipeRead, InPipeWrite, OutPipeRead, OutPipeWrite, PseudoConsoleHandle, ProcessHandles}

  /** The pipe ends handed to the child, closed by the parent right after process creation. */
  const ChildEnds: seq<Handle> := [InPipeRead, OutPipeWrite]

  /** The order in which the waiter's cleanup releases the rest. */
  const CleanupOrder: seq<Handle> := [ProcessHandles, PseudoConsoleHandle, OutPipeRead, InPipeWrite]

  /** The handles a log closes, in order, one entry per close call. */
  function Closes(t: seq<Event>): seq<Handle>
  {
    if t == [] then []
    else (if t[0].Close? then [t[0].handle] else []) + Closes(t[1..])
  }

  function Acquired(t: seq<Event>): set<Handle>
  {
    set i | 0 <= i < |t| && t[i].Acquire? :: t[i].handle
  }

  predicate Distinct(hs: seq<Handle>)
  {
    forall i, j :: 0 <= i < j < |hs| ==> hs[i] != hs[j]
  }

  lemma {:induction false} ClosesAppend(a: seq<Event>, b: seq<Event>)
    ensures Closes(a + b) == Closes(a) + Closes(b)
  {
    if a == [] {
      assert a + b == b;
    } else {
      var head := if a[0].Close? then [a[0].handle] else [];
      assert (a + b)[0] == a[0] && (a + b)[1..] == a[1..] + b;
      ClosesAppend(a[1..], b);
      assert Closes(a + b) == head + (Closes(a[1..]) + Closes(b));
    }
  }

  /** A close at index `i` shows up among the closes of every prefix that contains it. */
  lemma {:induction false} ClosedInPrefix(t: seq<Event>, i: nat, k: nat)
    requires i < k <= |t| && t[i].Close?
    ensures t[i].handle in Closes(t[..k])
  {
    assert t[..k] == [t[0]] + t[1..k];
    ClosesAppend([t[0]], t[1..k]);
    if i > 0 {
      assert t[1..][..k - 1] == t[1..k];
      ClosedInPrefix(t[1..], i - 1, k - 1);
    }
  }

  // ---------------------------------------------------------------------------------------
  // Construction

  /** The native steps of the constructor, in order; each one can fail and throw. */
  datatype SetupStep =
    | CreateInPipe | CreateOutPipe | CreatePseudoConsole | StartProcess
    | CloseChildInput | CloseChildOutput

  const SetupSteps: seq<SetupStep> :=
    [CreateInPipe, CreateOutPipe, CreatePseudoConsole, StartProcess, CloseChildInput, CloseChildOutput]

  /** What one step issues; a failing create acquires nothing, a failing close was still issued. */
  function StepEvents(step: SetupStep, ok: bool): (r: seq<Event>)
    ensures |r| <= 2
    ensures step.CloseChildInput? || step.CloseChildOutput? ==>
              |r| == 1 && r[0].Close? && r[0].handle in ChildEnds && r[0].kind == Immediate && r[0].succeeded == ok
    ensures !(step.CloseChildInput? || step.CloseChildOutput?) ==>
              (r != [] <==> ok) && forall i :: 0 <= i < |r| ==> r[i].Acquire?
  {
    match step
    case CreateInPipe => if ok then [Acquire(InPipeRead), Acquire(InPipeWrite)] else []
    case CreateOutPipe => if ok then [Acquire(OutPipeRead), Acquire(OutPipeWrite)] else []
    case CreatePseudoConsole => if ok then [Acquire(PseudoConsoleHandle)] else []
    case StartProcess => if ok then [Acquire(ProcessHandles)] else []
    case CloseChildInput => [Close(InPipeRead, Immediate, ok)]
    case CloseChildOutput => [Close(OutPipeWrite, Immediate, ok)]
  }

  /** The steps run in order until the one that fails, which throws and ends construction. */
  function SetupEvents(steps: seq<SetupStep>, failure: Option<SetupStep>): (r: seq<Event>)
    ensures forall i :: 0 <= i < |r| ==> r[i].Acquire? || (r[i].Close? && r[i].kind == Immediate)
    ensures failure.None? ==> forall i :: 0 <= i < |r| && r[i].Close? ==> r[i].succeeded
  {
    if steps == [] then []
    else if failure == Some(steps[0]) then StepEvents(steps[0], false)
    else StepEvents(steps[0], true) + SetupEvents(steps[1..], failure)
  }

  /** The native calls of the constructor when `failure` is the first step to fail. */
  function ConstructionEvents(failure: Option<SetupStep>): (r: seq<Event>)
    ensures failure == Some(CreateInPipe) ==> r == []
  {
    SetupEvents(SetupSteps, failure)
  }

  /** The log of a construction that does not throw. */
  const CompletedSetupLog: seq<Event> :=
    [Acquire(InPipeRead), Acquire(InPipeWrite), Acquire(OutPipeRead), Acquire(OutPipeWrite),
     Acquire(PseudoConsoleHandle), Acquire(ProcessHandles), Close(InPipeRead, Immediate, true),
     Close(OutPipeWrite, Immediate, true)]

  /** A construction that does not throw issues every step's calls, in order. */
  lemma CompletedConstructionLog()
    ensures ConstructionEvents(None) == CompletedSetupLog
  {
  }

  /**
   * A throwing step ends the log: what was issued is a prefix of the completed log, followed,
   * for a close, by the close that failed.
   */
  lemma FailedConstructionLogs()
    ensures ConstructionEvents(Some(CreateInPipe)) == []
    ensures ConstructionEvents(Some(CreateOutPipe)) == CompletedSetupLog[..2]
    ensures ConstructionEvents(Some(CreatePseudoConsole)) == CompletedSetupLog[..4]
    ensures ConstructionEvents(Some(StartProcess)) == CompletedSetupLog[..5]
    ensures ConstructionEvents(Some(CloseChildInput)) == CompletedSetupLog[..6] + [Close(InPipeRead, Immediate, false)]
    ensures ConstructionEvents(Some(CloseChildOutput)) == CompletedSetupLog[..7] + [Close(OutPipeWrite, Immediate, false)]
  {
  }

  /** That log acquires every handle and closes the child ends, in order. */
  lemma CompletedSetupLogHandles()
    ensures Acquired(CompletedSetupLog) == AllHandles
    ensures Closes(CompletedSetupLog) == ChildEnds
  {
    var t := CompletedSetupLog;
    assert t[0].handle == InPipeRead && t[1].handle == InPipeWrite && t[2].handle == OutPipeRead;
    assert t[3].handle == OutPipeWrite && t[4].handle == PseudoConsoleHandle && t[5].handle == ProcessHandles;
    ClosesAppend(t[..6], t[6..]);
    ClosesAppend(t[6..7], t[7..]);
    assert t == t[..6] + t[6..] && t[6..] == t[6..7] + t[7..];
  }

  /** A construction that does not throw acquires every handle and closes exactly the child ends. */
  lemma ConstructionClosesChildEnds()
    ensures Acquired(ConstructionEvents(None)) == AllHandles
    ensures Closes(ConstructionEvents(None)) == ChildEnds
  {
    CompletedConstructionLog();
    CompletedSetupLogHandles();
  }

  /** The constructor's steps close nothing but child ends, however they end. */
  lemma {:induction false} SetupClosesOnlyChildEnds(steps: seq<SetupStep>, failure: Option<SetupStep>)
    ensures forall h :: h in Closes(SetupEvents(steps, failure)) ==> h in ChildEnds
  {
    if steps != [] {
      var step := steps[0];
      var ok := failure != Some(step);
      assert forall h :: h in Closes(StepEvents(step, ok)) ==> h in ChildEnds by {
        var e := StepEvents(step, ok);
        assert |e| <= 2;
        if |e| == 2 {
          ClosesAppend([e[0]], [e[1]]);
          assert e == [e[0]] + [e[1]];
        }
      }
      if ok {
        ClosesAppend(StepEvents(step, true), SetupEvents(steps[1..], failure));
        SetupClosesOnlyChildEnds(steps[1..], failure);
      }
    }
  }

  /**
   * A construction that throws does no cleanup on the failure path: its only closes are of
   * child ends, and from the second step on the input pipe's write end is left open.
   */
  lemma FailedConstructionDoesNoCleanup(step: SetupStep)
    ensures forall h :: h in Closes(ConstructionEvents(Some(step))) ==> h in ChildEnds
    ensures step != CreateInPipe ==>
              InPipeWrite in Acquired(ConstructionEvents(Some(step))) &&
              InPipeWrite !in Closes(ConstructionEvents(Some(step)))
  {
    var t := ConstructionEvents(Some(step));
    SetupClosesOnlyChildEnds(SetupSteps, Some(step));
    if step != CreateInPipe {
      assert t == StepEvents(CreateInPipe, true) + SetupEvents(SetupSteps[1..], Some(step));
      assert t[1] == Acquire(InPipeWrite);
    }
  }

  // ---------------------------------------------------------------------------------------
  // Cleanup and the whole lifecycle

  /** Whether each throwing release in `cleanup` returned normally. */
  datatype CleanupOutcomes = CleanupOutcomes(processHandlesClosed: bool, inputStreamClosed: bool,
                                             outputStreamClosed: bool)

  /**
   * `cleanup`: process handles, then the pseudo-console, then the input stream (the output
   * pipe's read end), then the output stream (the input pipe's write end), streams gracefully.
   */
  function CleanupEvents(o: CleanupOutcomes): (r: seq<Event>)
    ensures |r| == |CleanupOrder| && forall i :: 0 <= i < |r| ==> r[i].Close? && r[i].handle == CleanupOrder[i]
    ensures r[0].succeeded == o.processHandlesClosed && r[1].succeeded
    ensures r[2].succeeded == o.inputStreamClosed && r[3].succeeded == o.outputStreamClosed
  {
    [Close(ProcessHandles, Immediate, o.processHandlesClosed),
     Close(PseudoConsoleHandle, Immediate, true),
     Close(OutPipeRead, Graceful, o.inputStreamClosed),
     Close(InPipeWrite, Graceful, o.outputStreamClosed)]
  }

  /** A failing release is caught, so every later release is still issued, in the same order. */
  lemma CleanupReleasesInOrder(o: CleanupOutcomes)
    ensures Closes(CleanupEvents(o)) == CleanupOrder
    ensures forall i :: 0 <= i < |CleanupEvents(o)| && CleanupEvents(o)[i].handle in {OutPipeRead, InPipeWrite}
              ==> CleanupEvents(o)[i].kind == Graceful
  {
    var t := CleanupEvents(o);
    ClosesAppend([t[0]], t[1..]);
    ClosesAppend([t[1]], t[2..]);
    ClosesAppend([t[2]], t[3..]);
    assert t[1..][1..] == t[2..] && t[2..][1..] == t[3..];
  }

  /** The waiter's events: publish the exit code, await the output drain, then clean up. */
  function WaiterEvents(code: int, o: CleanupOutcomes): (r: seq<Event>)
    ensures |r| == 2 + |CleanupEvents(o)|
    ensures r[0] == Publish(code) && r[1] == AwaitOutputRead
  {
    [Publish(code), AwaitOutputRead] + CleanupEvents(o)
  }

  /** The waiter releases the cleanup handles, and only after publishing and awaiting the drain. */
  lemma WaiterReleasesAfterPublishing(code: int, o: CleanupOutcomes)
    ensures Closes(WaiterEvents(code, o)) == CleanupOrder
    ensures WaiterEvents(code, o)[0] == Publish(code) && Closes(WaiterEvents(code, o)[..2]) == []
  {
    var w := WaiterEvents(code, o);
    var announce := [Publish(code), AwaitOutputRead];
    assert w == announce + CleanupEvents(o) && w[..2] == announce;
    assert Closes(announce) == [] by {
      ClosesAppend([Publish(code)], [AwaitOutputRead]);
      assert announce == [Publish(code)] + [AwaitOutputRead];
    }
    CleanupReleasesInOrder(o);
    ClosesAppend(announce, CleanupEvents(o));
  }

  /**
   * Along construction and the waiter, a close is issued exactly once for every handle, whether
   * or not it succeeds, and the exit code is published before the waiter's first release.
   */
  lemma LifecycleClosesEachHandleOnce(code: int, o: CleanupOutcomes)
    ensures Closes(ConstructionEvents(None) + WaiterEvents(code, o)) == ChildEnds + CleanupOrder
    ensures Distinct(Closes(ConstructionEvents(None) + WaiterEvents(code, o)))
    ensures forall h :: h in Closes(ConstructionEvents(None) + WaiterEvents(code, o)) <==> h in AllHandles
    ensures WaiterEvents(code, o)[0] == Publish(code) && Closes(WaiterEvents(code, o)[..2]) == []
  {
    ConstructionClosesChildEnds();
    WaiterReleasesAfterPublishing(code, o);
    ClosesAppend(ConstructionEvents(None), WaiterEvents(code, o));
    ReleasedHandlesPartition();
  }

  /** The child ends and the cleanup order together name every handle, each once. */
  lemma ReleasedHandlesPartition()
    ensures Distinct(ChildEnds + CleanupOrder)
    ensures forall h :: h in ChildEnds + CleanupOrder <==> h in AllHandles
  {
    var all := ChildEnds + CleanupOrder;
    assert all == [InPipeRead, OutPipeWrite, ProcessHandles, PseudoConsoleHandle, OutPipeRead, InPipeWrite];
  }

  // ---------------------------------------------------------------------------------------
  // The exit-code holder

  /** The outcome of the untimed wait. */
  datatype WaitOutcome = Returned(code: int) | BlockedUntilPublished

  /**
   * `ExitCodeInfo`: the exit code, absent until the waiter sets it. The lock and condition
   * serialise access; with one thread at a time they add nothing to the model.
   */
  class ExitCodeInfo {
    var exitCode: Option<int>

    constructor ()
      ensures exitCode == None
    {
      exitCode := None;
    }

    /** `setExitCode`: overwrites, whatever was stored before. */
    method SetExitCode(code: int)
      modifies this
      ensures exitCode == Some(code)
    {
      exitCode := Some(code);
    }

    /** `getExitCodeNow`: the stored code, or null, without blocking. */
    method GetExitCodeNow() returns (c: Option<int>)
      ensures c == exitCode
    {
      c := exitCode;
    }

    /**
     * Untimed `waitFor`: returns the stored code; with none stored the caller stays blocked
     * until the waiter publishes one.
     */
    method WaitFor() returns (r: WaitOutcome)
      ensures r.Returned? <==> exitCode.Some?
      ensures r.Returned? ==> exitCode == Some(r.code)
    {
      if exitCode.Some? {
        r := Returned(exitCode.value);
      } else {
        r := BlockedUntilPublished;
      }
    }

    /**
     * Timed `waitFor`. `clock[0]` is the start time and `clock[k]` the time read after the
     * k-th wake-up; the last reading lies past the deadline. The result says whether a code
     * is stored; the loop waits only while time remains, so a non-positive timeout never waits.
     */
    method WaitForTimeout(timeoutNanos: int, clock: seq<int>) returns (terminated: bool, wakeups: nat)
      requires |clock| > 0 && clock[|clock| - 1] - clock[0] >= timeoutNanos
      ensures terminated <==> exitCode.Some?
      ensures wakeups < |clock|
      ensures exitCode.Some? || timeoutNanos <= 0 ==> wakeups == 0
      ensures exitCode.None? ==> clock[wakeups] - clock[0] >= timeoutNanos
      ensures forall k :: 0 <= k < wakeups ==> clock[k] - clock[0] < timeoutNanos
    {
      var startTime := clock[0];
      var remaining := timeoutNanos;
      wakeups := 0;
      while exitCode.None? && remaining > 0
        invariant wakeups < |clock|
        invariant remaining == timeoutNanos - (clock[wakeups] - startTime)
        invariant exitCode.Some? ==> wakeups == 0
        invariant forall k :: 0 <= k < wakeups ==> clock[k] - startTime < timeoutNanos
        decreases |clock| - wakeups
      {
        // awaitNanos(remaining): no other thread runs, so the wake-up is a timeout or spurious
        wakeups := wakeups + 1;
        remaining := timeoutNanos - (clock[wakeups] - startTime);
      }
      terminated := exitCode.Some?;
    }
  }

  /** A published code is what every later reader sees. */
  method ObserveAfterPublish(code: int) returns (now: Option<int>, waited: WaitOutcome, terminated: bool)
    ensures now == Some(code) && waited == Returned(code) && terminated
  {
    var info := new ExitCodeInfo();
    info.SetExitCode(code);
    now := info.GetExitCodeNow();
    waited := info.WaitFor();
    var wakeups;
    terminated, wakeups := info.WaitForTimeout(0, [5]);
  }

  // ---------------------------------------------------------------------------------------
  // The process

  /** Where the waiter thread is: blocked on the process, awaiting the output drain, or done. */
  datatype WaiterPhase = AwaitingExit | DrainingOutput | Released

  datatype ProcessError = IllegalThreadState

  class WinConPtyProcess {
    const initialSize: WinSize
    /** The handle `WinHandleInputStream` reads: the output pipe's read end. */
    const inputStream: Handle
    /** The handle `WinHandleOutputStream` writes: the input pipe's write end. */
    const outputStream: Handle
    const exitCodeInfo: ExitCodeInfo
    var phase: WaiterPhase
    /** The native calls issued on this process's behalf, oldest first. */
    var log: seq<Event>
    /** Where in `log` the waiter published the exit code. */
    ghost var publishedAt: nat

    ghost predicate Valid()
      reads this, exitCodeInfo
    {
      && inputStream == OutPipeRead && outputStream == InPipeWrite
      && (phase == AwaitingExit <==> exitCodeInfo.exitCode.None?)
      && Closes(log) == ChildEnds + (if phase == Released then CleanupOrder else [])
      && (phase != AwaitingExit ==>
            && publishedAt < |log|
            && log[publishedAt] == Publish(exitCodeInfo.exitCode.value)
            && Closes(log[..publishedAt]) == ChildEnds)
      && (forall i :: 0 <= i < |log| && log[i].Terminate? ==> phase == AwaitingExit || i < publishedAt)
    }

    /** Lines after the native setup: wrap the remaining pipe ends as streams, start the waiter. */
    constructor Wire(size: WinSize, setupLog: seq<Event>)
      requires setupLog == ConstructionEvents(None)
      ensures Valid() && fresh(exitCodeInfo)
      ensures initialSize == size && log == setupLog && phase == AwaitingExit
    {
      initialSize := size;
      inputStream := OutPipeRead;
      outputStream := InPipeWrite;
      exitCodeInfo := new ExitCodeInfo();
      phase := AwaitingExit;
      log := setupLog;
      publishedAt := 0;
      ConstructionClosesChildEnds();
    }

    /** `isAlive`: exactly when no exit code is stored. */
    method IsAlive() returns (alive: bool)
      ensures alive <==> exitCodeInfo.exitCode.None?
    {
      var c := exitCodeInfo.GetExitCodeNow();
      alive := c.None?;
    }

    /** `exitValue`: the stored code, or `IllegalThreadStateException` while none is stored. */
    method ExitValue() returns (r: Result<int, ProcessError>)
      ensures r.Ok? <==> exitCodeInfo.exitCode.Some?
      ensures r.Ok? ==> exitCodeInfo.exitCode == Some(r.value)
    {
      var c := exitCodeInfo.GetExitCodeNow();
      if c.Some? {
        r := Ok(c.value);
      } else {
        r := Err(IllegalThreadState);
      }
    }

    /**
     * `destroy`: nothing once a code is stored; otherwise one `TerminateProcess(h, 1)`,
     * whose failure is only logged. The exit code is left alone either way.
     */
    method Destroy(terminateSucceeds: bool)
      requires Valid()
      modifies this
      ensures Valid() && phase == old(phase) && exitCodeInfo.exitCode == old(exitCodeInfo.exitCode)
      ensures old(exitCodeInfo.exitCode).Some? ==> log == old(log)
      ensures old(exitCodeInfo.exitCode).None? ==>
                log == old(log) + [Terminate(ProcessHandles, TerminateExitCode, terminateSucceeds)]
    {
      var alive := IsAlive();
      if !alive {
        return;
      }
      var call := [Terminate(ProcessHandles, TerminateExitCode, terminateSucceeds)];
      ClosesAppend(log, call);
      log := log + call;
    }

    /**
     * The first half of the waiter thread: derive the exit code from the wait and the query,
     * publish it, then block until the available output has been read.
     */
    method PublishExitCode(waitResult: int, query: ExitCodeQuery)
      requires Valid() && phase == AwaitingExit
      modifies this, exitCodeInfo
      ensures Valid() && phase == DrainingOutput
      ensures exitCodeInfo.exitCode == Some(WaiterExitCode(waitResult, query))
      ensures log == old(log) + [Publish(WaiterExitCode(waitResult, query)), AwaitOutputRead]
    {
      var code := WaiterExitCode(waitResult, query);
      exitCodeInfo.SetExitCode(code);
      publishedAt := |log|;
      ClosesAppend(log, [Publish(code)]);
      log := log + [Publish(code)];
      assert log[..publishedAt] == old(log);
      // myInputStream.awaitAvailableOutputIsRead()
      ClosesAppend(log, [AwaitOutputRead]);
      log := log + [AwaitOutputRead];
      assert log[..publishedAt] == old(log);
      phase := DrainingOutput;
    }

    /** The second half of the waiter thread: `cleanup`, each failing release caught. */
    method Cleanup(outcomes: CleanupOutcomes)
      requires Valid() && phase == DrainingOutput
      modifies this
      ensures Valid() && phase == Released
      ensures log == old(log) + CleanupEvents(outcomes)
    {
      // ProcessUtils.closeHandles(processInformation); an IOException is logged
      log := log + [Close(ProcessHandles, Immediate, outcomes.processHandlesClosed)];
      // pseudoConsole.close()
      log := log + [Close(PseudoConsoleHandle, Immediate, true)];
      // myInputStream.close(false); an IOException is logged
      log := log + [Close(inputStream, Graceful, outcomes.inputStreamClosed)];
      // myOutputStream.close(false); an IOException is logged
      log := log + [Close(outputStream, Graceful, outcomes.outputStreamClosed)];
      phase := Released;
      assert log == old(log) + CleanupEvents(outcomes);
      ClosesAppend(old(log), CleanupEvents(outcomes));
      CleanupReleasesInOrder(outcomes);
      assert log[..publishedAt] == old(log)[..publishedAt];
    }

    /** The waiter thread's body, run once the process has ended. */
    method AwaitTermination(waitResult: int, query: ExitCodeQuery, outcomes: CleanupOutcomes)
      requires Valid() && phase == AwaitingExit
      modifies this, exitCodeInfo
      ensures Valid() && phase == Released
      ensures exitCodeInfo.exitCode == Some(WaiterExitCode(waitResult, query))
      ensures log == old(log) + WaiterEvents(WaiterExitCode(waitResult, query), outcomes)
    {
      PublishExitCode(waitResult, query);
      Cleanup(outcomes);
    }

    /**
     * Every close call this process issued is of a different handle; once released, there is
     * one for every handle, whether or not it succeeded.
     */
    lemma ClosesEachHandleAtMostOnce()
      requires Valid()
      ensures Distinct(Closes(log))
      ensures phase == Released ==> forall h :: h in Closes(log) <==> h in AllHandles
    {
      ReleasedHandlesPartition();
    }

    /** Until the exit code is published, only the child ends have been closed. */
    lemma ReleasesFollowPublication()
      requires Valid()
      ensures phase != AwaitingExit ==> log[publishedAt].Publish?
      ensures forall i :: 0 <= i < |log| && log[i].Close? && (phase == AwaitingExit || i < publishedAt)
                ==> log[i].handle in ChildEnds
    {
      forall i | 0 <= i < |log| && log[i].Close? && (phase == AwaitingExit || i < publishedAt)
        ensures log[i].handle in ChildEnds
      {
        if phase == AwaitingExit {
          assert log[..|log|] == log;
          ClosedInPrefix(log, i, |log|);
        } else {
          ClosedInPrefix(log, i, publishedAt);
        }
      }
    }

    /** `TerminateProcess` is never issued on the process handle after it was closed. */
    lemma NoTerminateAfterRelease()
      requires Valid()
      ensures forall i, j :: 0 <= i < j < |log| && log[i].Close? && log[i].handle == ProcessHandles
                ==> !log[j].Terminate?
    {
      ReleasesFollowPublication();
    }
  }

  /** The result of `new WinConPtyProcess(...)`: the process, or the step that threw. */
  datatype Construction = Constructed(process: WinConPtyProcess) | SetupFailed(step: SetupStep, log: seq<Event>)

  /**
   * The constructor's native steps in order. `failure` is the first that fails, if any; it
   * throws, and nothing acquired before it is cleaned up.
   */
  method RunSetup(failure: Option<SetupStep>) returns (log: seq<Event>)
    ensures log == ConstructionEvents(failure)
  {
    CompletedConstructionLog();
    FailedConstructionLogs();
    ghost var c := CompletedSetupLog;
    log := [];
    // new Pipe() for the child's input
    if failure == Some(CreateInPipe) {
      return;
    }
    log := log + [Acquire(InPipeRead), Acquire(InPipeWrite)];
    assert log == c[..2];
    // new Pipe() for the child's output
    if failure == Some(CreateOutPipe) {
      return;
    }
    log := log + [Acquire(OutPipeRead), Acquire(OutPipeWrite)];
    assert log == c[..4];
    // new PseudoConsole(getInitialSize(options), inPipe.read, outPipe.write)
    if failure == Some(CreatePseudoConsole) {
      return;
    }
    log := log + [Acquire(PseudoConsoleHandle)];
    assert log == c[..5];
    // ProcessUtils.startProcess
    if failure == Some(StartProcess) {
      return;
    }
    log := log + [Acquire(ProcessHandles)];
    assert log == c[..6];
    // CloseHandle(inPipe.read); a failure throws
    log := log + [Close(InPipeRead, Immediate, failure != Some(CloseChildInput))];
    if failure == Some(CloseChildInput) {
      return;
    }
    assert log == c[..7];
    // CloseHandle(outPipe.write); a failure throws
    log := log + [Close(OutPipeWrite, Immediate, failure.None?)];
    if failure.Some? {
      var st := failure.value;
      assert st.CreateInPipe? || st.CreateOutPipe? || st.CreatePseudoConsole? || st.StartProcess?
          || st.CloseChildInput? || st.CloseChildOutput?;
      assert st == CloseChildOutput;
      return;
    }
    assert log == c;
  }

  /**
   * The constructor: the native setup, then, if no step threw, the streams and the waiter.
   * The pseudo-console is created with `getInitialSize(options)`.
   */
  method Create(initialColumns: Option<int>, initialRows: Option<int>, failure: Option<SetupStep>)
    returns (r: Construction)
    ensures r.SetupFailed? <==> failure.Some?
    ensures r.SetupFailed? ==> failure == Some(r.step) && r.log == ConstructionEvents(failure)
    ensures r.Constructed? ==>
              && fresh(r.process) && fresh(r.process.exitCodeInfo) && r.process.Valid()
              && r.process.log == ConstructionEvents(None) && r.process.phase == AwaitingExit
              && r.process.initialSize == InitialSize(initialColumns, initialRows)
  {
    var log := RunSetup(failure);
    if failure.Some? {
      return SetupFailed(failure.value, log);
    }
    var p := new WinConPtyProcess.Wire(InitialSize(initialColumns, initialRows), log);
    r := Constructed(p);
  }

  /**
   * A caller interleaved with the waiter: after publication the process is not alive,
   * `exitValue` answers, `destroy` issues nothing, and cleanup still follows.
   */
  method ObserveTermination(p: WinConPtyProcess, waitResult: int, query: ExitCodeQuery,
                            outcomes: CleanupOutcomes)
    returns (alive: bool, value: Result<int, ProcessError>)
    requires p.Valid() && p.phase == AwaitingExit
    modifies p, p.exitCodeInfo
    ensures p.Valid() && p.phase == Released && !alive
    ensures value == Ok(WaiterExitCode(waitResult, query))
    ensures p.log == old(p.log) + WaiterEvents(WaiterExitCode(waitResult, query), outcomes)
  {
    p.PublishExitCode(waitResult, query);
    alive := p.IsAlive();
    value := p.ExitValue();
    p.Destroy(false);
    p.Cleanup(outcomes);
  }
}
