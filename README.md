# pty4j: backend selection and the ConPTY process lifecycle

This project models two pieces of pty4j, a Java library that starts a child process attached
to a pseudo-terminal:

- `PtyProcessBuilder` (module `PtyProcessBuilder`, file `pty_process_builder.dfy`): a mutable
  builder of spawn settings whose `start()` defaults the environment and picks exactly one
  backend: Cygwin, ConPTY, WinPty or Unix. A ConPTY native-library link error falls back to
  WinPty.
- `WinConPtyProcess` (module `WinConPty`, file `win_con_pty_process.dfy`): the Windows
  pseudo-console process. It owns two pipes, a pseudo-console and the process handles. It keeps
  the exit code in an `ExitCodeInfo` holder that a single waiter thread sets. The readers
  `exitValue`, `isAlive`, `destroy` and `waitFor` answer from that holder. The waiter derives the
  exit code, publishes it, waits for the output to be read, and then releases the handles in a
  fixed order.

Native calls are not executed. Handle acquisitions, close calls and `TerminateProcess` are
appended to an event log (`Acquire`, `Close`, `Terminate`), together with the publication of the
exit code and the wait for the output drain (`Publish`, `AwaitOutputRead`). A failing create
leaves no event. The answers of `WaitForSingleObject` and `GetExitCodeProcess` are parameters, and
so is whether each close succeeds. The properties about handles are stated on this log:

- a close is issued at most once for each handle, whether or not it succeeds;
- before the exit code is published, close calls are issued only for the child's pipe ends;
- in the sequential model, where `destroy` runs as one step, `TerminateProcess` never follows the release of the process handle.

`wrappers.dfy` holds `Option` (a nullable reference) and `Result` (a call that may throw).

Three behaviours of the code are easy to miss; the model follows them:

- A constructor that throws does no cleanup on the failure path: it closes nothing but child ends, and once the first pipe exists its write end stays open (`FailedConstructionDoesNoCleanup`).
- `setExitCode` overwrites the stored code rather than enforcing set-once.
- The waiter always waits for the output drain; no `keepOutputAfterTermination` flag gates it.

## Model

| member | source | states |
|---|---|---|
| `PtyProcessBuilder.SelectBackend` | src/com/pty4j/PtyProcessBuilder.java:161-175 | Non-Windows gives Unix whatever the flags. On Windows, `cygwin` gives Cygwin whatever the other flags. ConPTY is chosen only when `useWinConPty && !console` and its construction succeeds. A link error, or not asking for ConPTY, gives WinPty. An `IOException` from ConPTY propagates. Each case is stated as an if-and-only-if, so the cases are exhaustive and exclusive. |
| `PtyProcessBuilder.StartOutcome` | src/com/pty4j/PtyProcessBuilder.java:152-175 | The constructor `start()` calls is the selected backend's. ConPTY, WinPty and Unix receive the options built from the fields. ConPTY also receives the suspended-process callback, and WinPty and Unix the console flag. Cygwin receives command, environment, directory, log file and console. A null command on the Cygwin path throws. |
| `PtyProcessBuilder.ConPtyConsultedOnlyWhenAttempted` | src/com/pty4j/PtyProcessBuilder.java:165-173 | Off the `useWinConPty && !console` branch on Windows without Cygwin, the ConPTY outcome does not affect the choice. |
| `PtyProcessBuilder.DefaultSettings` | src/com/pty4j/PtyProcessBuilder.java:22-35 | The field initialisers: the given command, and null environment, directory, log file, sizes and callback. Every flag is false except `spawnProcessUsingJdkOnMacIntel`, which is true. |
| `PtyProcessBuilder.OptionsOf` | src/com/pty4j/PtyProcessBuilder.java:152-160 | The `PtyProcessOptions` carry the command, environment, directory, redirect flag, sizes, ANSI colour flag, open-tty flag and macOS spawn flag unchanged. `console`, `cygwin`, the log file, `useWinConPty` and the callback are not among them. |
| `PtyProcessBuilder.Builder.constructor` | src/com/pty4j/PtyProcessBuilder.java:22-38 | A fresh builder has null references. Every flag is false except `spawnProcessUsingJdkOnMacIntel`, which is true. |
| `PtyProcessBuilder.Builder.WithCommand` | src/com/pty4j/PtyProcessBuilder.java:40-42 | Defaults, with the given command stored. |
| `PtyProcessBuilder.Builder.WithArgs` | src/com/pty4j/PtyProcessBuilder.java:44-46 | Defaults, with the argument array stored wrapped as a `CommandList`. |
| `PtyProcessBuilder.Builder.SetCommandArgs` | src/com/pty4j/PtyProcessBuilder.java:48-52 | Stores `CommandList(argv)` as the command, changes no other field, returns the same builder. |
| `PtyProcessBuilder.Builder.SetCommand` | src/com/pty4j/PtyProcessBuilder.java:54-58 | Stores the command, changes no other field, returns the same builder. |
| `PtyProcessBuilder.Builder.SetEnvironment` | src/com/pty4j/PtyProcessBuilder.java:60-64 | Stores the environment (possibly null) only; returns the same builder. |
| `PtyProcessBuilder.Builder.SetDirectory` | src/com/pty4j/PtyProcessBuilder.java:66-70 | Stores the directory only; returns the same builder. |
| `PtyProcessBuilder.Builder.SetConsole` | src/com/pty4j/PtyProcessBuilder.java:72-76 | Stores the console flag only; returns the same builder. |
| `PtyProcessBuilder.Builder.SetCygwin` | src/com/pty4j/PtyProcessBuilder.java:78-82 | Stores the Cygwin flag only; returns the same builder. |
| `PtyProcessBuilder.Builder.SetLogFile` | src/com/pty4j/PtyProcessBuilder.java:84-88 | Stores the log file only; returns the same builder. |
| `PtyProcessBuilder.Builder.SetRedirectErrorStream` | src/com/pty4j/PtyProcessBuilder.java:90-94 | Stores the redirect flag only; returns the same builder. |
| `PtyProcessBuilder.Builder.SetInitialColumns` | src/com/pty4j/PtyProcessBuilder.java:96-100 | Stores the column count (possibly null) only; returns the same builder. |
| `PtyProcessBuilder.Builder.SetInitialRows` | src/com/pty4j/PtyProcessBuilder.java:102-106 | Stores the row count (possibly null) only; returns the same builder. |
| `PtyProcessBuilder.Builder.SetWindowsAnsiColorEnabled` | src/com/pty4j/PtyProcessBuilder.java:108-112 | Stores the ANSI colour flag only; returns the same builder. |
| `PtyProcessBuilder.Builder.SetUseWinConPty` | src/com/pty4j/PtyProcessBuilder.java:114-117 | Stores the ConPTY flag only; returns the same builder. |
| `PtyProcessBuilder.Builder.SetWindowsSuspendedProcessCallback` | src/com/pty4j/PtyProcessBuilder.java:122-125 | Stores the callback only; returns the same builder. |
| `PtyProcessBuilder.Builder.SetUnixOpenTtyToPreserveOutputAfterTermination` | src/com/pty4j/PtyProcessBuilder.java:135-139 | Stores the open-tty flag only; returns the same builder. |
| `PtyProcessBuilder.Builder.SetSpawnProcessUsingJdkOnMacIntel` | src/com/pty4j/PtyProcessBuilder.java:141-145 | Stores the macOS spawn flag only; returns the same builder. |
| `PtyProcessBuilder.Builder.Start` | src/com/pty4j/PtyProcessBuilder.java:147-176 | A null environment becomes the system environment and a non-null one is kept. Nothing else changes. The result is the backend call that `StartOutcome` gives for the new state. |
| `PtyProcessBuilder.ConfigureAndStart` | src/com/pty4j/PtyProcessBuilder.java:44-176 | Chained setters act on one builder. With `console` set, asking for ConPTY on Windows yields WinPty with the configured options. |
| `WinConPty.InitialSize` | src/com/pty4j/windows/conpty/WinConPtyProcess.java:84-87 | Absent columns give 80 and absent rows give 25. Given values pass through unchanged. |
| `WinConPty.WaiterExitCode` | src/com/pty4j/windows/conpty/WinConPtyProcess.java:93-108 | The queried code when the wait returned `WAIT_OBJECT_0` and `GetExitCodeProcess` succeeded, and -100 on every other path. Any code other than -100 comes from that path. |
| `WinConPty.StepEvents` | src/com/pty4j/windows/conpty/WinConPtyProcess.java:46-56 | A create step acquires its handles exactly when it succeeds, so a failing create acquires nothing. A close step issues one immediate close of a child end, whether or not it succeeds. |
| `WinConPty.SetupEvents` | src/com/pty4j/windows/conpty/WinConPtyProcess.java:46-56 | The native steps issue only acquisitions and immediate closes. When no step fails, no close failed. |
| `WinConPty.ConstructionEvents` | src/com/pty4j/windows/conpty/WinConPtyProcess.java:46 | When creating the first pipe throws, the log is empty: nothing was acquired. |
| `WinConPty.CompletedConstructionLog` | src/com/pty4j/windows/conpty/WinConPtyProcess.java:46-56 | A construction that does not throw acquires both ends of the input pipe, both ends of the output pipe, the pseudo-console and the process handles, in that order. It then closes the input pipe's read end and the output pipe's write end. |
| `WinConPty.FailedConstructionLogs` | src/com/pty4j/windows/conpty/WinConPtyProcess.java:46-56 | The step that throws ends the log. A failing create leaves the calls of the earlier steps. A failing close leaves those and the close that failed. |
| `WinConPty.CompletedSetupLogHandles` | src/com/pty4j/windows/conpty/WinConPtyProcess.java:46-56 | The step through the written-out log that `ConstructionClosesChildEnds` uses: the completed construction log acquires all six handles, and its closes are the input pipe's read end, then the output pipe's write end. |
| `WinConPty.RunSetup` | src/com/pty4j/windows/conpty/WinConPtyProcess.java:46-56 | Issues the native steps one at a time and stops at the first that fails. The calls issued are exactly `ConstructionEvents(failure)`. |
| `WinConPty.ConstructionClosesChildEnds` | src/com/pty4j/windows/conpty/WinConPtyProcess.java:46-56 | A construction that does not throw acquires all six handles. Its only closes are the input pipe's read end, then the output pipe's write end. |
| `WinConPty.SetupClosesOnlyChildEnds` | src/com/pty4j/windows/conpty/WinConPtyProcess.java:46-56 | However the constructor's native steps end, they close nothing but the child's pipe ends. |
| `WinConPty.FailedConstructionDoesNoCleanup` | src/com/pty4j/windows/conpty/WinConPtyProcess.java:46-56 | A throwing constructor closes only child ends. From the second step on, the input pipe's write end stays acquired and unreleased. |
| `WinConPty.CleanupReleasesInOrder` | src/com/pty4j/windows/conpty/WinConPtyProcess.java:198-215 | For every combination of failures of the three caught releases, cleanup closes the process handles, the pseudo-console, the input stream's handle, then the output stream's handle. Both streams close gracefully. |
| `WinConPty.CleanupEvents` | src/com/pty4j/windows/conpty/WinConPtyProcess.java:198-215 | Four closes whose handles follow the cleanup order whatever fails. The pseudo-console close always succeeds. Each caught release succeeds or fails on its own outcome. |
| `WinConPty.WaiterEvents` | src/com/pty4j/windows/conpty/WinConPtyProcess.java:109-111 | The publication comes first, then the wait for the output drain, then the four releases of cleanup. |
| `WinConPty.WaiterReleasesAfterPublishing` | src/com/pty4j/windows/conpty/WinConPtyProcess.java:109-111 | The waiter closes exactly the cleanup order. Its first two events, the publication and the drain wait, close nothing. |
| `WinConPty.ReleasedHandlesPartition` | src/com/pty4j/windows/conpty/WinConPtyProcess.java:198-215 | The two child ends that the constructor closes and the four releases of cleanup together name all six handles, each once. |
| `WinConPty.LifecycleClosesEachHandleOnce` | src/com/pty4j/windows/conpty/WinConPtyProcess.java:46-111 | Construction followed by the waiter closes the child ends, then the cleanup order. No handle gets two close calls, and a close is issued for every handle, whether or not it succeeds. The waiter's first event is the publication, and no close precedes it. |
| `WinConPty.ExitCodeInfo.constructor` | src/com/pty4j/windows/conpty/WinConPtyProcess.java:217-218 | The holder starts with no exit code. |
| `WinConPty.ExitCodeInfo.SetExitCode` | src/com/pty4j/windows/conpty/WinConPtyProcess.java:222-230 | The stored code becomes the given one. |
| `WinConPty.ExitCodeInfo.GetExitCodeNow` | src/com/pty4j/windows/conpty/WinConPtyProcess.java:244-251 | Returns the stored code, or null, without waiting. |
| `WinConPty.ExitCodeInfo.WaitFor` | src/com/pty4j/windows/conpty/WinConPtyProcess.java:232-242 | Returns exactly when a code is stored, and then returns that code. Otherwise the caller stays blocked. |
| `WinConPty.ExitCodeInfo.WaitForTimeout` | src/com/pty4j/windows/conpty/WinConPtyProcess.java:253-267 | The result is "a code is stored". A stored code or a non-positive timeout means no wait at all. Otherwise it keeps waiting only while time remains and stops at the first wake-up past the deadline. |
| `WinConPty.ObserveAfterPublish` | src/com/pty4j/windows/conpty/WinConPtyProcess.java:222-267 | After `setExitCode(c)`, `getExitCodeNow()` and `waitFor()` both give `c`, and a zero-timeout wait reports termination. |
| `WinConPty.WinConPtyProcess.Wire` | src/com/pty4j/windows/conpty/WinConPtyProcess.java:57-59 | The input stream wraps the output pipe's read end and the output stream wraps the input pipe's write end. The process starts alive, with the constructor's log. |
| `WinConPty.WinConPtyProcess.IsAlive` | src/com/pty4j/windows/conpty/WinConPtyProcess.java:170-173 | True exactly when no exit code is stored. |
| `WinConPty.WinConPtyProcess.ExitValue` | src/com/pty4j/windows/conpty/WinConPtyProcess.java:161-168 | Returns the stored code when there is one. Otherwise it throws `IllegalThreadStateException`. |
| `WinConPty.WinConPtyProcess.Destroy` | src/com/pty4j/windows/conpty/WinConPtyProcess.java:180-188 | Once a code is stored it issues nothing. Otherwise it issues one `TerminateProcess(h, 1)`, and a failure is not thrown. The exit code is unchanged either way. |
| `WinConPty.WinConPtyProcess.PublishExitCode` | src/com/pty4j/windows/conpty/WinConPtyProcess.java:93-110 | Stores the derived exit code, logs its publication, then the wait for the output to be read. Both come before any release. |
| `WinConPty.WinConPtyProcess.Cleanup` | src/com/pty4j/windows/conpty/WinConPtyProcess.java:198-215 | After the drain, appends the four releases in cleanup order whatever fails, and keeps the process invariant. |
| `WinConPty.WinConPtyProcess.AwaitTermination` | src/com/pty4j/windows/conpty/WinConPtyProcess.java:92-112 | The waiter's body: publication, the drain wait, then cleanup. The stored code is the derived one. |
| `WinConPty.WinConPtyProcess.ClosesEachHandleAtMostOnce` | src/com/pty4j/windows/conpty/WinConPtyProcess.java:198-215 | Across the constructor's closes and cleanup, no handle gets two close calls. After cleanup, a close has been issued for every handle, whether or not it succeeded. |
| `WinConPty.WinConPtyProcess.ReleasesFollowPublication` | src/com/pty4j/windows/conpty/WinConPtyProcess.java:109-111 | Until the exit code is published, close calls have been issued only for the child ends. The publication is recorded where the invariant says. |
| `WinConPty.WinConPtyProcess.NoTerminateAfterRelease` | src/com/pty4j/windows/conpty/WinConPtyProcess.java:180-188 | In the sequential model, where `destroy` checks and terminates in one step, no `TerminateProcess` follows the close of the process handle. |
| `WinConPty.Create` | src/com/pty4j/windows/conpty/WinConPtyProcess.java:43-60 | Runs the native steps in order. The first failing step throws, with exactly the calls issued so far. Otherwise the process is valid and alive, its log is the full construction, and its size is `InitialSize`. |
| `WinConPty.ObserveTermination` | src/com/pty4j/windows/conpty/WinConPtyProcess.java:161-188 | Between publication and cleanup, the process is not alive, `exitValue` gives the derived code, and `destroy` issues nothing. |

## Left out

- JNA and `Kernel32` calls are parameters: `WaitForSingleObject`, `GetExitCodeProcess`, `CloseHandle` and `TerminateProcess`. So are the outcomes of `new Pipe()`, `new PseudoConsole(...)`, `ProcessUtils.startProcess` and `ProcessUtils.closeHandles`.
- Threads, `ReentrantLock` and `Condition` are left out because the model is sequential. The waiter runs as two atomic steps: publish then drain, and cleanup. Other calls may come between them.
- `ExitCodeInfo.WaitFor`: never blocks. When no code is stored, it returns `BlockedUntilPublished`.
- `ExitCodeInfo.WaitForTimeout`: no other thread runs during the wait, so the model cannot show a publication during `awaitNanos` waking the loop and returning true before the deadline, as the source can. `System.nanoTime` readings are a parameter. The model requires the last reading to be past the deadline, so the loop ends; in the source, time passing guarantees this. `TimeUnit` conversion is left out; the timeout is given in nanoseconds.
- `WinConPtyProcess.Destroy`: the `isAlive()` check and the `TerminateProcess` call are modelled as one indivisible step. In the source they share no lock with the waiter. Between them the waiter can publish the exit code and close the process handles, so `TerminateProcess` can be issued on a closed handle. `NoTerminateAfterRelease` holds only in the sequential model.
- `CleanupEvents`: `pseudoConsole.close()` is modelled as never throwing. In the source it is the one release in `cleanup` without a catch, so an exception there would skip both stream closes. "Every combination of failing releases" covers only the three caught releases.
- `WinConPty.Create`: a Dafny constructor cannot throw, so the Java constructor is a method. It returns the process, or the failing step and the calls issued before the throw.
- A close that fails still counts as that handle's one close in `Closes`. In the source a throwing `closeHandles` (WinConPtyProcess.java:200-202) or stream `close(false)` (:206-213) is only logged, and the handle may stay open; the model does not say whether it is released.
- `ProcessUtils.closeHandles` closes the process and thread handles. Its internals are not modelled, so both are one abstract handle, `ProcessHandles`.
- Treated as opaque and not modelled: `PseudoConsole`, `Pipe`, `WinHandleInputStream`, `WinHandleOutputStream` (including what `awaitAvailableOutputIsRead` waits for), `NullInputStream`, `ConPtyLibrary.isBundled`, `WinHelper.getCurrentDirectory` and `ConsoleProcessListFetcher`. This leaves out `setWinSize`, `getWinSize`, `pid`, the stream getters, `getWorkingDirectory`, `getConsoleProcessCount`, `isBundledConPtyLibrary` and `getCommand`/`getCommandWrapper`.
- The suspended-process callback is only passed through to the ConPTY constructor. Its invocation inside `startProcess` is not modelled.
- `supportsNormalTermination` is left out: it is the constant false.
- The Cygwin, WinPty and Unix backends are left out. The model records which of them is called and with what arguments. Their own exceptions are not modelled.
- `Command.toArray` and `Command.toCommandLine` quoting are left out. Cygwin receives the `Command` value itself.
- Logging (slf4j) is left out, so the log lines of the fallback, the waiter, `destroy` and `cleanup` are absent.
- The contents of `System.getenv()` are a parameter of `Start`.
- Exit codes are unbounded integers. The code only stores and compares them, so the 32-bit width does not matter.
