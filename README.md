# MC-Server-Manager process supervision, in Dafny

This project models the part of MC-Server-Manager that supervises one game-server process per hosted server:

- **The two `ProcessHost` revisions.** These are the status state machines that start, stop, talk to and dispose of a child process.
  - `OsProcesses` models `Infrastructure.OS.Processes.ProcessHost`, which has change notifications and stdio events.
  - `OsLegacy` models the earlier `Infrastructure.OS.ProcessHost`, which can also reattach to a running process after checking its identity.
- **Process identity and exit-code resolution.**
  - `LinuxProcessUtils` reads `/proc/<pid>/cmdline` and `/proc/<pid>/stat`.
  - `Win32ProcessUtils` and `ProcessesWin32ProcessUtils` are the two copies of the Windows command-line splitter.
  - `ProcessUtils` does the platform dispatch and the primary/fallback exit-code read.
- **`StringExtensions.ReverseString`.**
- **The `Services.Lifecycle.ServerProcessHost` decorator (`Lifecycle`).** It keeps the server's output in a replay buffer and filters change notifications.
- **The factory (`ServerProcessHostFactory`).** It builds the `java -jar` command.
- **The backup records and the installation defaults.**
  - `BackupRules` and `ManualBackups` model the equality and hash inputs of the backup records.
  - `GlobalSettingsDefaults` models the defaults a fresh installation starts from.

## How the model is organised

Each host revision has two parts:

- **Pure step functions.** Each public operation is a step function (`StartStep`, `StopStep`, …) from one `HostState` to the next. A step returns:
  - the new state;
  - the observable effects, in order: notifications and events raised, and calls made on the `Process` object;
  - the outcome: a value, or the exception thrown, modelled as `Result`.
- **A class.** The class `ProcessHost` has the source's fields and performs each operation statement by statement. Each method is proved to do what its step function says, including the `StopAsync` retry loop.

Everything the operating system decides is an input:

- whether the executable and the working directory exist;
- whether `Process.Start()` launches a process (and with which id), returns false, or throws;
- what `HasExited` reports;
- how the wait for exit ends (`WaitOutcome`): the exit callback ran inside it, the process had already exited, or the timeout cancelled it first;
- whether the standard-input write and flush succeed;
- what reading `Modules[0].FileName` gives in the earlier host's reattach;
- the outcome of reading `ExitCode`;
- the strings the WMI query and the `/proc` files yield.

.NET exceptions are the `Error` constructors of `Wrappers`. A `TimeSpan` is counted in ticks.

Two .NET rules are part of the model rather than inputs:

- **Reads on a `Process` object.** Reading `Id` or `HasExited` on a `Process` that never launched, or on one that has been disposed, throws InvalidOperationException. `Process.Close` forgets the id and the exit state. Each host tracks whether its process has been released: the newer host in `m_processDisposed`, the earlier one in a model field.
- **`CancelAfter` range.** `CancellationTokenSource.CancelAfter(TimeSpan)` throws ArgumentOutOfRangeException for a timeout below -1 ms or above `Timer.MaxSupportedTimeout` (4294967294 ms). The truncation to whole milliseconds is toward zero.

Consequences that the lemmas state:

- In both hosts, the log line of `StopAsync` reads `m_process?.Id`. So a second `StopAsync` after a stop throws InvalidOperation, and so does a stop while holding a process that never launched.
- The newer host clears its four events before it sets `m_disposed`, so nothing is heard from a disposed host (`SilentAfterDispose`). The earlier host never clears `Exited`.
- Both hosts subscribe their exit callback before `WaitForExitAsync` subscribes its own, so when the exit is heard the callback runs inside the wait. A stop of a running process then raises `Exited` exactly once (`StopRaisesExitedOnce`), and the decorator's buffer is completed (`StopCompletesBuffer`).
- In the earlier host, `DisposeAsync` after a stop always throws, at `HasExited`. A dispose whose stop fails throws from its own `catch` block, which logs the released process's id, and leaves the host undisposed.

Two behaviours of the code are easy to misread; the model keeps both as written:

- **Default stop timeout.** The parameterless `StopAsync` passes `c_waitForProcessExitInMs` (10000) to `TimeSpan.FromSeconds` (Processes/ProcessHost.cs:181), so it waits 10000 seconds, not ten.
- **Path-validation failure.** `Start` sets Starting before it calls `ValidatePaths`, so a missing path leaves the status at Starting.

The decorator receives the host's events synchronously. It is modelled by `DeliverAll`, which hands each host effect to the decorator's handlers while they are subscribed.

## Model

Paths are relative to the repository root.

| member | source | states |
|---|---|---|
| ProcessTypes.ValidatePaths | src/system/Infrastructure/Infrastructure.OS/Processes/ProcessHost.cs:319-332 | Fails with FileNotFound when the executable is missing (checked first) and with DirectoryNotFound when only the working directory is missing. Succeeds exactly when both exist. |
| ProcessTypes.DefaultStopTimeoutIsTenThousandSeconds | src/system/Infrastructure/Infrastructure.OS/Processes/ProcessHost.cs:179-182 | The default stop timeout is `FromSeconds(10000)`, which is 10000 seconds, and `CancelAfter` accepts it. |
| ProcessTypes.HeldAfter | src/system/Infrastructure/Infrastructure.OS/Processes/ProcessHost.cs:151-165 | The host holds a launched process exactly when `Process.Start()` started one, with its pid. |
| ProcessTypes.WholeMilliseconds | src/system/Infrastructure/Infrastructure.OS/Processes/ProcessHost.cs:224 | `(long)TotalMilliseconds` truncates toward zero: the whole milliseconds never exceed the ticks in size, and fall short by less than one millisecond. |
| ProcessTypes.CancelAfterRange | src/system/Infrastructure/Infrastructure.OS/Processes/ProcessHost.cs:222-225 | `CancelAfter` accepts a timeout exactly when it lies strictly between -2 ms and one millisecond past the largest supported delay. |
| OsProcesses.ProcessIdOf | src/system/Infrastructure/Infrastructure.OS/Processes/ProcessHost.cs:43-49 | -1 when no process is held. The pid while the host holds a launched process it has not released. InvalidOperation for a process that never launched or has been released. |
| OsProcesses.HeldId | src/system/Infrastructure/Infrastructure.OS/Processes/ProcessHost.cs:188-193 | `m_process?.Id` is null exactly without a process. It is the pid exactly while the host holds a launched process it has not released. Otherwise InvalidOperation. |
| OsProcesses.StartStep | src/system/Infrastructure/Infrastructure.OS/Processes/ProcessHost.cs:123-177 | On a disposed host: ObjectDisposed. While Starting or Running: InvalidOperation, with state and effects unchanged. A missing path leaves Starting with one Status notification and throws FileNotFound or DirectoryNotFound. A launch that throws leaves Starting, holding the never-launched process, and rethrows. A launch that returns false ends in FailedToStart and throws InvalidOperation. A launch ends in Running, notifies Status, ProcessId, Status, and returns the pid. The invariant is preserved. |
| OsProcesses.StopStep | src/system/Infrastructure/Infrastructure.OS/Processes/ProcessHost.cs:184-237 | On a disposed host: ObjectDisposed. A held process that never launched or is already released: InvalidOperation at the log line, with no effect. While Starting: exactly five 1000 ms polls and no change. Without a running process: no effect. Otherwise it kills the process tree and, if `CancelAfter` accepts the timeout, waits; when the exit callback runs inside that wait, its notifications and its `Exited` event come next. Then it unsubscribes, releases the process and ends in Exited, with one Status notification unless the callback already gave it. A refused timeout yields ArgumentOutOfRange; a wait cancelled first yields OperationCanceled; otherwise it succeeds. The invariant is preserved. |
| OsProcesses.KillAndWaitStep | src/system/Infrastructure/Infrastructure.OS/Processes/ProcessHost.cs:217-235 | For a running process: kill, the wait if `CancelAfter` accepts the timeout, the exit callback if it runs inside the wait, then unsubscribe and release; the host ends Exited with its process released. Succeeds exactly when the timeout is accepted and the wait is not cancelled; otherwise ArgumentOutOfRange or OperationCanceled. |
| OsProcesses.StopTwiceThrows | src/system/Infrastructure/Infrastructure.OS/Processes/ProcessHost.cs:184-237 | After a running process is stopped, the host is Exited and a second stop throws InvalidOperation at its log line, changing nothing. |
| OsProcesses.StopRaisesExitedOnce | src/system/Infrastructure/Infrastructure.OS/Processes/ProcessHost.cs:217-235 | Stopping a running host raises `Exited` exactly once, with its pid and the exit code read in the callback, when the callback runs inside the wait, and never otherwise. |
| OsProcesses.ExitedStepRaisesOnce | src/system/Infrastructure/Infrastructure.OS/Processes/ProcessHost.cs:271-307 | The exit callback of an undisposed host raises `Exited` exactly once. |
| OsProcesses.SendCommandStep | src/system/Infrastructure/Infrastructure.OS/Processes/ProcessHost.cs:239-258 | State never changes. On a disposed host: ObjectDisposed. A held process that never launched or is released: InvalidOperation at the log line. Unless Running with a process: InvalidOperation. Otherwise the line is written; a failing write escapes without a flush, and otherwise the flush follows and its outcome is the result. Succeeds exactly when Running, attached, and both the write and the flush succeed. |
| OsProcesses.ExitedStep | src/system/Infrastructure/Infrastructure.OS/Processes/ProcessHost.cs:271-307 | For the running process the host is attached to, on its own or inside `StopAsync`'s wait: sets Exited. Unless the host is disposed, it notifies ProcessId and Status and only then raises `Exited` with the pid and the exit code (null when the read failed). A disposed host raises nothing. Never throws. Preserves the invariant. |
| OsProcesses.OutputStep | src/system/Infrastructure/Infrastructure.OS/Processes/ProcessHost.cs:314-317 | State unchanged. `OutputReceived` is raised with the attached process's pid and the line (null at end of stream), unless the host is disposed; then nothing is raised. |
| OsProcesses.ErrorOutputStep | src/system/Infrastructure/Infrastructure.OS/Processes/ProcessHost.cs:309-312 | The same for `ErrorReceived`. |
| OsProcesses.SafeDisposeProcess | src/system/Infrastructure/Infrastructure.OS/Processes/ProcessHost.cs:82-119 | Never throws and never sets the disposed flag. No process, a released one, a never-launched one (its `HasExited` throws and is caught) or a failing read: nothing happens. An exited process: unsubscribed and released. A live process: exactly what `StopAsync()` does. A Running one is killed and waited for with the default timeout; the exit callback's events come next when it runs inside the wait; then it is released and ends Exited. |
| OsProcesses.DisposeStep | src/system/Infrastructure/Infrastructure.OS/Processes/ProcessHost.cs:64-120 | Always succeeds and leaves the host disposed; a second call changes nothing. The held process is kept. Status is unchanged, except that Running may become Exited. No process, a released or never-launched one, or a failing `HasExited`: only the disposed flag changes. An exited process: unsubscribed and released. A live process: exactly the effects of `StopAsync()`. A Running one is killed and waited for with the default timeout, the exit callback's events come next when it runs inside the wait, and it is released and ends Exited. The invariant is preserved. |
| OsProcesses.Apply | src/system/Infrastructure/Infrastructure.OS/Processes/ProcessHost.cs:123-317 | Every call keeps the host invariant: NotStarted holds no process; Running and Exited hold a launched one; FailedToStart holds the refused one. Callbacks reach the host only from the process it is attached to. |
| OsProcesses.Run | src/system/Infrastructure/Infrastructure.OS/Processes/ProcessHost.cs:24-49 | Every state reachable by any sequence of calls satisfies the invariant. |
| OsProcesses.InitialSatisfiesInv | src/system/Infrastructure/Infrastructure.OS/Processes/ProcessHost.cs:24-49 | A new host is NotStarted, satisfies the invariant and reports ProcessId -1. |
| OsProcesses.NeverBackToNotStarted | src/system/Infrastructure/Infrastructure.OS/Processes/ProcessHost.cs:123-307 | Once a host has left NotStarted, no sequence of calls brings it back. |
| OsProcesses.NotStartedHoldsNothing | src/system/Infrastructure/Infrastructure.OS/Processes/ProcessHost.cs:43-49 | A host still NotStarted after any calls holds no process and reports -1. |
| OsProcesses.StartingIsAbsorbing | src/system/Infrastructure/Infrastructure.OS/Processes/ProcessHost.cs:123-177 | After a path failure or a launch that throws, the host stays in Starting under every later sequence of calls. |
| OsProcesses.FrozenAfterDispose | src/system/Infrastructure/Infrastructure.OS/Processes/ProcessHost.cs:64-317 | After disposal, Start, Stop, SendCommand, Dispose and the stdio callbacks leave the state unchanged. |
| OsProcesses.SilentWhenDisposed | src/system/Infrastructure/Infrastructure.OS/Processes/ProcessHost.cs:64-80 | A disposed host produces no effect at all under any later calls and callbacks, and stays disposed. |
| OsProcesses.SilentAfterDispose | src/system/Infrastructure/Infrastructure.OS/Processes/ProcessHost.cs:73-79 | After `DisposeAsync`, whatever `HasExited` answered, no later call or callback raises a notification or an event. |
| OsProcesses.StartReturnsProcessId | src/system/Infrastructure/Infrastructure.OS/Processes/ProcessHost.cs:165-176 | The id `Start` returns is the one `ProcessId` reports afterwards. |
| OsProcesses.RestartAfterExit | src/system/Tests/UnitTests/Infrastructure.OSTests/ProcessHostTests.cs:202-222 | Start, exit, start again: the second start succeeds and the host runs the new pid. |
| OsProcesses.ProcessHost.constructor | src/system/Infrastructure/Infrastructure.OS/Processes/ProcessHost.cs:56-62 | Keeps the configuration. The host starts in the initial state with an empty trace. |
| OsProcesses.ProcessHost.RaiseEvents | src/system/Infrastructure/Infrastructure.OS/Processes/ProcessHost.cs:263 | Appends the events to the trace, or nothing once the host is disposed; the state is unchanged. |
| OsProcesses.ProcessHost.NotifyPropertyChanged | src/system/Infrastructure/Infrastructure.OS/Processes/ProcessHost.cs:261-264 | Raises exactly one notification, or nothing once the host is disposed, and changes nothing else. |
| OsProcesses.ProcessHost.SetStatusField | src/system/Infrastructure/Infrastructure.OS/Processes/ProcessHost.cs:29-41 | Assigns the status and notifies only when the value changes. |
| OsProcesses.ProcessHost.ProcessDisposed | src/system/Infrastructure/Infrastructure.OS/Processes/ProcessHost.cs:266-269 | Sets only the process-disposed flag. |
| OsProcesses.ProcessHost.Start | src/system/Infrastructure/Infrastructure.OS/Processes/ProcessHost.cs:123-177 | New state, trace and result are those of `StartStep`. |
| OsProcesses.ProcessHost.StopAsync | src/system/Infrastructure/Infrastructure.OS/Processes/ProcessHost.cs:184-237 | The id read of the log line, the countdown loop and the kill/`CancelAfter`/wait/`finally` sequence match `StopStep`. |
| OsProcesses.ProcessHost.KillAndWait | src/system/Infrastructure/Infrastructure.OS/Processes/ProcessHost.cs:217-235 | Kill, the wait with the exit callback run inside it when it is heard, and the `finally`, statement by statement: matches `KillAndWaitStep`. |
| OsProcesses.ProcessHost.StopAsyncDefault | src/system/Infrastructure/Infrastructure.OS/Processes/ProcessHost.cs:179-182 | Same as `StopStep` with `FromSeconds(10000)`. |
| OsProcesses.ProcessHost.SendCommandAsync | src/system/Infrastructure/Infrastructure.OS/Processes/ProcessHost.cs:239-258 | The id read of the log line, the write, and the flush only after a successful write: matches `SendCommandStep`. |
| OsProcesses.ProcessHost.OnProcessExited | src/system/Infrastructure/Infrastructure.OS/Processes/ProcessHost.cs:271-307 | Matches `ExitedStep`. |
| OsProcesses.ProcessHost.OnDataReceived | src/system/Infrastructure/Infrastructure.OS/Processes/ProcessHost.cs:314-317 | Matches `OutputStep`. |
| OsProcesses.ProcessHost.OnErrorReceived | src/system/Infrastructure/Infrastructure.OS/Processes/ProcessHost.cs:309-312 | Matches `ErrorOutputStep`. |
| OsProcesses.ProcessHost.SafeDisposeProcessAsync | src/system/Infrastructure/Infrastructure.OS/Processes/ProcessHost.cs:82-119 | Matches `SafeDisposeProcess`, reading `HasExited` as the host can. |
| OsProcesses.ProcessHost.DisposeAsync | src/system/Infrastructure/Infrastructure.OS/Processes/ProcessHost.cs:64-120 | Matches `DisposeStep`. |
| OsLegacy.ProcessIdOf | src/system/Infrastructure/Infrastructure.OS/ProcessHost.cs:27-33 | The pid exactly while the host holds a launched process it has not released; otherwise InvalidOperation. |
| OsLegacy.HeldId | src/system/Infrastructure/Infrastructure.OS/ProcessHost.cs:178-183 | `m_process?.Id` is null exactly without a process. It is the pid exactly while the host holds a launched process it has not released. Otherwise InvalidOperation. |
| OsLegacy.StartStep | src/system/Infrastructure/Infrastructure.OS/ProcessHost.cs:76-119 | The same guards and outcomes as the newer host, without notifications. A launch that throws leaves Starting, holding the never-launched process. Preserves the invariant. |
| OsLegacy.ReattachStep | src/system/Infrastructure/Infrastructure.OS/ProcessHost.cs:121-167 | On a disposed host: ObjectDisposed. Unless exactly NotStarted: InvalidOperation. Succeeds exactly when the paths exist, the pid is found, the identity resolves, and the executable and arguments (null counting as "") match. A wrong executable is InvalidOperation, unless reading `Modules[0].FileName` for the message throws, in which case that exception escapes; wrong arguments are InvalidOperation. Any failure leaves the state unchanged. Success goes straight to Running with the found pid, never through Starting. From a reachable state it releases no previous process. |
| OsLegacy.CompareIdentity | src/system/Infrastructure/Infrastructure.OS/ProcessHost.cs:145-166 | Once the parameters are read: their failure escapes unchanged; a match of executable and arguments takes the process over, going to Running with the pid and releasing any previous process; any mismatch leaves the state unchanged with no effect. |
| OsLegacy.StopStep | src/system/Infrastructure/Infrastructure.OS/ProcessHost.cs:174-225 | On a disposed host: ObjectDisposed. A held process that never launched or is already released: InvalidOperation at the log line, with no effect. While Starting: five polls and no change. Without a running process: no effect. Otherwise kill, then the wait if `CancelAfter` accepts the timeout, with the exit callback's `Exited` event when the callback runs inside it, then unsubscribe, release and Exited via `finally`. ArgumentOutOfRange for a refused timeout; OperationCanceled if the wait was cancelled first. Preserves the invariant. |
| OsLegacy.KillAndWaitStep | src/system/Infrastructure/Infrastructure.OS/ProcessHost.cs:208-224 | For a running process: kill, the wait if `CancelAfter` accepts the timeout, the exit callback's event if it runs inside the wait, then unsubscribe and release; the host ends Exited and released. Succeeds exactly when the timeout is accepted and the wait is not cancelled. |
| OsLegacy.StopTwiceThrows | src/system/Infrastructure/Infrastructure.OS/ProcessHost.cs:174-225 | After a running process is stopped, the host is Exited and a second stop throws InvalidOperation at its log line, changing nothing. |
| OsLegacy.SendCommandStep | src/system/Infrastructure/Infrastructure.OS/ProcessHost.cs:227-246 | State never changes. ObjectDisposed on a disposed host; InvalidOperation at the log line for a never-launched or released process, or unless Running with a process. Otherwise the line is written; a failing write escapes without a flush, else the flush's outcome is the result. Succeeds exactly when Running, attached, and both succeed. |
| OsLegacy.ExitedStep | src/system/Infrastructure/Infrastructure.OS/ProcessHost.cs:249-272 | On its own or inside `StopAsync`'s wait: Exited is set before anything else. A failed exit-code read escapes and raises no event. Otherwise `Exited` is raised with the code, even after disposal, since this host never clears the event. |
| OsLegacy.DisposeStep | src/system/Infrastructure/Infrastructure.OS/ProcessHost.cs:46-73 | A disposed host: no effect. Without a process it returns before setting the disposed flag. `HasExited` throws InvalidOperation on a released or never-launched process, and that or any failing read escapes, leaving the host undisposed. An exited process: the host ends disposed. A live process is stopped with the default timeout, with the exit callback's event when it runs inside the wait. When the wait is cancelled, the catch block reads the released process's id and throws InvalidOperation, so the host stays undisposed. A Running host ends Exited and released, and is disposed exactly when the wait was not cancelled. The process is kept. |
| OsLegacy.DisposeBeforeStartKeepsHostUsable | src/system/Infrastructure/Infrastructure.OS/ProcessHost.cs:53-58 | Disposing a never-started host leaves it undisposed, and a later `Start` succeeds. |
| OsLegacy.DisposeAfterStopThrows | src/system/Infrastructure/Infrastructure.OS/ProcessHost.cs:46-73 | Once a running process has been stopped, `DisposeAsync` throws InvalidOperation at `HasExited`, whatever the operating system would answer, and changes nothing. |
| OsLegacy.Apply | src/system/Infrastructure/Infrastructure.OS/ProcessHost.cs:76-272 | Every call keeps the invariant; in particular NotStarted holds no process. |
| OsLegacy.Run | src/system/Infrastructure/Infrastructure.OS/ProcessHost.cs:22-33 | Every reachable state satisfies the invariant. |
| OsLegacy.NeverBackToNotStarted | src/system/Infrastructure/Infrastructure.OS/ProcessHost.cs:76-272 | Once a host has left NotStarted, no sequence of calls brings it back. |
| OsLegacy.ReattachNeverReleasesPrevious | src/system/Infrastructure/Infrastructure.OS/ProcessHost.cs:156-160 | On every call sequence from any reachable state, the dispose-previous-process branch of a reattach has no effect. |
| OsLegacy.ReattachToMatchingLinuxProcess | src/system/Infrastructure/Infrastructure.OS/ProcessHost.cs:137-166 | Reattaching to a Linux process whose NUL-separated command line matches the configuration takes a new host to Running with that pid. |
| OsLegacy.ProcessHost.constructor | src/system/Infrastructure/Infrastructure.OS/ProcessHost.cs:38-44 | Keeps the configuration; the host starts in the initial state. |
| OsLegacy.ProcessHost.Start | src/system/Infrastructure/Infrastructure.OS/ProcessHost.cs:76-119 | Matches `StartStep`. |
| OsLegacy.ProcessHost.ReattachAsync | src/system/Infrastructure/Infrastructure.OS/ProcessHost.cs:121-167 | The guards, the path check, the lookup and the parameter read, then `TakeOverIfMatching`: matches `ReattachStep`. |
| OsLegacy.ProcessHost.TakeOverIfMatching | src/system/Infrastructure/Infrastructure.OS/ProcessHost.cs:145-166 | The identity comparison, the release of a previous process and the take-over, statement by statement: matches `CompareIdentity`. |
| OsLegacy.ProcessHost.StopAsync | src/system/Infrastructure/Infrastructure.OS/ProcessHost.cs:174-225 | The id read of the log line, the countdown loop and the kill/`CancelAfter`/wait/`finally` sequence match `StopStep`. |
| OsLegacy.ProcessHost.KillAndWait | src/system/Infrastructure/Infrastructure.OS/ProcessHost.cs:208-224 | Kill, the wait with the exit callback run inside it when heard, and the `finally`: matches `KillAndWaitStep`. |
| OsLegacy.ProcessHost.StopAsyncDefault | src/system/Infrastructure/Infrastructure.OS/ProcessHost.cs:169-172 | Same as `StopStep` with `FromSeconds(10000)`. |
| OsLegacy.ProcessHost.SendCommandAsync | src/system/Infrastructure/Infrastructure.OS/ProcessHost.cs:227-246 | The id read of the log line, the write, and the flush only after a successful write: matches `SendCommandStep`. |
| OsLegacy.ProcessHost.OnProcessExited | src/system/Infrastructure/Infrastructure.OS/ProcessHost.cs:249-272 | Matches `ExitedStep`. |
| OsLegacy.ProcessHost.DisposeAsync | src/system/Infrastructure/Infrastructure.OS/ProcessHost.cs:46-73 | Matches `DisposeStep`. |
| ProcessUtils.GetProcessParameters | src/system/Infrastructure/Infrastructure.OS/Utils/ProcessUtils.cs:11-24 | Windows uses the Windows resolver and Linux the Linux one. The result is PlatformNotSupported exactly on any other platform. |
| ProcessUtils.GetExitCode | src/system/Infrastructure/Infrastructure.OS/Utils/ProcessUtils.cs:26-46 | A successful primary read wins. Off Linux, its error propagates unchanged. On Linux the stat fallback's code is used. When both fail, the result is an aggregate of the fallback error, then the primary error. |
| ProcessUtils.ExitCodeSources | src/system/Infrastructure/Infrastructure.OS/Utils/ProcessUtils.cs:26-46 | A code is obtained exactly when the primary read or the Linux fallback succeeds. A fallback code lies in 0..255. Only Linux produces the two-error aggregate. |
| ProcessUtils.LinuxFallbackRecoversCode | src/system/Infrastructure/Infrastructure.OS/Utils/ProcessUtils.cs:33-38 | When the primary read fails on Linux, a stat line whose 14th field is the decimal text of `v` yields the high byte of `v`. |
| LinuxProcessUtils.ParametersFromCmdline | src/system/Infrastructure/Infrastructure.OS/Utils/Linux/LinuxProcessUtils.cs:14-44 | Every failure is InvalidOperation. Succeeds exactly when the content was read and holds a non-NUL character. The executable is non-empty and NUL-free. |
| LinuxProcessUtils.CmdlineRoundTrip | src/system/Infrastructure/Infrastructure.OS/Utils/Linux/LinuxProcessUtils.cs:33-43 | A NUL-terminated argv of non-empty NUL-free strings parses back to `(argv[0], Trim(Join(" ", argv[1..])))`. |
| LinuxProcessUtils.ParseInt32 | src/system/Infrastructure/Infrastructure.OS/Utils/Linux/LinuxProcessUtils.cs:56 | A parsed value is a 32-bit integer. |
| LinuxProcessUtils.ParseDecimal | src/system/Infrastructure/Infrastructure.OS/Utils/Linux/LinuxProcessUtils.cs:56 | Parsing the decimal text of any 32-bit integer returns that integer. |
| LinuxProcessUtils.HighByte | src/system/Infrastructure/Infrastructure.OS/Utils/Linux/LinuxProcessUtils.cs:58 | The extracted code lies in 0..255 for every input, negative ones included. |
| LinuxProcessUtils.HighByteRecoversExitCode | src/system/Infrastructure/Infrastructure.OS/Utils/Linux/LinuxProcessUtils.cs:58 | A value with `c` in bits 8..15 yields `c`, whatever the other bits. |
| LinuxProcessUtils.ExitCodeFromStat | src/system/Infrastructure/Infrastructure.OS/Utils/Linux/LinuxProcessUtils.cs:46-62 | A missing file, and only that, is FileNotFound. Any other failure is InvalidOperation. A code is obtained exactly when there are more than 13 fields and the 14th parses as a 32-bit integer. It is that integer's high byte, within 0..255. |
| LinuxProcessUtils.StatRoundTrip | src/system/Infrastructure/Infrastructure.OS/Utils/Linux/LinuxProcessUtils.cs:55-58 | A stat line whose 14th field is the decimal text of `v` yields `HighByte(v)`. |
| Win32ProcessUtils.Substring | src/system/Infrastructure/Infrastructure.OS/Utils/Win32/WindowsProcessUtils.cs:38-44 | `Substring` succeeds exactly for an in-range start and length, returning that slice; otherwise ArgumentOutOfRange. |
| Win32ProcessUtils.SplitArguments | src/system/Infrastructure/Infrastructure.OS/Utils/Win32/WindowsProcessUtils.cs:38-48 | Fails (ArgumentOutOfRange) exactly when the executable is absent. Otherwise returns a trimmed suffix of the command line. |
| Win32ProcessUtils.GetProcessParameters | src/system/Infrastructure/Infrastructure.OS/Utils/Win32/WindowsProcessUtils.cs:33-48 | Blank input is InvalidOperation. Otherwise it fails (ArgumentOutOfRange) exactly when the executable is absent. The executable comes back unchanged; the arguments are a trimmed suffix. |
| Win32ProcessUtils.ExecutableAtStart | src/system/Infrastructure/Infrastructure.OS/Utils/Win32/WindowsProcessUtils.cs:38-46 | An executable at index 0 yields the whole trimmed command line as arguments. |
| ProcessesWin32ProcessUtils.SliceTo | src/system/Infrastructure/Infrastructure.OS/Processes/Utils/Win32/WindowsProcessUtils.cs:40 | `s[..end]` succeeds exactly for 0 <= end <= length; otherwise ArgumentOutOfRange. |
| ProcessesWin32ProcessUtils.SliceFrom | src/system/Infrastructure/Infrastructure.OS/Processes/Utils/Win32/WindowsProcessUtils.cs:44 | `s[start..]` succeeds exactly for 0 <= start <= length; otherwise ArgumentOutOfRange. |
| ProcessesWin32ProcessUtils.ArgumentsStart | src/system/Infrastructure/Infrastructure.OS/Processes/Utils/Win32/WindowsProcessUtils.cs:39-44 | Where the arguments start always lies within the command line, even when the closing marker is missing. |
| ProcessesWin32ProcessUtils.SplitArguments | src/system/Infrastructure/Infrastructure.OS/Processes/Utils/Win32/WindowsProcessUtils.cs:39-48 | Fails exactly when the executable is absent. Otherwise the result is the command line from `ArgumentsStart` on, trimmed. |
| ProcessesWin32ProcessUtils.GetProcessParameters | src/system/Infrastructure/Infrastructure.OS/Processes/Utils/Win32/WindowsProcessUtils.cs:34-48 | Blank input is InvalidOperation. An absent executable is ArgumentOutOfRange. Otherwise the executable comes back unchanged, with the trimmed text after the closing marker. |
| ProcessesWin32ProcessUtils.QuotedExecutable | src/system/Infrastructure/Infrastructure.OS/Processes/Utils/Win32/WindowsProcessUtils.cs:39-46 | For `"<exe>"<rest>` with a quote-free executable, the arguments are `Trim(rest)`. |
| ProcessesWin32ProcessUtils.QuotedArgumentsStart | src/system/Infrastructure/Infrastructure.OS/Processes/Utils/Win32/WindowsProcessUtils.cs:39-46 | For `"<exe>"<rest>` with a quote-free executable, the executable is found at index 1 and the arguments start just after the closing quote. |
| ProcessesWin32ProcessUtils.ExecutableAtStart | src/system/Infrastructure/Infrastructure.OS/Processes/Utils/Win32/WindowsProcessUtils.cs:39-46 | An executable at index 0 leaves it inside the arguments: the whole command line, trimmed. |
| ProcessesWin32ProcessUtils.MissingClosingMarker | src/system/Infrastructure/Infrastructure.OS/Processes/Utils/Win32/WindowsProcessUtils.cs:42-46 | A one-character opening marker that never recurs is not an error; the whole trimmed command line is returned. |
| ProcessesWin32ProcessUtils.SplitsAgree | src/system/Infrastructure/Infrastructure.OS/Utils/Win32/WindowsProcessUtils.cs:38-48 | The two copies' splits agree on every input. |
| ProcessesWin32ProcessUtils.CopiesAgree | src/system/Infrastructure/Infrastructure.OS/Utils/Win32/WindowsProcessUtils.cs:33-48 | The range copy and the `Substring` copy return the same result for every input. |
| StringExtensions.ReverseString | src/system/Infrastructure/Infrastructure.Extensions/StringExtensions.cs:12-21 | The result has the input's length and `r[k] == str[len-1-k]` for every k. It equals `Reversed(str)`. |
| StringExtensions.ReversedAt | src/system/Infrastructure/Infrastructure.Extensions/StringExtensions.cs:17-21 | The reversal has the input's length, and position k holds the input's character at length-1-k. |
| StringExtensions.ReversedTwice | src/system/Tests/UnitTests/Infrastructure.ExtensionsTests/StringExtensionsTests.cs:41-46 | Reversing twice gives the original. |
| StringExtensions.PalindromeFixed | src/system/Tests/UnitTests/Infrastructure.ExtensionsTests/StringExtensionsTests.cs:41-46 | A palindrome is its own reverse. |
| StringExtensions.SpacesAndSymbols | src/system/Tests/UnitTests/Infrastructure.ExtensionsTests/StringExtensionsTests.cs:57-64 | `"  abc 123 !@# "` reverses to `" #@! 321 cba  "`. |
| StringExtensions.MirroredIsReversed | src/system/Infrastructure/Infrastructure.Extensions/StringExtensions.cs:17-21 | Any string mirroring the input position by position is its reverse. |
| Lifecycle.DeliverAll | src/system/Services/Services.Lifecycle/ServerProcessHost.cs:96-130 | The host's events never change the disposed or subscribed flags. The buffer only grows and keeps what it had. Nothing is appended once the buffer is completed or the decorator disposed. Nothing at all happens while unsubscribed. Every raised name is Status or ProcessId. |
| Lifecycle.LinesInArrivalOrder | src/system/Services/Services.Lifecycle/ServerProcessHost.cs:106-120 | Until an exit, the buffer gains exactly the non-null lines of stdout and stderr, in arrival order. |
| Lifecycle.NotificationsForwarded | src/system/Services/Services.Lifecycle/ServerProcessHost.cs:122-130 | While subscribed, exactly the host's Status and ProcessId notifications are re-raised, in order. |
| Lifecycle.ExitCompletes | src/system/Services/Services.Lifecycle/ServerProcessHost.cs:96-104 | A host exit completes the buffer of a decorator that is not disposed. |
| Lifecycle.UnheardEffects | src/system/Services/Services.Lifecycle/ServerProcessHost.cs:81-84 | Writing and flushing a command, which raise no host event, leave the decorator unchanged. |
| Lifecycle.ProcessExitCompletesBuffer | src/system/Services/Services.Lifecycle/ServerProcessHost.cs:96-104 | The exit handler of an undisposed host attached to its running process completes a live decorator's buffer. |
| Lifecycle.StopCompletesBuffer | src/system/Services/Services.Lifecycle/ServerProcessHost.cs:96-104 | Stopping the running host completes a live decorator's buffer exactly when the exit callback runs inside the wait. |
| Lifecycle.StartRaisesStatusAndProcessId | src/system/Services/Services.Lifecycle/ServerProcessHost.cs:122-130 | A successful start on a fresh pair re-raises Status, ProcessId, Status. |
| Lifecycle.GetOutputBuffer | src/system/Services/Services.Lifecycle/ServerProcessHost.cs:86-94 | ObjectDisposed exactly when disposed. Otherwise the retained lines from the first, with the completion flag. |
| Lifecycle.DisposeDecorator | src/system/Services/Services.Lifecycle/ServerProcessHost.cs:39-63 | Afterwards the decorator is disposed, with lines, completion and raised names kept. A first call unsubscribes and disposes the buffer. |
| Lifecycle.DisposeIdempotent | src/system/Services/Services.Lifecycle/ServerProcessHost.cs:39-63 | Disposing twice is the same as disposing once. After disposal, reading the buffer is ObjectDisposed. |
| Lifecycle.ServerProcessHost.constructor | src/system/Services/Services.Lifecycle/ServerProcessHost.cs:27-37 | Wraps the given host, subscribed, with an empty buffer. |
| Lifecycle.ServerProcessHost.ProcessHostOutputReceived | src/system/Services/Services.Lifecycle/ServerProcessHost.cs:106-120 | The output handler. |
| Lifecycle.ServerProcessHost.ProcessHostExited | src/system/Services/Services.Lifecycle/ServerProcessHost.cs:96-104 | The exit handler. |
| Lifecycle.ServerProcessHost.ProcessHostPropertyChanged | src/system/Services/Services.Lifecycle/ServerProcessHost.cs:122-130 | The notification filter. |
| Lifecycle.ServerProcessHost.Receive | src/system/Services/Services.Lifecycle/ServerProcessHost.cs:31-34 | The subscribed handlers run once per host event, in order, as `DeliverAll` says. |
| Lifecycle.ServerProcessHost.Start | src/system/Services/Services.Lifecycle/ServerProcessHost.cs:66-69 | The host does exactly its `Start`, and its events reach the decorator. |
| Lifecycle.ServerProcessHost.StopAsync | src/system/Services/Services.Lifecycle/ServerProcessHost.cs:76-79 | Forwarded unchanged, with the same timeout; the host's events, including an exit callback run inside the wait, reach the decorator. |
| Lifecycle.ServerProcessHost.StopAsyncDefault | src/system/Services/Services.Lifecycle/ServerProcessHost.cs:71-74 | Forwarded to the host's default overload; the host's events reach the decorator. |
| Lifecycle.ServerProcessHost.SendCommandAsync | src/system/Services/Services.Lifecycle/ServerProcessHost.cs:81-84 | Forwarded unchanged with the write and flush outcomes; the decorator's state does not change. |
| Lifecycle.ServerProcessHost.HostProcessExited | src/system/Services/Services.Lifecycle/ServerProcessHost.cs:96-104 | The host's exit handler runs, and its events reach the decorator. |
| Lifecycle.ServerProcessHost.HostDataReceived | src/system/Services/Services.Lifecycle/ServerProcessHost.cs:31 | The host's `OnDataReceived` runs, and what it raises reaches the buffer handler. |
| Lifecycle.ServerProcessHost.HostErrorReceived | src/system/Services/Services.Lifecycle/ServerProcessHost.cs:32 | The host's `OnErrorReceived` runs, and what it raises reaches the same buffer handler. |
| Lifecycle.ServerProcessHost.GetOutputBufferAsync | src/system/Services/Services.Lifecycle/ServerProcessHost.cs:86-94 | Returns `GetOutputBuffer` of the current state. |
| Lifecycle.ServerProcessHost.DisposeAsync | src/system/Services/Services.Lifecycle/ServerProcessHost.cs:39-63 | Idempotent. Unsubscribes before disposing the host, so the host's disposal events are not received, and then disposes the buffer. |
| ServerProcessHostFactory.ServerArguments | src/system/Services/Services.Lifecycle/ServerProcessHostFactory.cs:31 | The arguments are `-jar "<jar>"` followed by the server arguments after one space, with trailing white space trimmed. They always begin with `-jar "<jar>"`. |
| ServerProcessHostFactory.JarClause | src/system/Services/Services.Lifecycle/ServerProcessHostFactory.cs:31 | `-jar "<jar>"` is seven characters longer than the jar path, starts with `-` and ends with a quote. |
| ServerProcessHostFactory.BlankServerArgs | src/system/Services/Services.Lifecycle/ServerProcessHostFactory.cs:31 | Null or white-space server arguments give exactly `-jar "<jar>"`. |
| ServerProcessHostFactory.SolidServerArgs | src/system/Services/Services.Lifecycle/ServerProcessHostFactory.cs:31 | Server arguments not ending in white space come back unchanged after one space. |
| ServerProcessHostFactory.ProcessHostConfig | src/system/Services/Services.Lifecycle/ServerProcessHostFactory.cs:25-35 | The executable is the JDK path unchanged, the working directory is the jar's directory, and the arguments are `ServerArguments`. An empty JDK path or directory is Argument; a null directory is ArgumentNull. |
| ServerProcessHostFactory.CreateProcessHost | src/system/Services/Services.Lifecycle/ServerProcessHostFactory.cs:25-35 | Builds a fresh, unstarted host with that configuration. |
| ServerProcessHostFactory.Create | src/system/Services/Services.Lifecycle/ServerProcessHostFactory.cs:18-41 | Wraps exactly the newly built host in one fresh, subscribed decorator. |
| BackupRules.Equals | src/system/Contracts/Contracts.Backup/BackupRule.cs:18-28 | Null is never equal. Otherwise equal exactly when the rules are the same value: the eight fields, plus the scope in order. |
| BackupRules.SequenceEqual | src/system/Contracts/Contracts.Backup/BackupRule.cs:28 | `SequenceEqual` holds exactly for identical sequences. |
| BackupRules.EqualsIsReflexiveAndSymmetric | src/system/Contracts/Contracts.Backup/BackupRule.cs:18-28 | Every rule equals itself, and equality is symmetric. |
| BackupRules.ScopeOrderMatters | src/system/Contracts/Contracts.Backup/BackupRule.cs:28 | The same two scope entries in the other order give an unequal rule. |
| BackupRules.GetHashCodeInput | src/system/Contracts/Contracts.Backup/BackupRule.cs:30-48 | The loop feeds the eight fields, then each scope entry in order. |
| BackupRules.HashConsistentWithEquals | src/system/Contracts/Contracts.Backup/BackupRule.cs:18-48 | Two rules feed the same hash input exactly when they are equal. |
| BackupTypes.SortOrdinal | src/system/Contracts/Contracts.Backup/ManualBackup.cs:37 | Ordinal `OrderBy` returns the same strings, strictly ascending. |
| BackupTypes.SortOrdinalOfSameSet | src/system/Contracts/Contracts.Backup/ManualBackup.cs:35-41 | Two scopes holding the same strings sort to the same sequence. |
| ManualBackups.SetEqualsAsWritten | src/system/Contracts/Contracts.Backup/ManualBackup.cs:22-24 | As written: true only for two different, non-null sets with the same entries. |
| ManualBackups.EqualsAsWritten | src/system/Contracts/Contracts.Backup/ManualBackup.cs:14-20 | As written: equality implies a non-null other with the same four scalar fields. |
| ManualBackups.NeverEqualsItself | src/system/Contracts/Contracts.Backup/ManualBackup.cs:14-24 | As written: no manual backup equals itself. |
| ManualBackups.SetEquals | src/system/Contracts/Contracts.Backup/ManualBackup.cs:22-24 | Corrected: two nulls are equal, one null is not, and otherwise the entries decide. |
| ManualBackups.ScopeSet.constructor | src/system/Contracts/Contracts.Backup/ManualBackup.cs:11 | A scope set is a new object holding distinct entries. |
| ManualBackups.Equals | src/system/Contracts/Contracts.Backup/ManualBackup.cs:14-20 | Corrected: null is never equal. Otherwise equal exactly when the scalar fields match and the scopes are both null or hold the same entries. |
| ManualBackups.EqualsIsEquivalence | src/system/Contracts/Contracts.Backup/ManualBackup.cs:14-24 | The corrected equality is reflexive, symmetric and transitive. |
| ManualBackups.AsWrittenAgreesOnDistinctSets | src/system/Contracts/Contracts.Backup/ManualBackup.cs:14-24 | What the code as written calls equal is equal. On distinct non-null scope objects the two equalities agree. |
| ManualBackups.OrderIgnored | src/system/Contracts/Contracts.Backup/ManualBackup.cs:22-24 | Two scopes with the same entries, listed differently, give equal backups. |
| ManualBackups.GetHashCodeInput | src/system/Contracts/Contracts.Backup/ManualBackup.cs:27-44 | The loop feeds the four fields, then the scope entries in ordinal order. |
| ManualBackups.HashConsistentWithEquals | src/system/Contracts/Contracts.Backup/ManualBackup.cs:27-44 | Equal backups feed the same hash input. |
| GlobalSettingsDefaults.Instance | src/system/Services/Services.Configuration/Defaults/GlobalSettingsDefaults.cs:8-31 | Carries the constants in constructor order, with no turn-off messages. Both counts fit a `uint`. The log tail exceeds 512 KB, the crash-loop count exceeds 1, and the crash-loop window exceeds 30 s. The three roots are rooted, have no `..`, and contain none of the refused characters. |
| GlobalSettingsDefaults.PlainPathIsSafe | src/system/Tests/ConfigurationTests/GlobalSettingsDefaultsTests.cs:65-73 | A rooted path of lower-case letters and slashes passes every path check. |

## Left out

- **Operating-system calls.**
  - `Process.Start`, `Kill`, `WaitForExitAsync`, `HasExited`, `ExitCode`, `Modules[0].FileName`, `WriteLineAsync` and `FlushAsync` are not performed; their outcomes are inputs.
  - The WMI query, the `/proc` file reads and the UTF-8 decoding are also not performed; their outcomes are inputs.
  - Logging is omitted.
- **Races.** Races between the exit callback, `StopAsync`, the stdio handlers and disposal are not modelled. Neither are cancellation tokens, `Task.Delay` timing or thread safety. Only sequential call orders are modelled.
- **Exit-code reads.** The newer host reads the exit code through `Infrastructure.OS.Processes.Utils.ProcessUtils`, which is not part of this model. Its outcome is the `exitCode` parameter of `OnProcessExited`.
- **Exit-handler branches that cannot run.** The exit handlers' branch for a missing process cannot be taken: the handler is subscribed only to a started process. The exit callback is modelled only while Running, and the stdio callbacks only while the host is attached to its process.
- **Callbacks from an earlier process.** After a natural exit and a restart, the earlier `Process` object stays subscribed. Its late stdio lines would be reported with the new process's id. This is a race, like those above, and is not modelled.
- **Other `Process.Start` failures.** Every exception `Process.Start()` can throw is one `Threw(error)` outcome. The model does not tell them apart.
- **`CancelAfter` on older runtimes.** The upper bound of `CancelAfter` is taken from .NET 6 and later. Earlier runtimes stop at `int.MaxValue` milliseconds. The default timeout is accepted by both.
- **An exception in the earlier host's exit callback.** When the exit-code read fails inside that callback, the exception is thrown on the thread that raises `Process.Exited`, where it would end the .NET process. The model records only that no event is raised, and a stop's result still follows the wait outcome.
- **A late exit callback.** When the wait ends because the process had already exited, or because it was cancelled, the `finally` unsubscribes the callback; an exit event racing that unsubscription is not modelled, so in those cases no callback runs during the stop.
- **Legacy exit-handler wait.** The `WaitForExit` inside the legacy exit handler has no observable effect in the model.
- **Exceptions from `Kill`** are not modelled; `StopAsync` treats the kill as succeeding.
- **Ordinal string operations.**
  - `string.IndexOf(string)` is culture-sensitive in .NET; the model treats it as ordinal.
  - Ordinal comparison compares UTF-16 code units. The model compares characters, which agrees for the Basic Multilingual Plane.
- **Trim.** `Trim` uses the `Char.IsWhiteSpace` set as of Unicode in .NET; the table is written out in `Text.IsWhiteSpace`.
- **Hash mixing.** `System.HashCode` mixing is randomised per process. Only the sequence of values fed to it is modelled.
- **Cron strings.** The default cron strings are kept as text; their Quartz validation is not modelled.
- **Definitions not in the repository text.** `ServerProcessStartInfo`, `BackupRuleId`, `BackupMode` and `Compression` are not part of this model. They are value types compared by value, and the start info holds the JDK path, the jar path and the optional server arguments.
- LinuxProcessUtils.HighByte: computes `(v / 256) % 256` on integers instead of `(v >> 8) & 0xFF` on a 32-bit value. For a 32-bit two's-complement value both select bits 8..15, but that equivalence is argued, not proved. What is proved is the 0..255 range and the recovery of the code from a wait status.
- LinuxProcessUtils.ParseInt32: models `int.TryParse` with the default integer style (surrounding white space, a leading sign, decimal digits, 32-bit range). It does not model culture-specific signs.
- Win32ProcessUtils.GetProcessParameters: states only that the arguments are a trimmed suffix of the command line. The exact start is given by `ProcessesWin32ProcessUtils.ArgumentsStart`, and `ProcessesWin32ProcessUtils.CopiesAgree` proves the two copies equal.
- StringExtensions.ReverseString: a null input, returned as-is by the source, is not representable; the empty string is covered by the general contract. The model reverses characters (Unicode scalar values), while the source's loop copies UTF-16 code units in reverse order, which splits surrogate pairs. The two agree only for text within the Basic Multilingual Plane.
- Lifecycle.GetOutputBuffer: the asynchronous enumeration is modelled as a snapshot: the lines retained so far and whether the buffer is completed. Lines arriving later during the enumeration are not modelled.
- ServerProcessHostFactory.ProcessHostConfig: `FileInfo.FullName` normalisation of the JDK path, and `Path.GetDirectoryName`, are not modelled. The directory name is an input.
- GlobalSettingsDefaults.Instance: `Path.IsPathRooted` is modelled for paths starting with a separator. Invalid path characters are taken to be the control characters.

## Findings

| source | as written | input that shows it | evidently intended | confidence | as-written member | corrected member |
|---|---|---|---|---|---|---|
| src/system/Contracts/Contracts.Backup/ManualBackup.cs:22-24 | `ReferenceEquals(a, b) \|\| a is null \|\| b is null ? false : a.SetEquals(b)`. Because `\|\|` binds tighter than `?:`, the same set object, or a null on either side, yields false. | Any backup compared with itself: `b.Equals(b)` is false whether `b.Scope` is null or not. | Same object or two nulls: true. One null: false. Otherwise set equality. This makes `Equals` reflexive. | high (not executed) | ManualBackups.NeverEqualsItself | ManualBackups.EqualsIsEquivalence |
