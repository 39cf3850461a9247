/** Types and constants shared by both revisions of the process host: the status enumeration,
    the resolved identity of a process, the launch configuration and the path check. */
module ProcessTypes {
  import opened Wrappers
  import opened TimeSpans

  /** `ProcessStatus` (identical in the `Infrastructure.OS` and `Infrastructure.OS.Processes`
      namespaces). */
  datatype ProcessStatus = NotStarted | Starting | Running | Exited | FailedToStart

  /** `ProcessParameters`: the executable and the argument string the OS reports for a pid. */
  datatype ProcessParameters = ProcessParameters(executable: string, arguments: string)

  /** The `System.Diagnostics.Process` object a host holds. `Launched(pid)` is associated with an
      OS process; `NotLaunched` is one whose `Start()` returned false or threw, so reading its
      `Id` or `HasExited` throws InvalidOperationException. */
  datatype ProcessObject = Launched(pid: int) | NotLaunched

  /** What `Process.Start()` does when a host calls it: it starts an OS process with the given id,
      returns false, or throws (a `Win32Exception` when the executable cannot be run). With
      `UseShellExecute = false`, as both hosts set it, .NET never returns false; the hosts handle
      that outcome all the same. */
  datatype Launch = Started(pid: int) | ReturnedFalse | Threw(error: Error)

  /** The object a host holds after calling `Start()` on it. */
  function HeldAfter(launch: Launch): (p: ProcessObject)
    ensures p.Launched? <==> launch.Started?
    ensures launch.Started? ==> p.pid == launch.pid
  {
    if launch.Started? then Launched(launch.pid) else NotLaunched
  }

  /** What happens while `StopAsync` awaits `WaitForExitAsync` after the kill. `Start` adds the
      host's `OnProcessExited` to the process's `Exited` event before the wait adds its own
      handler, and an event runs its handlers in the order they were added: when the `Exited`
      event ends the wait, the host's handler has already run.
      - `ExitHeard(exitCode)`: `Exited` is raised; the host's handler runs, reading the exit code
        with this outcome, and then the wait completes;
      - `ExitUnheard`: the wait finds the process already exited and returns before `Exited` is
        raised, and the `finally` removes the host's handler first;
      - `TimedOut`: the timeout, or the caller's token, cancels the wait before the exit. */
  datatype WaitOutcome = ExitHeard(exitCode: Result<int>) | ExitUnheard | TimedOut

  /** The host's exit callback runs inside `StopAsync`: `CancelAfter` accepted the timeout, so
      the wait began, and the `Exited` event completed it. */
  predicate CallbackInWait(waitForExit: TimeSpan, wait: WaitOutcome) {
    CancelAfterAccepts(waitForExit) && wait.ExitHeard?
  }

  /** What a host is constructed with: the executable's full name, the working directory's full
      name and the optional argument string. */
  datatype HostConfig = HostConfig(executable: string, workingDirectory: string, arguments: Option<string>)

  const WaitForExitDelayInMs: int := 1000
  const WaitForExitRetries: int := 5
  const WaitForProcessExitInMs: int := 10000

  /** The timeout the parameterless `StopAsync` overload passes on:
      `TimeSpan.FromSeconds(c_waitForProcessExitInMs)`, as the code writes it. */
  const DefaultStopTimeout: TimeSpan := FromSeconds(WaitForProcessExitInMs)

  /** The default timeout is ten thousand seconds, a thousand times the ten seconds that the
      constant's name (milliseconds) suggests; `CancelAfter` accepts it. */
  lemma DefaultStopTimeoutIsTenThousandSeconds()
    ensures DefaultStopTimeout == FromMilliseconds(10_000_000)
    ensures DefaultStopTimeout.ticks == 1000 * FromMilliseconds(WaitForProcessExitInMs).ticks
    ensures CancelAfterAccepts(DefaultStopTimeout)
  {
  }

  /** `(long)t.TotalMilliseconds`: the cast truncates toward zero. */
  function WholeMilliseconds(t: TimeSpan): (ms: int)
    ensures t.ticks >= 0 ==> 0 <= ms * TicksPerMillisecond <= t.ticks < (ms + 1) * TicksPerMillisecond
    ensures t.ticks < 0 ==> (ms - 1) * TicksPerMillisecond < t.ticks <= ms * TicksPerMillisecond <= 0
  {
    if t.ticks >= 0 then t.ticks / TicksPerMillisecond else -((-t.ticks) / TicksPerMillisecond)
  }

  /** The largest delay a .NET timer supports, in milliseconds (`Timer.MaxSupportedTimeout`). */
  const MaxSupportedTimeoutMs: int := 0xFFFF_FFFE

  /** `CancellationTokenSource.CancelAfter(TimeSpan)` accepts -1 (wait forever) up to the largest
      supported delay, counted in whole milliseconds, and throws ArgumentOutOfRangeException for
      anything else. */
  predicate CancelAfterAccepts(t: TimeSpan) {
    -1 <= WholeMilliseconds(t) <= MaxSupportedTimeoutMs
  }

  /** In ticks: a timeout is refused exactly when it is two milliseconds or more below zero, or
      one millisecond or more above the largest supported delay. */
  lemma CancelAfterRange(t: TimeSpan)
    ensures CancelAfterAccepts(t) <==>
      -2 * TicksPerMillisecond < t.ticks < (MaxSupportedTimeoutMs + 1) * TicksPerMillisecond
  {
    var ms := WholeMilliseconds(t);
    if t.ticks >= 0 {
      assert ms <= MaxSupportedTimeoutMs <==> t.ticks < (MaxSupportedTimeoutMs + 1) * TicksPerMillisecond;
    } else {
      assert -1 <= ms <==> -2 * TicksPerMillisecond < t.ticks;
    }
  }

  /** `ValidatePaths`: the executable is checked first, then the working directory.
      `FileInfo.Exists` and `DirectoryInfo.Exists` are the two inputs. */
  function ValidatePaths(executableExists: bool, directoryExists: bool): (r: Result<()>)
    ensures r.Ok? <==> executableExists && directoryExists
    ensures !executableExists ==> r == Err(FileNotFound)
    ensures executableExists && !directoryExists ==> r == Err(DirectoryNotFound)
  {
    if !executableExists then Err(FileNotFound)
    else if !directoryExists then Err(DirectoryNotFound)
    else Ok(())
  }

  /** `n` copies of `x`. */
  function Repeat<T>(x: T, n: nat): (r: seq<T>)
    ensures |r| == n && forall i :: 0 <= i < n ==> r[i] == x
  {
    if n == 0 then [] else [x] + Repeat(x, n - 1)
  }

  /** One more copy goes at the end. */
  lemma RepeatSnoc<T>(x: T, n: nat)
    ensures Repeat(x, n + 1) == Repeat(x, n) + [x]
  {
    assert forall i :: 0 <= i < n + 1 ==> Repeat(x, n + 1)[i] == (Repeat(x, n) + [x])[i];
  }
}
