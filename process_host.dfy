/** `Infrastructure.OS.Processes.ProcessHost`: the status state machine of the host that
    launches, stops and talks to one child process, raising change notifications.

    The pure part describes each public operation as a `Step` from one `HostState` to the next,
    together with the observable effects in the order they happen (notifications raised, events
    raised, calls made on the `Process` object) and the outcome (a value or the exception thrown).
    The class `ProcessHost` holds the same fields as the source and performs the operations
    statement by statement; each method is proved to do what its step function says.

    What the operating system decides is an input: whether the executable and the working
    directory exist, whether `Process.Start()` launches a process (and with which id), whether
    `HasExited` can be read and what it says, how the wait for exit ends, whether the writes to
    standard input succeed, and the outcome of reading the exit code. */
module OsProcesses {
  import opened Wrappers
  import opened TimeSpans
  import opened ProcessTypes

  const StatusProperty: string := "Status"
  const ProcessIdProperty: string := "ProcessId"

  /** `ProcessExitedEventArgs(ProcessId, ExitCode)`. */
  datatype ExitedArgs = ExitedArgs(processId: Option<int>, exitCode: Option<int>)

  /** What an operation does that can be observed from outside the host. */
  datatype Effect =
    | Notified(propertyName: string)                           // PropertyChanged raised
    | RaisedExited(args: ExitedArgs)                           // Exited raised
    | RaisedOutput(processId: Option<int>, data: Option<string>) // OutputReceived raised
    | RaisedError(processId: Option<int>, data: Option<string>)  // ErrorReceived raised
    | Delayed(ms: int)                                         // Task.Delay awaited
    | Killed(entireProcessTree: bool)                          // Process.Kill
    | WaitedForExit(timeout: TimeSpan)                         // WaitForExitAsync with a timeout
    | Unsubscribed                                             // the host's handlers removed from the process
    | ProcessReleased                                          // Process.Dispose
    | WroteLine(line: string)                                  // StandardInput.WriteLineAsync
    | Flushed                                                  // StandardInput.FlushAsync

  /** The host's mutable fields: `m_statusField`, `m_process`, `m_processDisposed`, `m_disposed`. */
  datatype HostState = HostState(status: ProcessStatus, process: Option<ProcessObject>, processDisposed: bool, disposed: bool)

  /** A freshly constructed host. */
  const Initial: HostState := HostState(NotStarted, None, false, false)

  /** The new state, the effects in order, and what the call returns or throws. */
  datatype Step<T> = Step(next: HostState, effects: seq<Effect>, result: Result<T>)

  /** What holds of every state the host can reach. */
  predicate Inv(s: HostState) {
    && (s.status == NotStarted ==> s.process.None?)
    && (s.status == Running ==> s.process.Some? && s.process.value.Launched?)
    && (s.status == Running && !s.disposed ==> !s.processDisposed)
    && (s.status == FailedToStart ==> s.process == Some(NotLaunched))
    && (s.status == Exited ==> s.process.Some? && s.process.value.Launched?)
  }

  /** The host holds a launched process that it has not released: the process can still raise
      the host's handlers, and its `Id` and `HasExited` can be read. */
  predicate Attached(s: HostState) {
    s.process.Some? && s.process.value.Launched? && !s.processDisposed
  }

  /** An effect the host's subscribers hear: a change notification or one of its three events. */
  predicate Heard(e: Effect) {
    e.Notified? || e.RaisedExited? || e.RaisedOutput? || e.RaisedError?
  }

  /** `PropertyChanged?.Invoke` and `Exited?.Invoke` and the like: `DisposeAsync` sets the four
      event fields to null before it sets `m_disposed`, so a disposed host raises nothing. */
  function Raise(s: HostState, es: seq<Effect>): seq<Effect> {
    if s.disposed then [] else es
  }

  /** The `Status` setter: the notification is raised only when the value changes. */
  function SetStatus(s: HostState, value: ProcessStatus): Step<()> {
    if value != s.status then Step(s.(status := value), Raise(s, [Notified(StatusProperty)]), Ok(()))
    else Step(s, [], Ok(()))
  }

  /** `m_process?.Id`: null without a process. .NET refuses the id of a process that never
      launched, and of one already released (`Process.Close` forgets it), with an
      InvalidOperationException. */
  function HeldId(s: HostState): (r: Result<Option<int>>)
    ensures r == Ok(None) <==> s.process.None?
    ensures (r.Ok? && r.value.Some?) <==> Attached(s)
    ensures Attached(s) ==> r == Ok(Some(s.process.value.pid))
    ensures r.Err? ==> r.error == InvalidOperation
  {
    match s.process
    case None => Ok(None)
    case Some(NotLaunched) => Err(InvalidOperation)
    case Some(Launched(pid)) => if s.processDisposed then Err(InvalidOperation) else Ok(Some(pid))
  }

  /** The `ProcessId` getter, `m_process?.Id ?? -1`. */
  function ProcessIdOf(s: HostState): (r: Result<int>)
    ensures s.process.None? ==> r == Ok(-1)
    ensures Attached(s) ==> r == Ok(s.process.value.pid)
    ensures s.process.Some? && !Attached(s) ==> r == Err(InvalidOperation)
  {
    match HeldId(s)
    case Ok(None) => Ok(-1)
    case Ok(Some(pid)) => Ok(pid)
    case Err(e) => Err(e)
  }

  /** `HasExited` as the host reads it, with `hasExited` what the operating system answers for a
      live process: on a process that never launched, or one already released, the read throws. */
  function HasExitedRead(s: HostState, hasExited: Result<bool>): Result<bool> {
    if Attached(s) then hasExited else Err(InvalidOperation)
  }

  /** `Start` may go past its two guards. */
  predicate MayStart(s: HostState) {
    !s.disposed && s.status != Starting && s.status != Running
  }

  /** `Start()`. The process object is stored before `Process.Start()` is called, so a launch
      that throws leaves the host in Starting, holding a process that never launched. */
  function StartStep(s: HostState, executableExists: bool, directoryExists: bool, launch: Launch): (r: Step<int>)
    ensures s.disposed ==> r == Step(s, [], Err(ObjectDisposed))
    ensures !s.disposed && (s.status == Starting || s.status == Running) ==> r == Step(s, [], Err(InvalidOperation))
    ensures MayStart(s) && !(executableExists && directoryExists) ==>
      && r.next == s.(status := Starting)
      && r.effects == [Notified(StatusProperty)]
      && r.result == Err(if executableExists then DirectoryNotFound else FileNotFound)
    ensures MayStart(s) && executableExists && directoryExists && launch.Threw? ==>
      && r.next == s.(status := Starting, process := Some(NotLaunched), processDisposed := false)
      && r.effects == [Notified(StatusProperty)]
      && r.result == Err(launch.error)
    ensures MayStart(s) && executableExists && directoryExists && launch.ReturnedFalse? ==>
      && r.next == s.(status := FailedToStart, process := Some(NotLaunched), processDisposed := false)
      && r.effects == [Notified(StatusProperty), Notified(StatusProperty)]
      && r.result == Err(InvalidOperation)
    ensures MayStart(s) && executableExists && directoryExists && launch.Started? ==>
      && r.next == s.(status := Running, process := Some(Launched(launch.pid)), processDisposed := false)
      && r.effects == [Notified(StatusProperty), Notified(ProcessIdProperty), Notified(StatusProperty)]
      && r.result == Ok(launch.pid)
    ensures Inv(s) ==> Inv(r.next)
  {
    if s.disposed then Step(s, [], Err(ObjectDisposed))
    else if s.status == Starting || s.status == Running then Step(s, [], Err(InvalidOperation))
    else
      var starting := SetStatus(s, Starting);
      match ValidatePaths(executableExists, directoryExists)
      case Err(e) => Step(starting.next, starting.effects, Err(e))
      case Ok(_) =>
        var held := starting.next.(processDisposed := false, process := Some(HeldAfter(launch)));
        match launch
        case Threw(e) => Step(held, starting.effects, Err(e))
        case ReturnedFalse =>
          var failed := SetStatus(held, FailedToStart);
          Step(failed.next, starting.effects + failed.effects, Err(InvalidOperation))
        case Started(pid) =>
          var running := SetStatus(held, Running);
          Step(running.next, starting.effects + Raise(held, [Notified(ProcessIdProperty)]) + running.effects, Ok(pid))
  }

  /** The Starting pre-wait of `StopAsync`: five polls of one second each. */
  const StartingPolls: seq<Effect> := Repeat(Delayed(WaitForExitDelayInMs), WaitForExitRetries)

  /** `StopAsync(waitForExit)`. The opening log line reads `m_process?.Id`, which throws for a
      process that never launched or is already released. Kill and wait sit in a `try` whose
      `finally` unsubscribes, releases the process and sets Exited. The wait happens only if
      `CancelAfter` accepts the timeout, and the host's exit callback runs inside it when the
      `Exited` event completes it; a refused timeout, or a wait cancelled first, throws after
      the `finally`. */
  function StopStep(s: HostState, waitForExit: TimeSpan, wait: WaitOutcome): (r: Step<()>)
    ensures s.disposed ==> r == Step(s, [], Err(ObjectDisposed))
    ensures !s.disposed && HeldId(s).Err? ==> r == Step(s, [], Err(InvalidOperation))
    ensures !s.disposed && HeldId(s).Ok? && s.status == Starting ==> r == Step(s, StartingPolls, Ok(()))
    ensures !s.disposed && HeldId(s).Ok? && s.status != Starting && !(s.status == Running && s.process.Some?) ==>
      r == Step(s, [], Ok(()))
    ensures !s.disposed && HeldId(s).Ok? && s.status == Running && s.process.Some? ==>
      && r.next == s.(status := Exited, processDisposed := true)
      && r.effects == [Killed(true)] + (if CancelAfterAccepts(waitForExit) then [WaitedForExit(waitForExit)] else [])
           + (if CallbackInWait(waitForExit, wait) then ExitedStep(s, wait.exitCode).effects else [])
           + [Unsubscribed, ProcessReleased]
           + (if CallbackInWait(waitForExit, wait) then [] else [Notified(StatusProperty)])
      && (r.result.Ok? <==> CancelAfterAccepts(waitForExit) && !wait.TimedOut?)
      && (r.result.Err? ==> r.result.error == if CancelAfterAccepts(waitForExit) then OperationCanceled else ArgumentOutOfRange)
    ensures Inv(s) ==> Inv(r.next)
  {
    if s.disposed then Step(s, [], Err(ObjectDisposed))
    else if HeldId(s).Err? then Step(s, [], Err(InvalidOperation))
    else
      var polls := if s.status == Starting then StartingPolls else [];
      if s.status != Running || s.process.None? then Step(s, polls, Ok(()))
      else KillAndWaitStep(s, waitForExit, wait)
  }

  /** The `try`/`finally` of `StopAsync` for a running process. */
  function KillAndWaitStep(s: HostState, waitForExit: TimeSpan, wait: WaitOutcome): (r: Step<()>)
    requires s.status == Running && Attached(s)
    ensures r.next == s.(status := Exited, processDisposed := true)
    ensures r.effects == [Killed(true)] + (if CancelAfterAccepts(waitForExit) then [WaitedForExit(waitForExit)] else [])
      + (if CallbackInWait(waitForExit, wait) then ExitedStep(s, wait.exitCode).effects else [])
      + [Unsubscribed, ProcessReleased]
      + (if CallbackInWait(waitForExit, wait) || s.disposed then [] else [Notified(StatusProperty)])
    ensures r.result.Ok? <==> CancelAfterAccepts(waitForExit) && !wait.TimedOut?
    ensures r.result.Err? ==> r.result.error == if CancelAfterAccepts(waitForExit) then OperationCanceled else ArgumentOutOfRange
  {
    var accepted := CancelAfterAccepts(waitForExit);
    var waited := if accepted then [WaitedForExit(waitForExit)] else [];
    var heard := if CallbackInWait(waitForExit, wait) then ExitedStep(s, wait.exitCode) else Step(s, [], Ok(()));
    var exited := SetStatus(heard.next.(processDisposed := true), Exited);
    Step(exited.next, [Killed(true)] + waited + heard.effects + [Unsubscribed, ProcessReleased] + exited.effects,
         if !accepted then Err(ArgumentOutOfRange) else if wait.TimedOut? then Err(OperationCanceled) else Ok(()))
  }

  /** A stopped process cannot be stopped again: the second call throws at its log line. */
  lemma StopTwiceThrows(s: HostState, w1: TimeSpan, c1: WaitOutcome, w2: TimeSpan, c2: WaitOutcome)
    requires Inv(s) && !s.disposed && s.status == Running
    ensures var stopped := StopStep(s, w1, c1).next;
      stopped.status == Exited && StopStep(stopped, w2, c2) == Step(stopped, [], Err(InvalidOperation))
  {
    var stopped := StopStep(s, w1, c1).next;
    assert stopped == s.(status := Exited, processDisposed := true);
    assert HeldId(stopped).Err?;
  }

  /** How many times `es` raises the `Exited` event. */
  function ExitedRaised(es: seq<Effect>): nat
    decreases |es|
  {
    if |es| == 0 then 0 else ExitedRaised(es[..|es| - 1]) + (if es[|es| - 1].RaisedExited? then 1 else 0)
  }

  lemma {:induction false} ExitedRaisedAppend(a: seq<Effect>, b: seq<Effect>)
    ensures ExitedRaised(a + b) == ExitedRaised(a) + ExitedRaised(b)
    decreases |b|
  {
    if |b| == 0 {
      assert a + b == a;
    } else {
      assert (a + b)[..|a + b| - 1] == a + b[..|b| - 1];
      assert (a + b)[|a + b| - 1] == b[|b| - 1];
      ExitedRaisedAppend(a, b[..|b| - 1]);
    }
  }

  /** Stopping a running host raises `Exited` exactly once, with the process's id and the exit
      code read in the callback, when the exit callback runs inside the wait, and never
      otherwise. */
  lemma StopRaisesExitedOnce(s: HostState, waitForExit: TimeSpan, wait: WaitOutcome)
    requires Inv(s) && !s.disposed && s.status == Running
    ensures ExitedRaised(StopStep(s, waitForExit, wait).effects) == if CallbackInWait(waitForExit, wait) then 1 else 0
    ensures CallbackInWait(waitForExit, wait) ==>
      RaisedExited(ExitedArgs(Some(s.process.value.pid), if wait.exitCode.Ok? then Some(wait.exitCode.value) else None))
        in StopStep(s, waitForExit, wait).effects
  {
    var waited := if CancelAfterAccepts(waitForExit) then [WaitedForExit(waitForExit)] else [];
    var heard := if CallbackInWait(waitForExit, wait) then ExitedStep(s, wait.exitCode).effects else [];
    var tail := if CallbackInWait(waitForExit, wait) then [] else [Notified(StatusProperty)];
    var before := [Killed(true)] + waited;
    var during := before + heard;
    var after := during + [Unsubscribed, ProcessReleased];
    assert StopStep(s, waitForExit, wait).effects == after + tail;
    NoExitedRaised(before);
    NoExitedRaised([Unsubscribed, ProcessReleased]);
    NoExitedRaised(tail);
    ExitedRaisedAppend(before, heard);
    ExitedRaisedAppend(during, [Unsubscribed, ProcessReleased]);
    ExitedRaisedAppend(after, tail);
    if CallbackInWait(waitForExit, wait) {
      ExitedStepRaisesOnce(s, wait.exitCode);
      assert heard[2] in heard;
    } else {
      assert heard == [];
    }
  }

  /** The exit callback of an undisposed host raises `Exited` once. */
  lemma ExitedStepRaisesOnce(s: HostState, exitCode: Result<int>)
    requires s.status == Running && Attached(s) && !s.disposed
    ensures ExitedRaised(ExitedStep(s, exitCode).effects) == 1
  {
    var es := ExitedStep(s, exitCode).effects;
    var notified := [Notified(ProcessIdProperty), Notified(StatusProperty)];
    assert es == notified + [es[2]];
    NoExitedRaised(notified);
    ExitedRaisedAppend(notified, [es[2]]);
    assert [es[2]][..0] == [];
  }

  lemma {:induction false} NoExitedRaised(es: seq<Effect>)
    requires forall i :: 0 <= i < |es| ==> !es[i].RaisedExited?
    ensures ExitedRaised(es) == 0
    decreases |es|
  {
    if |es| > 0 {
      NoExitedRaised(es[..|es| - 1]);
    }
  }

  /** `SendCommandAsync(command)`. Its log line reads `m_process?.Id` as `StopAsync`'s does.
      `write` and `flush` are what `StandardInput.WriteLineAsync` and `FlushAsync` do; an
      exception from either, such as an IOException once the process has closed its input,
      reaches the caller, and a failed write is not flushed. */
  function SendCommandStep(s: HostState, command: string, write: Result<()>, flush: Result<()>): (r: Step<()>)
    ensures r.next == s
    ensures s.disposed ==> r == Step(s, [], Err(ObjectDisposed))
    ensures !s.disposed && (HeldId(s).Err? || !(s.status == Running && s.process.Some?)) ==> r == Step(s, [], Err(InvalidOperation))
    ensures !s.disposed && HeldId(s).Ok? && s.status == Running && s.process.Some? ==>
      && r.effects == [WroteLine(command)] + (if write.Ok? then [Flushed] else [])
      && r.result == (if write.Err? then write else flush)
    ensures r.result.Ok? <==> !s.disposed && Attached(s) && s.status == Running && write.Ok? && flush.Ok?
  {
    if s.disposed then Step(s, [], Err(ObjectDisposed))
    else if HeldId(s).Err? then Step(s, [], Err(InvalidOperation))
    else if s.status != Running || s.process.None? then Step(s, [], Err(InvalidOperation))
    else if write.Err? then Step(s, [WroteLine(command)], write)
    else Step(s, [WroteLine(command), Flushed], flush)
  }

  /** `OnProcessExited`, raised by the operating system for the running process while the host
      is subscribed to it, on its own or inside `StopAsync`'s wait. A failed exit code read is
      logged and reported as a missing code. */
  function ExitedStep(s: HostState, exitCode: Result<int>): (r: Step<()>)
    requires s.status == Running && Attached(s)
    ensures r.next == s.(status := Exited)
    ensures !s.disposed ==> r.effects == [Notified(ProcessIdProperty), Notified(StatusProperty),
      RaisedExited(ExitedArgs(Some(s.process.value.pid), if exitCode.Ok? then Some(exitCode.value) else None))]
    ensures s.disposed ==> r.effects == []
    ensures r.result.Ok?
    ensures Inv(r.next)
  {
    var pid := s.process.value.pid;
    var exited := SetStatus(s, Exited);
    var code := if exitCode.Ok? then Some(exitCode.value) else None;
    Step(exited.next, Raise(s, [Notified(ProcessIdProperty)]) + exited.effects + Raise(s, [RaisedExited(ExitedArgs(Some(pid), code))]), Ok(()))
  }

  /** `OnDataReceived`: a standard-output line, or null at end of stream, passed on with the id of
      the process that produced it. */
  function OutputStep(s: HostState, data: Option<string>): (r: Step<()>)
    requires Attached(s)
    ensures r.next == s && r.result.Ok?
    ensures !s.disposed ==> r.effects == [RaisedOutput(Some(s.process.value.pid), data)]
    ensures s.disposed ==> r.effects == []
  {
    Step(s, Raise(s, [RaisedOutput(Some(s.process.value.pid), data)]), Ok(()))
  }

  /** `OnErrorReceived`: the same for standard error. */
  function ErrorOutputStep(s: HostState, data: Option<string>): (r: Step<()>)
    requires Attached(s)
    ensures r.next == s && r.result.Ok?
    ensures !s.disposed ==> r.effects == [RaisedError(Some(s.process.value.pid), data)]
    ensures s.disposed ==> r.effects == []
  {
    Step(s, Raise(s, [RaisedError(Some(s.process.value.pid), data)]), Ok(()))
  }

  /** `SafeDisposeProcessAsync`, the local function of `DisposeAsync`: a process that has exited
      is released, a live one is stopped with the default timeout, and every error is logged. */
  function SafeDisposeProcess(s: HostState, hasExited: Result<bool>, wait: WaitOutcome): (r: Step<()>)
    requires !s.disposed
    ensures r.result == Ok(()) && !r.next.disposed && r.next.process == s.process
    ensures !Attached(s) || hasExited.Err? ==> r == Step(s, [], Ok(()))
    ensures Attached(s) && hasExited == Ok(true) ==>
      r == Step(s.(processDisposed := true), [Unsubscribed, ProcessReleased], Ok(()))
    ensures Attached(s) && hasExited == Ok(false) ==>
      r.next == StopStep(s, DefaultStopTimeout, wait).next && r.effects == StopStep(s, DefaultStopTimeout, wait).effects
    ensures Attached(s) && hasExited == Ok(false) && s.status == Running ==>
      && r.next == s.(status := Exited, processDisposed := true)
      && r.effects == [Killed(true), WaitedForExit(DefaultStopTimeout)]
           + (if wait.ExitHeard? then ExitedStep(s, wait.exitCode).effects else [])
           + [Unsubscribed, ProcessReleased] + (if wait.ExitHeard? then [] else [Notified(StatusProperty)])
  {
    if s.process.None? || s.processDisposed then Step(s, [], Ok(()))
    else match HasExitedRead(s, hasExited)
      case Err(_) => Step(s, [], Ok(()))
      case Ok(true) => Step(s.(processDisposed := true), [Unsubscribed, ProcessReleased], Ok(()))
      case Ok(false) =>
        var stop := StopStep(s, DefaultStopTimeout, wait);
        Step(stop.next, stop.effects, Ok(()))
  }

  /** `DisposeAsync()`: never throws, and always ends disposed. */
  function DisposeStep(s: HostState, hasExited: Result<bool>, wait: WaitOutcome): (r: Step<()>)
    ensures r.result.Ok? && r.next.disposed
    ensures s.disposed ==> r == Step(s, [], Ok(()))
    ensures r.next.process == s.process
    ensures r.next.status == s.status || (s.status == Running && r.next.status == Exited)
    ensures !s.disposed && (!Attached(s) || hasExited.Err?) ==> r == Step(s.(disposed := true), [], Ok(()))
    ensures !s.disposed && Attached(s) && hasExited == Ok(true) ==>
      r == Step(s.(processDisposed := true, disposed := true), [Unsubscribed, ProcessReleased], Ok(()))
    ensures !s.disposed && Attached(s) && hasExited == Ok(false) ==>
      r.effects == StopStep(s, DefaultStopTimeout, wait).effects
    ensures Inv(s) && !s.disposed && s.status == Running && hasExited == Ok(false) ==>
      && r.next == s.(status := Exited, processDisposed := true, disposed := true)
      && r.effects == [Killed(true), WaitedForExit(DefaultStopTimeout)]
           + (if wait.ExitHeard? then ExitedStep(s, wait.exitCode).effects else [])
           + [Unsubscribed, ProcessReleased] + (if wait.ExitHeard? then [] else [Notified(StatusProperty)])
    ensures Inv(s) ==> Inv(r.next)
  {
    if s.disposed then Step(s, [], Ok(()))
    else
      var safe := SafeDisposeProcess(s, hasExited, wait);
      Step(safe.next.(disposed := true), safe.effects, Ok(()))
  }

  /** One call into the host, or one callback from the process, with what the operating system
      answers during it. */
  datatype Op =
    | StartOp(executableExists: bool, directoryExists: bool, launch: Launch)
    | StopOp(waitForExit: TimeSpan, wait: WaitOutcome)
    | SendCommandOp(command: string, write: Result<()>, flush: Result<()>)
    | ProcessExitedOp(exitCode: Result<int>)
    | OutputOp(data: Option<string>)
    | ErrorOutputOp(data: Option<string>)
    | DisposeOp(hasExited: Result<bool>, wait: WaitOutcome)

  /** The operating system raises the host's handlers only for a process the host is attached
      to, and the exit callback only while it runs; elsewhere a callback is a no-op. */
  predicate Delivered(s: HostState, op: Op) {
    match op
    case ProcessExitedOp(_) => s.status == Running && Attached(s)
    case OutputOp(_) => Attached(s)
    case ErrorOutputOp(_) => Attached(s)
    case _ => true
  }

  /** The state after one call. */
  function Apply(s: HostState, op: Op): (t: HostState)
    requires Inv(s)
    ensures Inv(t)
  {
    if !Delivered(s, op) then s
    else match op
      case StartOp(e, d, l) => StartStep(s, e, d, l).next
      case StopOp(w, c) => StopStep(s, w, c).next
      case SendCommandOp(c, w, f) => SendCommandStep(s, c, w, f).next
      case ProcessExitedOp(c) => ExitedStep(s, c).next
      case OutputOp(data) => OutputStep(s, data).next
      case ErrorOutputOp(data) => ErrorOutputStep(s, data).next
      case DisposeOp(h, c) => DisposeStep(s, h, c).next
  }

  /** The effects of one call, in order. */
  function Effects(s: HostState, op: Op): seq<Effect>
    requires Inv(s)
  {
    if !Delivered(s, op) then []
    else match op
      case StartOp(e, d, l) => StartStep(s, e, d, l).effects
      case StopOp(w, c) => StopStep(s, w, c).effects
      case SendCommandOp(c, w, f) => SendCommandStep(s, c, w, f).effects
      case ProcessExitedOp(c) => ExitedStep(s, c).effects
      case OutputOp(data) => OutputStep(s, data).effects
      case ErrorOutputOp(data) => ErrorOutputStep(s, data).effects
      case DisposeOp(h, c) => DisposeStep(s, h, c).effects
  }

  /** The state after a sequence of calls; every reachable state satisfies `Inv`. */
  function Run(s: HostState, ops: seq<Op>): (t: HostState)
    requires Inv(s)
    ensures Inv(t)
    decreases |ops|
  {
    if |ops| == 0 then s else Run(Apply(s, ops[0]), ops[1..])
  }

  /** Everything observable a sequence of calls does, oldest first. */
  function Trace(s: HostState, ops: seq<Op>): seq<Effect>
    requires Inv(s)
    decreases |ops|
  {
    if |ops| == 0 then [] else Effects(s, ops[0]) + Trace(Apply(s, ops[0]), ops[1..])
  }

  lemma InitialSatisfiesInv()
    ensures Inv(Initial) && ProcessIdOf(Initial) == Ok(-1) && Initial.status == NotStarted
  {
  }

  /** No call ever sets NotStarted again: once a host has left NotStarted it never returns. */
  lemma {:induction false} NeverBackToNotStarted(s: HostState, ops: seq<Op>)
    requires Inv(s) && s.status != NotStarted
    ensures Run(s, ops).status != NotStarted
    decreases |ops|
  {
    if |ops| > 0 {
      NeverBackToNotStarted(Apply(s, ops[0]), ops[1..]);
    }
  }

  /** A host still in NotStarted after any calls holds no process and reports id -1. */
  lemma NotStartedHoldsNothing(ops: seq<Op>)
    requires Run(Initial, ops).status == NotStarted
    ensures Run(Initial, ops).process.None? && ProcessIdOf(Run(Initial, ops)) == Ok(-1)
  {
  }

  /** A path failure, or a launch that throws, leaves the host in Starting, and nothing gets it
      out again: `Start` refuses ("already running"), `StopAsync` only polls or throws, the exit
      callback never comes and `DisposeAsync` keeps the status. */
  lemma {:induction false} StartingIsAbsorbing(s: HostState, ops: seq<Op>)
    requires Inv(s) && s.status == Starting
    ensures Run(s, ops).status == Starting
    decreases |ops|
  {
    if |ops| > 0 {
      StartingIsAbsorbing(Apply(s, ops[0]), ops[1..]);
    }
  }

  /** After `DisposeAsync` nothing but the exit callback changes the host any more. */
  lemma {:induction false} FrozenAfterDispose(s: HostState, ops: seq<Op>)
    requires Inv(s) && s.disposed
    requires forall i :: 0 <= i < |ops| ==> !ops[i].ProcessExitedOp?
    ensures Run(s, ops) == s
    decreases |ops|
  {
    if |ops| > 0 {
      assert Apply(s, ops[0]) == s;
      FrozenAfterDispose(s, ops[1..]);
    }
  }

  /** A disposed host does nothing observable any more, whatever is called and whatever the
      process still reports. */
  lemma {:induction false} SilentWhenDisposed(s: HostState, ops: seq<Op>)
    requires Inv(s) && s.disposed
    ensures Trace(s, ops) == []
    ensures Run(s, ops).disposed
    decreases |ops|
  {
    if |ops| > 0 {
      var t := Apply(s, ops[0]);
      assert Effects(s, ops[0]) == [];
      assert t.disposed;
      SilentWhenDisposed(t, ops[1..]);
    }
  }

  /** After `DisposeAsync` no subscriber hears anything: no notification and no event. */
  lemma SilentAfterDispose(s: HostState, hasExited: Result<bool>, wait: WaitOutcome, ops: seq<Op>)
    requires Inv(s)
    ensures var t := DisposeStep(s, hasExited, wait).next;
      forall i :: 0 <= i < |Trace(t, ops)| ==> !Heard(Trace(t, ops)[i])
  {
    SilentWhenDisposed(DisposeStep(s, hasExited, wait).next, ops);
  }

  /** `Start` returns the id that `ProcessId` reports afterwards. */
  lemma StartReturnsProcessId(s: HostState, executableExists: bool, directoryExists: bool, launch: Launch)
    requires StartStep(s, executableExists, directoryExists, launch).result.Ok?
    ensures ProcessIdOf(StartStep(s, executableExists, directoryExists, launch).next)
         == StartStep(s, executableExists, directoryExists, launch).result
  {
  }

  /** Start, exit, start again: the host runs the new process. */
  lemma {:induction false} RestartAfterExit(pid1: int, pid2: int, code: Result<int>)
    ensures var started := StartStep(Initial, true, true, Started(pid1)).next;
      var exited := ExitedStep(started, code).next;
      var restarted := StartStep(exited, true, true, Started(pid2));
      restarted.result == Ok(pid2) && restarted.next.status == Running
      && ProcessIdOf(restarted.next) == Ok(pid2)
  {
    var started := StartStep(Initial, true, true, Started(pid1)).next;
    assert Inv(started) && started.status == Running && Attached(started);
  }

  /** The host of `ProcessHost`, field for field. */
  class ProcessHost {
    const config: HostConfig
    var status: ProcessStatus
    var process: Option<ProcessObject>
    var processDisposed: bool
    var disposed: bool
    /** Everything observable the host has done, oldest first. */
    var trace: seq<Effect>

    function State(): HostState
      reads this
    {
      HostState(status, process, processDisposed, disposed)
    }

    constructor(config: HostConfig)
      ensures this.config == config && State() == Initial && trace == []
    {
      this.config := config;
      status := NotStarted;
      process := None;
      processDisposed := false;
      disposed := false;
      trace := [];
    }

    /** The `ProcessId` property. */
    function ProcessId(): Result<int>
      reads this
    {
      ProcessIdOf(State())
    }

    /** Raising events: nothing reaches anyone once the event fields are cleared. */
    method RaiseEvents(es: seq<Effect>)
      modifies this
      ensures State() == old(State()) && trace == old(trace) + Raise(old(State()), es)
    {
      if !disposed {
        trace := trace + es;
      }
    }

    /** `NotifyPropertyChanged(propertyName)`. */
    method NotifyPropertyChanged(propertyName: string)
      modifies this
      ensures State() == old(State()) && trace == old(trace) + Raise(old(State()), [Notified(propertyName)])
    {
      RaiseEvents([Notified(propertyName)]);
    }

    /** The private `Status` setter. */
    method SetStatusField(value: ProcessStatus)
      modifies this
      ensures State() == SetStatus(old(State()), value).next
      ensures trace == old(trace) + SetStatus(old(State()), value).effects
    {
      if value != status {
        status := value;
        NotifyPropertyChanged(StatusProperty);
      }
    }

    /** `Process_Disposed`, the handler of the process's `Disposed` event. */
    method ProcessDisposed()
      modifies this
      ensures State() == old(State()).(processDisposed := true) && trace == old(trace)
    {
      processDisposed := true;
    }

    method Start(executableExists: bool, directoryExists: bool, launch: Launch) returns (r: Result<int>)
      modifies this
      ensures State() == StartStep(old(State()), executableExists, directoryExists, launch).next
      ensures trace == old(trace) + StartStep(old(State()), executableExists, directoryExists, launch).effects
      ensures r == StartStep(old(State()), executableExists, directoryExists, launch).result
    {
      if disposed {
        return Err(ObjectDisposed);
      }
      if status == Starting || status == Running {
        return Err(InvalidOperation);
      }
      SetStatusField(Starting);
      var paths := ValidatePaths(executableExists, directoryExists);
      if paths.Err? {
        return Err(paths.error);
      }
      processDisposed := false;
      process := Some(HeldAfter(launch));
      match launch
      case Threw(e) =>
        return Err(e);
      case ReturnedFalse =>
        SetStatusField(FailedToStart);
        return Err(InvalidOperation);
      case Started(pid) =>
        NotifyPropertyChanged(ProcessIdProperty);
        SetStatusField(Running);
        return Ok(pid);
    }

    /** `StopAsync(waitForExit)`. */
    method StopAsync(waitForExit: TimeSpan, wait: WaitOutcome) returns (r: Result<()>)
      modifies this
      ensures State() == StopStep(old(State()), waitForExit, wait).next
      ensures trace == old(trace) + StopStep(old(State()), waitForExit, wait).effects
      ensures r == StopStep(old(State()), waitForExit, wait).result
    {
      if disposed {
        return Err(ObjectDisposed);
      }
      var loggedId := HeldId(State());
      if loggedId.Err? {
        return Err(loggedId.error);
      }
      if status == Starting {
        var i := WaitForExitRetries - 1;
        while i >= 0
          invariant -1 <= i < WaitForExitRetries
          invariant State() == old(State())
          invariant trace == old(trace) + Repeat(Delayed(WaitForExitDelayInMs), WaitForExitRetries - 1 - i)
        {
          if status == Starting {
            RepeatSnoc(Delayed(WaitForExitDelayInMs), WaitForExitRetries - 1 - i);
            trace := trace + [Delayed(WaitForExitDelayInMs)];
          }
          i := i - 1;
        }
      }
      if status != Running || process.None? {
        return Ok(());
      }
      r := KillAndWait(waitForExit, wait);
    }

    /** The `try`/`finally` of `StopAsync` for a running process. */
    method KillAndWait(waitForExit: TimeSpan, wait: WaitOutcome) returns (r: Result<()>)
      requires status == Running && Attached(State())
      modifies this
      ensures State() == KillAndWaitStep(old(State()), waitForExit, wait).next
      ensures trace == old(trace) + KillAndWaitStep(old(State()), waitForExit, wait).effects
      ensures r == KillAndWaitStep(old(State()), waitForExit, wait).result
    {
      ghost var s0 := State();
      ghost var heard := if CallbackInWait(waitForExit, wait) then ExitedStep(s0, wait.exitCode) else Step(s0, [], Ok(()));
      trace := trace + [Killed(true)];
      var accepted := CancelAfterAccepts(waitForExit);
      if accepted {
        trace := trace + [WaitedForExit(waitForExit)];
        if wait.ExitHeard? {
          OnProcessExited(wait.exitCode);
        }
      }
      ghost var done := [Killed(true)] + (if accepted then [WaitedForExit(waitForExit)] else []) + heard.effects;
      assert State() == heard.next && trace == old(trace) + done;
      trace := trace + [Unsubscribed, ProcessReleased];
      done := done + [Unsubscribed, ProcessReleased];
      ProcessDisposed();
      ghost var exited := SetStatus(State(), Exited);
      SetStatusField(Exited);
      done := done + exited.effects;
      assert trace == old(trace) + done;
      assert KillAndWaitStep(s0, waitForExit, wait).effects == done;
      r := if !accepted then Err(ArgumentOutOfRange) else if wait.TimedOut? then Err(OperationCanceled) else Ok(());
    }

    /** The parameterless `StopAsync()`. */
    method StopAsyncDefault(wait: WaitOutcome) returns (r: Result<()>)
      modifies this
      ensures State() == StopStep(old(State()), FromSeconds(10000), wait).next
      ensures trace == old(trace) + StopStep(old(State()), FromSeconds(10000), wait).effects
      ensures r == StopStep(old(State()), FromSeconds(10000), wait).result
    {
      r := StopAsync(DefaultStopTimeout, wait);
    }

    method SendCommandAsync(command: string, write: Result<()>, flush: Result<()>) returns (r: Result<()>)
      modifies this
      ensures State() == old(State())
      ensures trace == old(trace) + SendCommandStep(old(State()), command, write, flush).effects
      ensures r == SendCommandStep(old(State()), command, write, flush).result
    {
      if disposed {
        return Err(ObjectDisposed);
      }
      var loggedId := HeldId(State());
      if loggedId.Err? {
        return Err(loggedId.error);
      }
      if status != Running || process.None? {
        return Err(InvalidOperation);
      }
      trace := trace + [WroteLine(command)];
      if write.Err? {
        return write;
      }
      trace := trace + [Flushed];
      return flush;
    }

    /** `OnProcessExited`. */
    method OnProcessExited(exitCode: Result<int>)
      requires status == Running && Attached(State())
      modifies this
      ensures State() == ExitedStep(old(State()), exitCode).next
      ensures trace == old(trace) + ExitedStep(old(State()), exitCode).effects
    {
      var pid := process.value.pid;
      NotifyPropertyChanged(ProcessIdProperty);
      SetStatusField(Exited);
      var code := if exitCode.Ok? then Some(exitCode.value) else None;
      RaiseEvents([RaisedExited(ExitedArgs(Some(pid), code))]);
    }

    /** `OnDataReceived`. */
    method OnDataReceived(data: Option<string>)
      requires Attached(State())
      modifies this
      ensures State() == old(State()) && trace == old(trace) + OutputStep(old(State()), data).effects
    {
      RaiseEvents([RaisedOutput(Some(process.value.pid), data)]);
    }

    /** `OnErrorReceived`. */
    method OnErrorReceived(data: Option<string>)
      requires Attached(State())
      modifies this
      ensures State() == old(State()) && trace == old(trace) + ErrorOutputStep(old(State()), data).effects
    {
      RaiseEvents([RaisedError(Some(process.value.pid), data)]);
    }

    method SafeDisposeProcessAsync(hasExited: Result<bool>, wait: WaitOutcome)
      requires !disposed
      modifies this
      ensures State() == SafeDisposeProcess(old(State()), hasExited, wait).next
      ensures trace == old(trace) + SafeDisposeProcess(old(State()), hasExited, wait).effects
    {
      if process.None? {
        return;
      }
      if processDisposed {
        return;
      }
      match HasExitedRead(State(), hasExited)
      case Err(_) =>
      case Ok(true) =>
        trace := trace + [Unsubscribed, ProcessReleased];
        ProcessDisposed();
      case Ok(false) =>
        var _ := StopAsyncDefault(wait);
    }

    method DisposeAsync(hasExited: Result<bool>, wait: WaitOutcome)
      modifies this
      ensures State() == DisposeStep(old(State()), hasExited, wait).next
      ensures trace == old(trace) + DisposeStep(old(State()), hasExited, wait).effects
    {
      if disposed {
        return;
      }
      SafeDisposeProcessAsync(hasExited, wait);
      disposed := true;
    }
  }
}
