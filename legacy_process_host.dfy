/** `Infrastructure.OS.ProcessHost`: the earlier revision of the process host. It has no change
    notifications and no `m_processDisposed`, its `ProcessId` throws when no process is held, and
    it can reattach to a process that is already running, after checking that the process runs
    the configured executable with the configured arguments.

    As in `OsProcesses`, every operation is a step function over `HostState`, and the class
    `ProcessHost` performs the same operations on its fields and is proved against them. */
module OsLegacy {
  import opened Wrappers
  import opened TimeSpans
  import opened ProcessTypes
  import ProcessUtils
  import LinuxProcessUtils
  import Text

  /** What an operation does that can be observed from outside the host. */
  datatype Effect =
    | RaisedExited(exitCode: Option<int>)      // Exited raised with `ProcessExitedEventArgs(ExitCode)`
    | Delayed(ms: int)                          // Task.Delay awaited
    | Killed(entireProcessTree: bool)           // Process.Kill
    | WaitedForExit(timeout: TimeSpan)          // WaitForExitAsync with a timeout
    | Unsubscribed                              // OnProcessExited removed from the process
    | ProcessReleased                           // Process.Dispose
    | WroteLine(line: string)                   // StandardInput.WriteLineAsync
    | Flushed                                   // StandardInput.FlushAsync

  /** The host's mutable state: `Status`, `m_process`, `m_disposed`, and whether the held
      `Process` object has been released. The source keeps no field for the last: the `Process`
      object itself knows it has been disposed. */
  datatype HostState = HostState(status: ProcessStatus, process: Option<ProcessObject>, processReleased: bool, disposed: bool)

  const Initial: HostState := HostState(NotStarted, None, false, false)

  datatype Step<T> = Step(next: HostState, effects: seq<Effect>, result: Result<T>)

  /** What holds of every state the host can reach. */
  predicate Inv(s: HostState) {
    && (s.status == NotStarted ==> s.process.None?)
    && (s.status == Running ==> s.process.Some? && s.process.value.Launched? && !s.processReleased)
    && (s.status == FailedToStart ==> s.process == Some(NotLaunched))
    && (s.status == Exited ==> s.process.Some? && s.process.value.Launched?)
  }

  /** The host holds a launched process that it has not released, so its `Id` and `HasExited`
      can be read. */
  predicate Attached(s: HostState) {
    s.process.Some? && s.process.value.Launched? && !s.processReleased
  }

  /** `m_process?.Id`: null without a process; the id of a process that never launched, or of one
      already released, is refused with an InvalidOperationException. */
  function HeldId(s: HostState): (r: Result<Option<int>>)
    ensures r == Ok(None) <==> s.process.None?
    ensures (r.Ok? && r.value.Some?) <==> Attached(s)
    ensures Attached(s) ==> r == Ok(Some(s.process.value.pid))
    ensures r.Err? ==> r.error == InvalidOperation
  {
    match s.process
    case None => Ok(None)
    case Some(NotLaunched) => Err(InvalidOperation)
    case Some(Launched(pid)) => if s.processReleased then Err(InvalidOperation) else Ok(Some(pid))
  }

  /** The `ProcessId` getter: `m_process?.Id ?? throw`. */
  function ProcessIdOf(s: HostState): (r: Result<int>)
    ensures r.Ok? <==> Attached(s)
    ensures r.Ok? ==> r.value == s.process.value.pid
    ensures r.Err? ==> r.error == InvalidOperation
  {
    match HeldId(s)
    case Ok(Some(pid)) => Ok(pid)
    case _ => Err(InvalidOperation)
  }

  /** `HasExited` as the host reads it, with `hasExited` what the operating system answers for a
      live process: on a process that never launched, or one already released, the read throws. */
  function HasExitedRead(s: HostState, hasExited: Result<bool>): Result<bool> {
    if Attached(s) then hasExited else Err(InvalidOperation)
  }

  /** `m_args ?? ""`. */
  function ArgumentsOrEmpty(arguments: Option<string>): string {
    if arguments.Some? then arguments.value else ""
  }

  /** `Start()`: the same guards as in `OsProcesses`, without notifications. */
  function StartStep(s: HostState, executableExists: bool, directoryExists: bool, launch: Launch): (r: Step<int>)
    ensures r.effects == []
    ensures s.disposed ==> r == Step(s, [], Err(ObjectDisposed))
    ensures !s.disposed && (s.status == Starting || s.status == Running) ==> r == Step(s, [], Err(InvalidOperation))
    ensures !s.disposed && s.status != Starting && s.status != Running ==>
      && (!(executableExists && directoryExists) ==>
            r.next == s.(status := Starting) && r.result == Err(if executableExists then DirectoryNotFound else FileNotFound))
      && (executableExists && directoryExists && launch.Threw? ==>
            r.next == s.(status := Starting, process := Some(NotLaunched), processReleased := false) && r.result == Err(launch.error))
      && (executableExists && directoryExists && launch.ReturnedFalse? ==>
            r.next == s.(status := FailedToStart, process := Some(NotLaunched), processReleased := false) && r.result == Err(InvalidOperation))
      && (executableExists && directoryExists && launch.Started? ==>
            r.next == s.(status := Running, process := Some(Launched(launch.pid)), processReleased := false) && r.result == Ok(launch.pid))
    ensures Inv(s) ==> Inv(r.next)
  {
    if s.disposed then Step(s, [], Err(ObjectDisposed))
    else if s.status == Starting || s.status == Running then Step(s, [], Err(InvalidOperation))
    else
      var starting := s.(status := Starting);
      match ValidatePaths(executableExists, directoryExists)
      case Err(e) => Step(starting, [], Err(e))
      case Ok(_) =>
        var held := starting.(process := Some(HeldAfter(launch)), processReleased := false);
        match launch
        case Threw(e) => Step(held, [], Err(e))
        case ReturnedFalse => Step(held.(status := FailedToStart), [], Err(InvalidOperation))
        case Started(pid) => Step(held.(status := Running), [], Ok(pid))
  }

  /** The identity check of `ReattachAsync` passes: the process reports the configured
      executable's full path and the configured arguments, a missing argument string counting as
      empty. */
  predicate IdentityMatches(config: HostConfig, identity: ProcessParameters) {
    identity.executable == config.executable && identity.arguments == ArgumentsOrEmpty(config.arguments)
  }

  /** `ReattachAsync` gets as far as comparing the process's identity with its configuration:
      the guards and the path check pass, the pid is found and its parameters are read. */
  predicate ReachesIdentityCheck(s: HostState, executableExists: bool, directoryExists: bool, found: bool,
                                 platform: ProcessUtils.Platform, view: ProcessUtils.ProcessView) {
    && !s.disposed && s.status == NotStarted && executableExists && directoryExists && found
    && ProcessUtils.GetProcessParameters(platform, view).Ok?
  }

  /** `ReattachAsync(pid)`. `found` says whether `Process.GetProcessById` finds the pid (it throws
      ArgumentException otherwise, so its null check never fires), and the process identity comes
      from `ProcessUtils.GetProcessParameters`. `moduleFileName` is what reading
      `process.Modules[0].FileName` gives: the message about a different executable quotes it,
      and an exception from that read is thrown instead of the InvalidOperationException. */
  function ReattachStep(s: HostState, config: HostConfig, pid: int, executableExists: bool, directoryExists: bool,
                        found: bool, platform: ProcessUtils.Platform, view: ProcessUtils.ProcessView,
                        moduleFileName: Result<string>): (r: Step<()>)
    ensures s.disposed ==> r == Step(s, [], Err(ObjectDisposed))
    ensures !s.disposed && s.status != NotStarted ==> r == Step(s, [], Err(InvalidOperation))
    ensures r.result.Ok? <==>
      && ReachesIdentityCheck(s, executableExists, directoryExists, found, platform, view)
      && IdentityMatches(config, ProcessUtils.GetProcessParameters(platform, view).value)
    ensures r.result.Ok? ==> r.next == s.(status := Running, process := Some(Launched(pid)), processReleased := false)
    ensures r.result.Err? ==> r.next == s && r.effects == []
    ensures ReachesIdentityCheck(s, executableExists, directoryExists, found, platform, view) ==>
      var identity := ProcessUtils.GetProcessParameters(platform, view).value;
      && (identity.executable != config.executable ==>
            r.result == Err(if moduleFileName.Err? then moduleFileName.error else InvalidOperation))
      && (identity.executable == config.executable && !IdentityMatches(config, identity) ==>
            r.result == Err(InvalidOperation))
    ensures Inv(s) ==> Inv(r.next) && r.effects == []
  {
    if s.disposed then Step(s, [], Err(ObjectDisposed))
    else if s.status != NotStarted then Step(s, [], Err(InvalidOperation))
    else match ValidatePaths(executableExists, directoryExists)
      case Err(e) => Step(s, [], Err(e))
      case Ok(_) =>
        if !found then Step(s, [], Err(Argument))
        else CompareIdentity(s, config, pid, ProcessUtils.GetProcessParameters(platform, view), moduleFileName)
  }

  /** The last part of `ReattachAsync`: the process's parameters, once read, are compared with
      the configuration, and a match takes the process over. */
  function CompareIdentity(s: HostState, config: HostConfig, pid: int, identity: Result<ProcessParameters>,
                           moduleFileName: Result<string>): (r: Step<()>)
    ensures r.result.Ok? <==> identity.Ok? && IdentityMatches(config, identity.value)
    ensures identity.Err? ==> r == Step(s, [], Err(identity.error))
    ensures r.result.Ok? ==>
      r == Step(s.(process := Some(Launched(pid)), processReleased := false, status := Running),
                if s.process.Some? then [Unsubscribed, ProcessReleased] else [], Ok(()))
    ensures r.result.Err? ==> r.next == s && r.effects == []
  {
    match identity
    case Err(e) => Step(s, [], Err(e))
    case Ok(identity) =>
      if identity.executable != config.executable then
        Step(s, [], Err(if moduleFileName.Err? then moduleFileName.error else InvalidOperation))
      else if identity.arguments != ArgumentsOrEmpty(config.arguments) then Step(s, [], Err(InvalidOperation))
      else
        var releasePrevious := if s.process.Some? then [Unsubscribed, ProcessReleased] else [];
        Step(s.(process := Some(Launched(pid)), processReleased := false, status := Running), releasePrevious, Ok(()))
  }

  const StartingPolls: seq<Effect> := Repeat(Delayed(WaitForExitDelayInMs), WaitForExitRetries)

  /** `StopAsync(waitForExit)`: the same steps as in `OsProcesses`, without notifications. The
      exit callback, when it runs inside the wait, raises `Exited` with the exit code. */
  function StopStep(s: HostState, waitForExit: TimeSpan, wait: WaitOutcome): (r: Step<()>)
    ensures s.disposed ==> r == Step(s, [], Err(ObjectDisposed))
    ensures !s.disposed && HeldId(s).Err? ==> r == Step(s, [], Err(InvalidOperation))
    ensures !s.disposed && HeldId(s).Ok? && s.status == Starting ==> r == Step(s, StartingPolls, Ok(()))
    ensures !s.disposed && HeldId(s).Ok? && s.status != Starting && !(s.status == Running && s.process.Some?) ==>
      r == Step(s, [], Ok(()))
    ensures !s.disposed && HeldId(s).Ok? && s.status == Running && s.process.Some? ==>
      && r.next == s.(status := Exited, processReleased := true)
      && r.effects == [Killed(true)] + (if CancelAfterAccepts(waitForExit) then [WaitedForExit(waitForExit)] else [])
           + (if CallbackInWait(waitForExit, wait) then ExitedStep(s, wait.exitCode).effects else [])
           + [Unsubscribed, ProcessReleased]
      && (r.result.Ok? <==> CancelAfterAccepts(waitForExit) && !wait.TimedOut?)
      && (r.result.Err? ==> r.result.error == if CancelAfterAccepts(waitForExit) then OperationCanceled else ArgumentOutOfRange)
    ensures Inv(s) ==> Inv(r.next)
  {
    if s.disposed then Step(s, [], Err(ObjectDisposed))
    else if HeldId(s).Err? then Step(s, [], Err(InvalidOperation))
    else
      var polls := if s.status == Starting then StartingPolls else [];
      if s.status != Running || s.process.None? then Step(s, polls, Ok(()))
      else KillAndWaitStep(s, waitForExit, wait)
  }

  /** The `try`/`finally` of `StopAsync` for a running process. */
  function KillAndWaitStep(s: HostState, waitForExit: TimeSpan, wait: WaitOutcome): (r: Step<()>)
    requires s.status == Running && Attached(s)
    ensures r.next == s.(status := Exited, processReleased := true)
    ensures r.effects == [Killed(true)] + (if CancelAfterAccepts(waitForExit) then [WaitedForExit(waitForExit)] else [])
      + (if CallbackInWait(waitForExit, wait) then ExitedStep(s, wait.exitCode).effects else [])
      + [Unsubscribed, ProcessReleased]
    ensures r.result.Ok? <==> CancelAfterAccepts(waitForExit) && !wait.TimedOut?
    ensures r.result.Err? ==> r.result.error == if CancelAfterAccepts(waitForExit) then OperationCanceled else ArgumentOutOfRange
  {
    var accepted := CancelAfterAccepts(waitForExit);
    var waited := if accepted then [WaitedForExit(waitForExit)] else [];
    var heard := if CallbackInWait(waitForExit, wait) then ExitedStep(s, wait.exitCode) else Step(s, [], Ok(()));
    Step(heard.next.(status := Exited, processReleased := true), [Killed(true)] + waited + heard.effects + [Unsubscribed, ProcessReleased],
         if !accepted then Err(ArgumentOutOfRange) else if wait.TimedOut? then Err(OperationCanceled) else Ok(()))
  }

  /** A stopped process cannot be stopped again: the second call throws at its log line. */
  lemma StopTwiceThrows(s: HostState, w1: TimeSpan, c1: WaitOutcome, w2: TimeSpan, c2: WaitOutcome)
    requires Inv(s) && !s.disposed && s.status == Running
    ensures var stopped := StopStep(s, w1, c1).next;
      stopped.status == Exited && StopStep(stopped, w2, c2) == Step(stopped, [], Err(InvalidOperation))
  {
    var stopped := StopStep(s, w1, c1).next;
    assert stopped == s.(status := Exited, processReleased := true);
    assert HeldId(stopped).Err?;
  }

  /** `SendCommandAsync(command)`: as in `OsProcesses`, the log line reads `m_process?.Id`, and
      `write` and `flush` are the outcomes of `WriteLineAsync` and `FlushAsync`. */
  function SendCommandStep(s: HostState, command: string, write: Result<()>, flush: Result<()>): (r: Step<()>)
    ensures r.next == s
    ensures s.disposed ==> r == Step(s, [], Err(ObjectDisposed))
    ensures !s.disposed && (HeldId(s).Err? || !(s.status == Running && s.process.Some?)) ==> r == Step(s, [], Err(InvalidOperation))
    ensures !s.disposed && HeldId(s).Ok? && s.status == Running && s.process.Some? ==>
      && r.effects == [WroteLine(command)] + (if write.Ok? then [Flushed] else [])
      && r.result == (if write.Err? then write else flush)
    ensures r.result.Ok? <==> !s.disposed && Attached(s) && s.status == Running && write.Ok? && flush.Ok?
  {
    if s.disposed then Step(s, [], Err(ObjectDisposed))
    else if HeldId(s).Err? then Step(s, [], Err(InvalidOperation))
    else if s.status != Running || s.process.None? then Step(s, [], Err(InvalidOperation))
    else if write.Err? then Step(s, [WroteLine(command)], write)
    else Step(s, [WroteLine(command), Flushed], flush)
  }

  /** `OnProcessExited` for the running process: Exited is set first; a failing exit-code read
      escapes the handler and no event is raised. The legacy host never clears its `Exited`
      event, so the callback raises it even after disposal. */
  function ExitedStep(s: HostState, exitCode: Result<int>): (r: Step<()>)
    requires s.status == Running && Attached(s)
    ensures r.next == s.(status := Exited) && Inv(r.next)
    ensures r.result == (if exitCode.Ok? then Ok(()) else Err(exitCode.error))
    ensures r.effects == if exitCode.Ok? then [RaisedExited(Some(exitCode.value))] else []
  {
    var exited := s.(status := Exited);
    match exitCode
    case Ok(code) => Step(exited, [RaisedExited(Some(code))], Ok(()))
    case Err(e) => Step(exited, [], Err(e))
  }

  /** `DisposeAsync()`: without a process it returns before marking itself disposed; a failing
      `HasExited` read escapes; a live process is stopped with the default timeout. The `catch`
      around that stop logs `m_process?.Id`, which throws once the stop has released the
      process, so a stop that fails escapes as an InvalidOperationException and the host is
      not marked disposed. */
  function DisposeStep(s: HostState, hasExited: Result<bool>, wait: WaitOutcome): (r: Step<()>)
    ensures s.disposed ==> r == Step(s, [], Ok(()))
    ensures s.process.None? ==> r == Step(s, [], Ok(()))
    ensures !s.disposed && s.process.Some? && !Attached(s) ==> r == Step(s, [], Err(InvalidOperation))
    ensures !s.disposed && Attached(s) && hasExited.Err? ==> r == Step(s, [], Err(hasExited.error))
    ensures !s.disposed && Attached(s) && hasExited == Ok(true) ==> r == Step(s.(disposed := true), [], Ok(()))
    ensures !s.disposed && Attached(s) && hasExited == Ok(false) ==>
      && r.effects == StopStep(s, DefaultStopTimeout, wait).effects
      && (r.result.Ok? <==> StopStep(s, DefaultStopTimeout, wait).result.Ok?)
      && (r.next.disposed <==> r.result.Ok?)
    ensures Inv(s) && !s.disposed && s.status == Running && hasExited == Ok(false) ==>
      && r.next == s.(status := Exited, processReleased := true, disposed := !wait.TimedOut?)
      && r.effects == [Killed(true), WaitedForExit(DefaultStopTimeout)]
           + (if wait.ExitHeard? then ExitedStep(s, wait.exitCode).effects else []) + [Unsubscribed, ProcessReleased]
      && r.result == if wait.TimedOut? then Err(InvalidOperation) else Ok(())
    ensures r.next.process == s.process
    ensures r.next.status == s.status || (s.status == Running && r.next.status == Exited)
    ensures Inv(s) ==> Inv(r.next)
  {
    if s.disposed then Step(s, [], Ok(()))
    else if s.process.None? then Step(s, [], Ok(()))
    else match HasExitedRead(s, hasExited)
      case Err(e) => Step(s, [], Err(e))
      case Ok(true) => Step(s.(disposed := true), [], Ok(()))
      case Ok(false) =>
        var stop := StopStep(s, DefaultStopTimeout, wait);
        if stop.result.Ok? then Step(stop.next.(disposed := true), stop.effects, Ok(()))
        else match HeldId(stop.next)
          case Err(e) => Step(stop.next, stop.effects, Err(e))
          case Ok(_) => Step(stop.next.(disposed := true), stop.effects, Ok(()))
  }

  /** Disposing a host that was never started leaves it usable: it can still be started. */
  lemma DisposeBeforeStartKeepsHostUsable(hasExited: Result<bool>, wait: WaitOutcome, pid: int)
    ensures var disposed := DisposeStep(Initial, hasExited, wait).next;
      !disposed.disposed && StartStep(disposed, true, true, Started(pid)).result == Ok(pid)
  {
  }

  /** A host whose process was stopped cannot be disposed: `HasExited` on the released process
      throws, whatever the operating system would answer, until `Start` replaces the process. */
  lemma DisposeAfterStopThrows(s: HostState, w: TimeSpan, c: WaitOutcome, hasExited: Result<bool>, wait: WaitOutcome)
    requires Inv(s) && !s.disposed && s.status == Running
    ensures var stopped := StopStep(s, w, c).next;
      DisposeStep(stopped, hasExited, wait) == Step(stopped, [], Err(InvalidOperation))
  {
    var stopped := StopStep(s, w, c).next;
    assert stopped.process.Some? && !Attached(stopped);
  }

  /** One call into the host, with what the operating system answers during it. */
  datatype Op =
    | StartOp(executableExists: bool, directoryExists: bool, launch: Launch)
    | ReattachOp(config: HostConfig, pid: int, executableExists: bool, directoryExists: bool,
                 found: bool, platform: ProcessUtils.Platform, view: ProcessUtils.ProcessView, moduleFileName: Result<string>)
    | StopOp(waitForExit: TimeSpan, wait: WaitOutcome)
    | SendCommandOp(command: string, write: Result<()>, flush: Result<()>)
    | ProcessExitedOp(exitCode: Result<int>)
    | DisposeOp(hasExited: Result<bool>, wait: WaitOutcome)

  function Apply(s: HostState, op: Op): (t: HostState)
    requires Inv(s)
    ensures Inv(t)
  {
    match op
    case StartOp(e, d, l) => StartStep(s, e, d, l).next
    case ReattachOp(c, p, e, d, f, pl, v, m) => ReattachStep(s, c, p, e, d, f, pl, v, m).next
    case StopOp(w, c) => StopStep(s, w, c).next
    case SendCommandOp(c, w, f) => SendCommandStep(s, c, w, f).next
    case ProcessExitedOp(c) => if s.status == Running then ExitedStep(s, c).next else s
    case DisposeOp(h, c) => DisposeStep(s, h, c).next
  }

  function Run(s: HostState, ops: seq<Op>): (t: HostState)
    requires Inv(s)
    ensures Inv(t)
    decreases |ops|
  {
    if |ops| == 0 then s else Run(Apply(s, ops[0]), ops[1..])
  }

  /** No call ever sets NotStarted again. */
  lemma {:induction false} NeverBackToNotStarted(s: HostState, ops: seq<Op>)
    requires Inv(s) && s.status != NotStarted
    ensures Run(s, ops).status != NotStarted
    decreases |ops|
  {
    if |ops| > 0 {
      NeverBackToNotStarted(Apply(s, ops[0]), ops[1..]);
    }
  }

  /** Along any sequence of calls from a new host, `ReattachAsync` never finds a process to
      release: whenever it runs past its status guard the host holds none. */
  lemma {:induction false} ReattachNeverReleasesPrevious(s: HostState, ops: seq<Op>, i: nat)
    requires Inv(s) && i < |ops| && ops[i].ReattachOp?
    ensures var before := Run(s, ops[..i]);
      var op := ops[i];
      ReattachStep(before, op.config, op.pid, op.executableExists, op.directoryExists, op.found, op.platform, op.view, op.moduleFileName).effects == []
  {
  }

  /** A reattach to a Linux process whose command line is the configured executable followed by
      arguments that join and trim to the configured argument string succeeds, and the host runs
      that pid without passing through Starting. */
  lemma ReattachToMatchingLinuxProcess(config: HostConfig, pid: int, argv: seq<string>, wmiExecutable: Option<string>, wmiCommandLine: Option<string>,
                                       moduleFileName: Result<string>)
    requires |argv| >= 1 && argv[0] == config.executable
    requires forall i :: 0 <= i < |argv| ==> argv[i] != [] && LinuxProcessUtils.Nul !in argv[i]
    requires Text.Trim(Text.JoinWith(" ", argv[1..])) == ArgumentsOrEmpty(config.arguments)
    ensures var view := ProcessUtils.ProcessView(wmiExecutable, wmiCommandLine, Some(LinuxProcessUtils.NulTerminated(argv)));
      var r := ReattachStep(Initial, config, pid, true, true, true, ProcessUtils.Linux, view, moduleFileName);
      r == Step(HostState(Running, Some(Launched(pid)), false, false), [], Ok(()))
  {
    LinuxProcessUtils.CmdlineRoundTrip(argv);
  }

  /** The host of the earlier `ProcessHost`, field for field. */
  class ProcessHost {
    const config: HostConfig
    var status: ProcessStatus
    var process: Option<ProcessObject>
    /** Whether `process` has been disposed, as the `Process` object itself records it. */
    var processReleased: bool
    var disposed: bool
    /** Everything observable the host has done, oldest first. */
    var trace: seq<Effect>

    function State(): HostState
      reads this
    {
      HostState(status, process, processReleased, disposed)
    }

    constructor(config: HostConfig)
      ensures this.config == config && State() == Initial && trace == []
    {
      this.config := config;
      status := NotStarted;
      process := None;
      processReleased := false;
      disposed := false;
      trace := [];
    }

    /** The `ProcessId` property. */
    function ProcessId(): Result<int>
      reads this
    {
      ProcessIdOf(State())
    }

    method Start(executableExists: bool, directoryExists: bool, launch: Launch) returns (r: Result<int>)
      modifies this
      ensures State() == StartStep(old(State()), executableExists, directoryExists, launch).next
      ensures trace == old(trace)
      ensures r == StartStep(old(State()), executableExists, directoryExists, launch).result
    {
      if disposed {
        return Err(ObjectDisposed);
      }
      if status == Starting || status == Running {
        return Err(InvalidOperation);
      }
      status := Starting;
      var paths := ValidatePaths(executableExists, directoryExists);
      if paths.Err? {
        return Err(paths.error);
      }
      process := Some(HeldAfter(launch));
      processReleased := false;
      match launch
      case Threw(e) =>
        return Err(e);
      case ReturnedFalse =>
        status := FailedToStart;
        return Err(InvalidOperation);
      case Started(pid) =>
        status := Running;
        return Ok(pid);
    }

    method ReattachAsync(pid: int, executableExists: bool, directoryExists: bool, found: bool,
                         platform: ProcessUtils.Platform, view: ProcessUtils.ProcessView,
                         moduleFileName: Result<string>) returns (r: Result<()>)
      modifies this
      ensures State() == ReattachStep(old(State()), config, pid, executableExists, directoryExists, found, platform, view, moduleFileName).next
      ensures trace == old(trace) + ReattachStep(old(State()), config, pid, executableExists, directoryExists, found, platform, view, moduleFileName).effects
      ensures r == ReattachStep(old(State()), config, pid, executableExists, directoryExists, found, platform, view, moduleFileName).result
    {
      if disposed {
        return Err(ObjectDisposed);
      }
      if status != NotStarted {
        return Err(InvalidOperation);
      }
      var paths := ValidatePaths(executableExists, directoryExists);
      if paths.Err? {
        return Err(paths.error);
      }
      if !found {
        return Err(Argument);
      }
      var identity := ProcessUtils.GetProcessParameters(platform, view);
      r := TakeOverIfMatching(pid, identity, moduleFileName);
    }

    /** The rest of `ReattachAsync` once the process's parameters have been read. */
    method TakeOverIfMatching(pid: int, identity: Result<ProcessParameters>, moduleFileName: Result<string>)
      returns (r: Result<()>)
      modifies this
      ensures State() == CompareIdentity(old(State()), config, pid, identity, moduleFileName).next
      ensures trace == old(trace) + CompareIdentity(old(State()), config, pid, identity, moduleFileName).effects
      ensures r == CompareIdentity(old(State()), config, pid, identity, moduleFileName).result
    {
      if identity.Err? {
        return Err(identity.error);
      }
      if identity.value.executable != config.executable {
        return Err(if moduleFileName.Err? then moduleFileName.error else InvalidOperation);
      }
      if identity.value.arguments != ArgumentsOrEmpty(config.arguments) {
        return Err(InvalidOperation);
      }
      if process.Some? {
        trace := trace + [Unsubscribed, ProcessReleased];
      }
      process, processReleased, status := Some(Launched(pid)), false, Running;
      return Ok(());
    }

    method StopAsync(waitForExit: TimeSpan, wait: WaitOutcome) returns (r: Result<()>)
      modifies this
      ensures State() == StopStep(old(State()), waitForExit, wait).next
      ensures trace == old(trace) + StopStep(old(State()), waitForExit, wait).effects
      ensures r == StopStep(old(State()), waitForExit, wait).result
    {
      if disposed {
        return Err(ObjectDisposed);
      }
      var loggedId := HeldId(State());
      if loggedId.Err? {
        return Err(loggedId.error);
      }
      if status == Starting {
        var i := WaitForExitRetries - 1;
        while i >= 0
          invariant -1 <= i < WaitForExitRetries
          invariant State() == old(State())
          invariant trace == old(trace) + Repeat(Delayed(WaitForExitDelayInMs), WaitForExitRetries - 1 - i)
        {
          if status == Starting {
            RepeatSnoc(Delayed(WaitForExitDelayInMs), WaitForExitRetries - 1 - i);
            trace := trace + [Delayed(WaitForExitDelayInMs)];
          }
          i := i - 1;
        }
      }
      if status != Running || process.None? {
        return Ok(());
      }
      r := KillAndWait(waitForExit, wait);
    }

    /** The `try`/`finally` of `StopAsync` for a running process. */
    method KillAndWait(waitForExit: TimeSpan, wait: WaitOutcome) returns (r: Result<()>)
      requires status == Running && Attached(State())
      modifies this
      ensures State() == KillAndWaitStep(old(State()), waitForExit, wait).next
      ensures trace == old(trace) + KillAndWaitStep(old(State()), waitForExit, wait).effects
      ensures r == KillAndWaitStep(old(State()), waitForExit, wait).result
    {
      ghost var s0 := State();
      ghost var heard := if CallbackInWait(waitForExit, wait) then ExitedStep(s0, wait.exitCode) else Step(s0, [], Ok(()));
      trace := trace + [Killed(true)];
      var accepted := CancelAfterAccepts(waitForExit);
      if accepted {
        trace := trace + [WaitedForExit(waitForExit)];
        if wait.ExitHeard? {
          var _ := OnProcessExited(wait.exitCode);
        }
      }
      ghost var done := [Killed(true)] + (if accepted then [WaitedForExit(waitForExit)] else []) + heard.effects;
      assert State() == heard.next && trace == old(trace) + done;
      trace := trace + [Unsubscribed, ProcessReleased];
      done := done + [Unsubscribed, ProcessReleased];
      assert trace == old(trace) + done;
      processReleased := true;
      status := Exited;
      r := if !accepted then Err(ArgumentOutOfRange) else if wait.TimedOut? then Err(OperationCanceled) else Ok(());
    }

    /** The parameterless `StopAsync()`. */
    method StopAsyncDefault(wait: WaitOutcome) returns (r: Result<()>)
      modifies this
      ensures State() == StopStep(old(State()), FromSeconds(10000), wait).next
      ensures trace == old(trace) + StopStep(old(State()), FromSeconds(10000), wait).effects
      ensures r == StopStep(old(State()), FromSeconds(10000), wait).result
    {
      r := StopAsync(DefaultStopTimeout, wait);
    }

    method SendCommandAsync(command: string, write: Result<()>, flush: Result<()>) returns (r: Result<()>)
      modifies this
      ensures State() == old(State())
      ensures trace == old(trace) + SendCommandStep(old(State()), command, write, flush).effects
      ensures r == SendCommandStep(old(State()), command, write, flush).result
    {
      if disposed {
        return Err(ObjectDisposed);
      }
      var loggedId := HeldId(State());
      if loggedId.Err? {
        return Err(loggedId.error);
      }
      if status != Running || process.None? {
        return Err(InvalidOperation);
      }
      trace := trace + [WroteLine(command)];
      if write.Err? {
        return write;
      }
      trace := trace + [Flushed];
      return flush;
    }

    method OnProcessExited(exitCode: Result<int>) returns (r: Result<()>)
      requires status == Running && Attached(State())
      modifies this
      ensures State() == ExitedStep(old(State()), exitCode).next
      ensures trace == old(trace) + ExitedStep(old(State()), exitCode).effects
      ensures r == ExitedStep(old(State()), exitCode).result
    {
      status := Exited;
      if exitCode.Err? {
        return Err(exitCode.error);
      }
      trace := trace + [RaisedExited(Some(exitCode.value))];
      return Ok(());
    }

    method DisposeAsync(hasExited: Result<bool>, wait: WaitOutcome) returns (r: Result<()>)
      modifies this
      ensures State() == DisposeStep(old(State()), hasExited, wait).next
      ensures trace == old(trace) + DisposeStep(old(State()), hasExited, wait).effects
      ensures r == DisposeStep(old(State()), hasExited, wait).result
    {
      if disposed {
        return Ok(());
      }
      if process.None? {
        return Ok(());
      }
      var exited := HasExitedRead(State(), hasExited);
      if exited.Err? {
        return Err(exited.error);
      }
      if !exited.value {
        var stopped := StopAsyncDefault(wait);
        if stopped.Err? {
          var loggedId := HeldId(State());
          if loggedId.Err? {
            return Err(loggedId.error);
          }
        }
      }
      disposed := true;
      return Ok(());
    }
  }
}
