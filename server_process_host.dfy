/** `Services.Lifecycle.ServerProcessHost`: a decorator over `OsProcesses.ProcessHost` that keeps
    every output line of the server in a replay buffer, completes the buffer when the process
    exits, and passes on the host's `Status` and `ProcessId` change notifications.

    The host raises its events synchronously, so the decorator's handlers run inside the host's
    calls, in the order of the host's effects. `Deliver` is one handler invocation; `DeliverAll`
    is what a host call's effects do to the decorator while it is subscribed. */
module Lifecycle {
  import opened Wrappers
  import opened TimeSpans
  import opened ProcessTypes
  import OsProcesses

  /** `m_outputBuffer` (its retained lines, whether it is completed, whether it is disposed),
      `m_disposed`, whether the four handlers are subscribed to the host, and the names of the
      `PropertyChanged` events the decorator has raised. */
  datatype DecoratorState = DecoratorState(
    lines: seq<string>, completed: bool, bufferDisposed: bool, disposed: bool, subscribed: bool, raised: seq<string>)

  /** Right after construction: subscribed, with an empty buffer. */
  const Fresh: DecoratorState := DecoratorState([], false, false, false, true, [])

  /** `ProcessHost_OutputReceived`, the handler of both `OutputReceived` and `ErrorReceived`.
      A completed `ReplaySubject` ignores further values. */
  function OnOutputReceived(d: DecoratorState, data: Option<string>): DecoratorState {
    if d.disposed || data.None? || d.completed then d
    else d.(lines := d.lines + [data.value])
  }

  /** `ProcessHost_Exited`. */
  function OnExited(d: DecoratorState): DecoratorState {
    if d.disposed then d else d.(completed := true)
  }

  /** The property names the decorator passes on: `nameof(Status)` and `nameof(ProcessId)`. */
  predicate IsForwarded(propertyName: string) {
    propertyName == OsProcesses.StatusProperty || propertyName == OsProcesses.ProcessIdProperty
  }

  /** `ProcessHost_PropertyChanged`. */
  function OnPropertyChanged(d: DecoratorState, propertyName: string): DecoratorState {
    if IsForwarded(propertyName) then d.(raised := d.raised + [propertyName]) else d
  }

  /** One effect of the host, as the decorator's handlers see it. */
  function Deliver(d: DecoratorState, e: OsProcesses.Effect): DecoratorState {
    if !d.subscribed then d
    else match e
      case RaisedOutput(_, data) => OnOutputReceived(d, data)
      case RaisedError(_, data) => OnOutputReceived(d, data)
      case RaisedExited(_) => OnExited(d)
      case Notified(name) => OnPropertyChanged(d, name)
      case _ => d
  }

  /** The host's effects delivered one after the other, in order. */
  function DeliverAll(d: DecoratorState, es: seq<OsProcesses.Effect>): (r: DecoratorState)
    ensures r.disposed == d.disposed && r.subscribed == d.subscribed && r.bufferDisposed == d.bufferDisposed
    ensures |d.lines| <= |r.lines| && r.lines[..|d.lines|] == d.lines
    ensures d.completed ==> r.completed && r.lines == d.lines
    ensures !d.subscribed ==> r == d
    ensures d.disposed ==> r.lines == d.lines && r.completed == d.completed
    ensures |d.raised| <= |r.raised| && r.raised[..|d.raised|] == d.raised
    ensures forall i :: |d.raised| <= i < |r.raised| ==> IsForwarded(r.raised[i])
    decreases |es|
  {
    if |es| == 0 then d else Deliver(DeliverAll(d, es[..|es| - 1]), es[|es| - 1])
  }

  /** The lines the host reports, from standard output and standard error alike, in order;
      end-of-stream markers (null data) carry no line. */
  function OutputData(es: seq<OsProcesses.Effect>): seq<string> {
    if |es| == 0 then []
    else
      var last := es[|es| - 1];
      var data := if (last.RaisedOutput? || last.RaisedError?) && last.data.Some? then [last.data.value] else [];
      OutputData(es[..|es| - 1]) + data
  }

  /** The property names among the host's notifications that the decorator passes on, in order. */
  function ForwardedNames(es: seq<OsProcesses.Effect>): seq<string> {
    if |es| == 0 then []
    else
      var last := es[|es| - 1];
      ForwardedNames(es[..|es| - 1]) + (if last.Notified? && IsForwarded(last.propertyName) then [last.propertyName] else [])
  }

  /** Effects no handler listens to leave the decorator as it is. */
  lemma {:induction false} UnheardEffects(d: DecoratorState, es: seq<OsProcesses.Effect>)
    requires forall i :: 0 <= i < |es| ==> es[i].WroteLine? || es[i].Flushed?
    ensures DeliverAll(d, es) == d
    decreases |es|
  {
    if |es| > 0 {
      UnheardEffects(d, es[..|es| - 1]);
    }
  }

  /** While subscribed, not disposed and not yet completed, and until an exit is reported, every
      line the host reports is appended to the buffer, in order, and nothing else is. */
  lemma {:induction false} LinesInArrivalOrder(d: DecoratorState, es: seq<OsProcesses.Effect>)
    requires d.subscribed && !d.disposed && !d.completed
    requires forall i :: 0 <= i < |es| ==> !es[i].RaisedExited?
    ensures DeliverAll(d, es).lines == d.lines + OutputData(es)
    ensures !DeliverAll(d, es).completed
    decreases |es|
  {
    if |es| > 0 {
      LinesInArrivalOrder(d, es[..|es| - 1]);
    }
  }

  /** While subscribed, the decorator raises exactly the host's `Status` and `ProcessId`
      notifications, in order, whether or not it is disposed. */
  lemma {:induction false} NotificationsForwarded(d: DecoratorState, es: seq<OsProcesses.Effect>)
    requires d.subscribed
    ensures DeliverAll(d, es).raised == d.raised + ForwardedNames(es)
    decreases |es|
  {
    if |es| > 0 {
      var init, last := es[..|es| - 1], es[|es| - 1];
      NotificationsForwarded(d, init);
      var m := DeliverAll(d, init);
      assert DeliverAll(d, es) == Deliver(m, last);
      if last.Notified? && IsForwarded(last.propertyName) {
        assert Deliver(m, last).raised == m.raised + [last.propertyName];
      } else {
        assert Deliver(m, last).raised == m.raised;
      }
    }
  }

  /** Once the host reports an exit, the buffer is completed, unless the decorator is disposed. */
  lemma {:induction false} ExitCompletes(d: DecoratorState, es: seq<OsProcesses.Effect>, i: nat)
    requires d.subscribed && !d.disposed
    requires i < |es| && es[i].RaisedExited?
    ensures DeliverAll(d, es).completed
    decreases |es|
  {
    if i < |es| - 1 {
      ExitCompletes(d, es[..|es| - 1], i);
    }
  }

  /** A successful start, seen through the decorator: it raises `Status`, `ProcessId`, `Status`. */
  lemma StartRaisesStatusAndProcessId(pid: int)
    ensures DeliverAll(Fresh, OsProcesses.StartStep(OsProcesses.Initial, true, true, Started(pid)).effects).raised
         == [OsProcesses.StatusProperty, OsProcesses.ProcessIdProperty, OsProcesses.StatusProperty]
  {
    var es := OsProcesses.StartStep(OsProcesses.Initial, true, true, Started(pid)).effects;
    NotificationsForwarded(Fresh, es);
    assert es == [OsProcesses.Notified(OsProcesses.StatusProperty), OsProcesses.Notified(OsProcesses.ProcessIdProperty),
                  OsProcesses.Notified(OsProcesses.StatusProperty)];
    assert es[..1][..0] == [];
    assert ForwardedNames(es[..1]) == [OsProcesses.StatusProperty];
    assert es[..2][..1] == es[..1];
    assert ForwardedNames(es[..2]) == [OsProcesses.StatusProperty, OsProcesses.ProcessIdProperty];
    assert es[..2] == es[..|es| - 1];
  }

  /** The host's exit handler completes the buffer of a live, subscribed decorator. */
  lemma ProcessExitCompletesBuffer(d: DecoratorState, s: OsProcesses.HostState, exitCode: Result<int>)
    requires d.subscribed && !d.disposed
    requires OsProcesses.Inv(s) && s.status == Running && OsProcesses.Attached(s) && !s.disposed
    ensures DeliverAll(d, OsProcesses.ExitedStep(s, exitCode).effects).completed
  {
    ExitCompletes(d, OsProcesses.ExitedStep(s, exitCode).effects, 2);
  }

  /** Stopping a running host completes the buffer of a live, subscribed decorator when the exit
      callback runs inside the wait, and leaves it open otherwise: the host reports the exit
      only through that callback. */
  lemma StopCompletesBuffer(d: DecoratorState, s: OsProcesses.HostState, waitForExit: TimeSpan, wait: WaitOutcome)
    requires d.subscribed && !d.disposed && !d.completed
    requires OsProcesses.Inv(s) && s.status == Running && !s.disposed
    ensures DeliverAll(d, OsProcesses.StopStep(s, waitForExit, wait).effects).completed <==> CallbackInWait(waitForExit, wait)
  {
    var es := OsProcesses.StopStep(s, waitForExit, wait).effects;
    if CallbackInWait(waitForExit, wait) {
      assert es[4].RaisedExited?;
      ExitCompletes(d, es, 4);
    } else {
      assert forall i :: 0 <= i < |es| ==> !es[i].RaisedExited?;
      LinesInArrivalOrder(d, es);
    }
  }

  /** What `GetOutputBufferAsync` enumerates: the retained lines from the first onward, and then
      either the end of the sequence (completed) or a wait for more. */
  datatype OutputBuffer = OutputBuffer(lines: seq<string>, completed: bool)

  /** `GetOutputBufferAsync`. */
  function GetOutputBuffer(d: DecoratorState): (r: Result<OutputBuffer>)
    ensures r.Err? <==> d.disposed
    ensures r.Err? ==> r.error == ObjectDisposed
    ensures r.Ok? ==> r.value.lines == d.lines && r.value.completed == d.completed
  {
    if d.disposed then Err(ObjectDisposed) else Ok(OutputBuffer(d.lines, d.completed))
  }

  /** `DisposeAsync` of the decorator, as a state change: the handlers are removed before the
      host is disposed, so nothing the host does while being disposed reaches the decorator. */
  function DisposeDecorator(d: DecoratorState): (r: DecoratorState)
    ensures r.disposed
    ensures r.lines == d.lines && r.completed == d.completed && r.raised == d.raised
    ensures !d.disposed ==> !r.subscribed && r.bufferDisposed
  {
    if d.disposed then d
    else d.(subscribed := false, bufferDisposed := true, disposed := true)
  }

  /** Disposing twice is disposing once, and a disposed decorator refuses its buffer. */
  lemma DisposeIdempotent(d: DecoratorState)
    ensures DisposeDecorator(DisposeDecorator(d)) == DisposeDecorator(d)
    ensures GetOutputBuffer(DisposeDecorator(d)) == Err(ObjectDisposed)
  {
  }

  class ServerProcessHost {
    const host: OsProcesses.ProcessHost
    var lines: seq<string>
    var completed: bool
    var bufferDisposed: bool
    var disposed: bool
    var subscribed: bool
    var raised: seq<string>

    function View(): DecoratorState
      reads this
    {
      DecoratorState(lines, completed, bufferDisposed, disposed, subscribed, raised)
    }

    /** Subscribes the four handlers and creates the buffer. */
    constructor(host: OsProcesses.ProcessHost)
      ensures this.host == host && View() == Fresh
    {
      this.host := host;
      lines := [];
      completed := false;
      bufferDisposed := false;
      disposed := false;
      subscribed := true;
      raised := [];
    }

    /** `Status`, read straight from the host. */
    function Status(): ProcessStatus
      reads this, host
    {
      host.status
    }

    /** `ProcessId`, read straight from the host. */
    function ProcessId(): Result<int>
      reads this, host
    {
      host.ProcessId()
    }

    method ProcessHostOutputReceived(data: Option<string>)
      modifies this
      ensures View() == OnOutputReceived(old(View()), data)
    {
      if disposed {
        return;
      }
      if data.None? {
        return;
      }
      if !completed {
        lines := lines + [data.value];
      }
    }

    method ProcessHostExited()
      modifies this
      ensures View() == OnExited(old(View()))
    {
      if disposed {
        return;
      }
      completed := true;
    }

    method ProcessHostPropertyChanged(propertyName: string)
      modifies this
      ensures View() == OnPropertyChanged(old(View()), propertyName)
    {
      if propertyName == OsProcesses.StatusProperty || propertyName == OsProcesses.ProcessIdProperty {
        raised := raised + [propertyName];
      }
    }

    /** The host raising `es`, one event after the other, to whichever handlers are subscribed. */
    method Receive(es: seq<OsProcesses.Effect>)
      modifies this
      ensures View() == DeliverAll(old(View()), es)
    {
      var i := 0;
      while i < |es|
        invariant 0 <= i <= |es|
        invariant View() == DeliverAll(old(View()), es[..i])
      {
        assert es[..i + 1][..i] == es[..i];
        if subscribed {
          match es[i]
          case RaisedOutput(_, data) => ProcessHostOutputReceived(data);
          case RaisedError(_, data) => ProcessHostOutputReceived(data);
          case RaisedExited(_) => ProcessHostExited();
          case Notified(name) => ProcessHostPropertyChanged(name);
          case _ =>
        }
        i := i + 1;
      }
      assert es[..|es|] == es;
    }

    /** `Start()`, forwarded. */
    method Start(executableExists: bool, directoryExists: bool, launch: Launch) returns (r: Result<int>)
      modifies this, host
      ensures host.State() == OsProcesses.StartStep(old(host.State()), executableExists, directoryExists, launch).next
      ensures host.trace == old(host.trace) + OsProcesses.StartStep(old(host.State()), executableExists, directoryExists, launch).effects
      ensures r == OsProcesses.StartStep(old(host.State()), executableExists, directoryExists, launch).result
      ensures View() == DeliverAll(old(View()), OsProcesses.StartStep(old(host.State()), executableExists, directoryExists, launch).effects)
    {
      var before := host.trace;
      r := host.Start(executableExists, directoryExists, launch);
      Receive(host.trace[|before|..]);
    }

    /** `StopAsync(waitForExit)`, forwarded. */
    method StopAsync(waitForExit: TimeSpan, wait: WaitOutcome) returns (r: Result<()>)
      modifies this, host
      ensures host.State() == OsProcesses.StopStep(old(host.State()), waitForExit, wait).next
      ensures host.trace == old(host.trace) + OsProcesses.StopStep(old(host.State()), waitForExit, wait).effects
      ensures r == OsProcesses.StopStep(old(host.State()), waitForExit, wait).result
      ensures View() == DeliverAll(old(View()), OsProcesses.StopStep(old(host.State()), waitForExit, wait).effects)
    {
      var before := host.trace;
      r := host.StopAsync(waitForExit, wait);
      Receive(host.trace[|before|..]);
    }

    /** The parameterless `StopAsync()`, forwarded to the host's parameterless overload. */
    method StopAsyncDefault(wait: WaitOutcome) returns (r: Result<()>)
      modifies this, host
      ensures host.State() == OsProcesses.StopStep(old(host.State()), FromSeconds(10000), wait).next
      ensures host.trace == old(host.trace) + OsProcesses.StopStep(old(host.State()), FromSeconds(10000), wait).effects
      ensures r == OsProcesses.StopStep(old(host.State()), FromSeconds(10000), wait).result
      ensures View() == DeliverAll(old(View()), OsProcesses.StopStep(old(host.State()), FromSeconds(10000), wait).effects)
    {
      var before := host.trace;
      r := host.StopAsyncDefault(wait);
      Receive(host.trace[|before|..]);
    }

    /** `SendCommandAsync(command)`, forwarded; the host raises nothing here. */
    method SendCommandAsync(command: string, write: Result<()>, flush: Result<()>) returns (r: Result<()>)
      modifies this, host
      ensures host.State() == old(host.State())
      ensures host.trace == old(host.trace) + OsProcesses.SendCommandStep(old(host.State()), command, write, flush).effects
      ensures r == OsProcesses.SendCommandStep(old(host.State()), command, write, flush).result
      ensures View() == old(View())
    {
      var before := host.trace;
      r := host.SendCommandAsync(command, write, flush);
      Receive(host.trace[|before|..]);
      UnheardEffects(old(View()), OsProcesses.SendCommandStep(old(host.State()), command, write, flush).effects);
    }

    /** The operating system reporting that the process exited: the host's handler runs, and its
      events reach the decorator. */
    method HostProcessExited(exitCode: Result<int>)
      requires host.status == Running && OsProcesses.Attached(host.State())
      modifies this, host
      ensures host.State() == OsProcesses.ExitedStep(old(host.State()), exitCode).next
      ensures View() == DeliverAll(old(View()), OsProcesses.ExitedStep(old(host.State()), exitCode).effects)
    {
      var before := host.trace;
      host.OnProcessExited(exitCode);
      Receive(host.trace[|before|..]);
    }

    /** A line (or the end of stream) on the process's standard output. */
    method HostDataReceived(data: Option<string>)
      requires OsProcesses.Attached(host.State())
      modifies this, host
      ensures host.State() == old(host.State())
      ensures View() == DeliverAll(old(View()), OsProcesses.OutputStep(old(host.State()), data).effects)
    {
      var before := host.trace;
      host.OnDataReceived(data);
      Receive(host.trace[|before|..]);
    }

    /** A line (or the end of stream) on the process's standard error: same buffer. */
    method HostErrorReceived(data: Option<string>)
      requires OsProcesses.Attached(host.State())
      modifies this, host
      ensures host.State() == old(host.State())
      ensures View() == DeliverAll(old(View()), OsProcesses.ErrorOutputStep(old(host.State()), data).effects)
    {
      var before := host.trace;
      host.OnErrorReceived(data);
      Receive(host.trace[|before|..]);
    }

    /** `GetOutputBufferAsync()`. */
    method GetOutputBufferAsync() returns (r: Result<OutputBuffer>)
      ensures r == GetOutputBuffer(View())
    {
      if disposed {
        return Err(ObjectDisposed);
      }
      return Ok(OutputBuffer(lines, completed));
    }

    /** `DisposeAsync()`: the host's disposal never throws, so the `catch` is never entered and
      the buffer is always disposed before the flag is set. */
    method DisposeAsync(hasExited: Result<bool>, wait: WaitOutcome)
      modifies this, host
      ensures View() == DisposeDecorator(old(View()))
      ensures old(disposed) ==> host.State() == old(host.State()) && host.trace == old(host.trace)
      ensures !old(disposed) ==> host.State() == OsProcesses.DisposeStep(old(host.State()), hasExited, wait).next
    {
      if disposed {
        return;
      }
      subscribed := false;
      var before := host.trace;
      host.DisposeAsync(hasExited, wait);
      Receive(host.trace[|before|..]);
      bufferDisposed := true;
      disposed := true;
    }
  }
}
