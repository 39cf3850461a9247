/** Optional values, the exceptions the modelled code throws, and results that carry them. */
module Wrappers {

  /** A nullable value: `None` stands for C#'s `null`. */
  datatype Option<+T> = None | Some(value: T)

  /** The .NET exception types the modelled code throws or lets through. */
  datatype Error =
    | InvalidOperation        // InvalidOperationException
    | ObjectDisposed          // ObjectDisposedException
    | FileNotFound            // FileNotFoundException
    | DirectoryNotFound       // DirectoryNotFoundException
    | ArgumentOutOfRange      // ArgumentOutOfRangeException (a bad slice or Substring)
    | Argument                // ArgumentException (Process.GetProcessById on an unknown pid)
    | ArgumentNull            // ArgumentNullException
    | PlatformNotSupported    // PlatformNotSupportedException
    | OperationCanceled       // the bounded wait for exit was cancelled or timed out
    | Win32                   // Win32Exception (Process.Start could not run the executable)
    | Aggregate(inner: seq<Error>)  // AggregateException, inner exceptions in order

  /** Either a value or the exception that was thrown instead. */
  datatype Result<+T> = Ok(value: T) | Err(error: Error)
}

/** .NET `TimeSpan` values, counted in ticks of 100 nanoseconds. */
module TimeSpans {

  datatype TimeSpan = TimeSpan(ticks: int)

  const TicksPerMillisecond: int := 10_000
  const TicksPerSecond: int := 1000 * TicksPerMillisecond
  const TicksPerMinute: int := 60 * TicksPerSecond

  function FromMilliseconds(ms: int): (t: TimeSpan)
    ensures t.ticks == ms * TicksPerMillisecond
  {
    TimeSpan(ms * TicksPerMillisecond)
  }

  function FromSeconds(s: int): (t: TimeSpan)
    ensures t == FromMilliseconds(1000 * s)
  {
    TimeSpan(s * TicksPerSecond)
  }

  function FromMinutes(m: int): (t: TimeSpan)
    ensures t == FromSeconds(60 * m)
  {
    TimeSpan(m * TicksPerMinute)
  }

  predicate Longer(a: TimeSpan, b: TimeSpan) {
    a.ticks > b.ticks
  }
}
