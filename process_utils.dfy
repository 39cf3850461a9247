/** `Infrastructure.OS.Utils.ProcessUtils`: platform dispatch for the identity of a process, and
    the exit-code read with its Linux fallback. What each platform's probes return is an input. */
module ProcessUtils {
  import opened Wrappers
  import opened ProcessTypes
  import Win32ProcessUtils
  import LinuxProcessUtils
  import Text

  /** `OperatingSystem.IsWindows()` / `IsLinux()` / neither. */
  datatype Platform = Windows | Linux | OtherPlatform

  /** What the platform probes find for one pid: the WMI `ExecutablePath` and `CommandLine`
      (Windows) and the content of `/proc/<pid>/cmdline` (Linux); `None` where nothing was read. */
  datatype ProcessView = ProcessView(wmiExecutable: Option<string>, wmiCommandLine: Option<string>, procCmdline: Option<string>)

  /** `GetGetProcessParametersAsync(pid)`. */
  function GetProcessParameters(platform: Platform, view: ProcessView): (r: Result<ProcessParameters>)
    ensures platform == Windows ==> r == Win32ProcessUtils.GetProcessParameters(view.wmiExecutable, view.wmiCommandLine)
    ensures platform == Linux ==> r == LinuxProcessUtils.ParametersFromCmdline(view.procCmdline)
    ensures r == Err(PlatformNotSupported) <==> platform == OtherPlatform
  {
    match platform
    case Windows => Win32ProcessUtils.GetProcessParameters(view.wmiExecutable, view.wmiCommandLine)
    case Linux => LinuxProcessUtils.ParametersFromCmdline(view.procCmdline)
    case OtherPlatform => Err(PlatformNotSupported)
  }

  /** `GetExitCodeAsync(process)`: `primary` is the outcome of reading `Process.ExitCode` and
      `stat` the content of `/proc/<pid>/stat`. The `catch ... when (IsLinux())` filter lets the
      primary error through unchanged elsewhere; on Linux a failing fallback is wrapped together
      with the primary error, fallback first. */
  function GetExitCode(platform: Platform, primary: Result<int>, stat: Option<string>): (r: Result<int>)
    ensures primary.Ok? ==> r == primary
    ensures primary.Err? && platform != Linux ==> r == primary
    ensures primary.Err? && platform == Linux && LinuxProcessUtils.ExitCodeFromStat(stat).Ok? ==>
      r == LinuxProcessUtils.ExitCodeFromStat(stat)
    ensures primary.Err? && platform == Linux && LinuxProcessUtils.ExitCodeFromStat(stat).Err? ==>
      r == Err(Aggregate([LinuxProcessUtils.ExitCodeFromStat(stat).error, primary.error]))
  {
    match primary
    case Ok(code) => Ok(code)
    case Err(ex) =>
      if platform != Linux then Err(ex)
      else match LinuxProcessUtils.ExitCodeFromStat(stat)
        case Ok(code) => Ok(code)
        case Err(linuxEx) => Err(Aggregate([linuxEx, ex]))
  }

  /** Either read succeeds or the error says which ones failed: a code comes from the primary
      read or, on Linux only, from the stat fallback, where it lies in 0..255. */
  lemma ExitCodeSources(platform: Platform, primary: Result<int>, stat: Option<string>)
    ensures var r := GetExitCode(platform, primary, stat);
      && (r.Ok? <==> primary.Ok? || (platform == Linux && LinuxProcessUtils.ExitCodeFromStat(stat).Ok?))
      && (r.Ok? && primary.Err? ==> 0 <= r.value <= 255)
      && (r.Err? && r.error.Aggregate? && !primary.error.Aggregate? ==> platform == Linux && |r.error.inner| == 2)
  {
  }

  /** On Linux, a process whose exit code cannot be read directly, and whose stat line carries
      the decimal text of a 32-bit value `v` as its 14th field, is reported with the high byte of
      `v` as its exit code. */
  lemma LinuxFallbackRecoversCode(primaryError: Error, fields: seq<string>, v: int)
    requires |fields| >= 14
    requires forall i :: 0 <= i < |fields| ==> fields[i] != [] && ' ' !in fields[i]
    requires LinuxProcessUtils.IsInt32(v) && fields[13] == LinuxProcessUtils.Decimal(v)
    ensures GetExitCode(Linux, Err(primaryError), Some(Text.JoinWith(" ", fields)))
         == Ok(LinuxProcessUtils.HighByte(v))
  {
    LinuxProcessUtils.StatRoundTrip(fields, v);
  }
}
