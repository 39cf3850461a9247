/** `Services.Configuration.Defaults.GlobalSettingsDefaults`: the settings a fresh installation
    starts from, and the checks its constants are meant to pass. */
module GlobalSettingsDefaults {
  import opened TimeSpans
  import opened Text

  /** `Contracts.Configuration.TurnOffMessage`: a message sent to players some time before a stop. */
  datatype TurnOffMessage = TurnOffMessage(beforeStop: TimeSpan, message: string)

  /** `Contracts.Configuration.GlobalSettings`, in constructor order. */
  datatype GlobalSettings = GlobalSettings(
    defaultBackupRoot: string,
    defaultServersRoot: string,
    defaultJdksRoot: string,
    logTailKBDefault: nat,
    turnOffMessages: seq<TurnOffMessage>,
    crashLoopCount: nat,
    crashLoopWindow: TimeSpan,
    jdkScanCron: string,
    modLoaderScanCron: string)

  const DefaultBackupRoot: string := "/backups"
  const DefaultServersRoot: string := "/instances"
  const DefaultJdksRoot: string := "/jdks"
  const LogTailKBDefault: nat := 1024
  const TurnOffMessages: seq<TurnOffMessage> := []
  const CrashLoopCount: nat := 3
  const CrashLoopWindow: TimeSpan := FromMinutes(10)
  /** 03:00 on the first day of every month. */
  const JdkScanCron: string := "0 0 3 1 * ?"
  /** 03:00 every Sunday. */
  const ModLoaderScanCron: string := "0 0 3 ? * SUN"

  /** The range of a C# `uint`. */
  predicate IsUInt32(n: int) {
    0 <= n < 0x1_0000_0000
  }

  /** `Path.IsPathRooted` for a path that starts with a directory separator. */
  predicate IsPathRooted(path: string) {
    |path| > 0 && (path[0] == '/' || path[0] == '\\')
  }

  /** Characters Windows refuses in folder names. */
  const WindowsForbidden: set<char> := {'<', '>', ':', '"', '\\', '|', '?', '*'}
  /** Characters a shell would interpret. */
  const ShellForbidden: set<char> := {';', '|', '&', '>', '<', '\'', '"'}

  /** The characters `Path.GetInvalidPathChars()` may report: the control characters, of which
      Linux reports only NUL. */
  predicate IsInvalidPathChar(c: char) {
    c < ' '
  }

  /** What a default root must satisfy: rooted, no parent step, and none of the refused
      characters. */
  predicate IsSafeRoot(path: string) {
    && IsPathRooted(path)
    && !Contains(path, "..")
    && NoneOf(path, WindowsForbidden)
    && NoneOf(path, ShellForbidden)
    && (forall i :: 0 <= i < |path| ==> !IsInvalidPathChar(path[i]))
  }

  /** A path without a dot has no `..` in it. */
  lemma NoDotNoParentStep(path: string)
    requires NoneOf(path, {'.'})
    ensures !Contains(path, "..")
  {
    forall i | 0 <= i <= |path| - 2
      ensures !OccursAt(path, "..", i)
    {
      assert path[i..i + 2][0] == path[i];
    }
  }

  /** A rooted path of lower-case letters and slashes passes every check. */
  lemma PlainPathIsSafe(path: string)
    requires |path| > 0 && path[0] == '/'
    requires forall i :: 0 <= i < |path| ==> path[i] == '/' || 'a' <= path[i] <= 'z'
    ensures IsSafeRoot(path)
  {
    NoDotNoParentStep(path);
  }

  /** `Instance`: the constants, in constructor order. */
  function Instance(): (g: GlobalSettings)
    ensures g.defaultBackupRoot == DefaultBackupRoot && g.defaultServersRoot == DefaultServersRoot
    ensures g.defaultJdksRoot == DefaultJdksRoot && g.jdkScanCron == JdkScanCron && g.modLoaderScanCron == ModLoaderScanCron
    ensures g.turnOffMessages == []
    ensures IsUInt32(g.logTailKBDefault) && g.logTailKBDefault > 512
    ensures IsUInt32(g.crashLoopCount) && g.crashLoopCount > 1
    ensures Longer(g.crashLoopWindow, FromSeconds(30))
    ensures IsSafeRoot(g.defaultBackupRoot) && IsSafeRoot(g.defaultServersRoot) && IsSafeRoot(g.defaultJdksRoot)
  {
    PlainPathIsSafe(DefaultBackupRoot);
    PlainPathIsSafe(DefaultServersRoot);
    PlainPathIsSafe(DefaultJdksRoot);
    GlobalSettings(
      DefaultBackupRoot, DefaultServersRoot, DefaultJdksRoot, LogTailKBDefault, TurnOffMessages,
      CrashLoopCount, CrashLoopWindow, JdkScanCron, ModLoaderScanCron)
  }
}
