/** `Infrastructure.OS.Utils.WindowsProcessUtils` (the `Substring` copy): recovering the argument
    string of a process from its WMI `ExecutablePath` and `CommandLine`. The WMI query and its
    result scan are not part of this model: the two values it leaves behind are the inputs. */
module Win32ProcessUtils {
  import opened Wrappers
  import opened Text
  import opened ProcessTypes
  import opened StringExtensions

  /** `s.Substring(start, length)` with its argument checks. */
  function Substring(s: string, start: int, length: int): (r: Result<string>)
    ensures r.Ok? <==> 0 <= start && 0 <= length && start + length <= |s|
    ensures r.Ok? ==> |r.value| == length && r.value == s[start..start + length]
    ensures r.Err? ==> r.error == ArgumentOutOfRange
  {
    if 0 <= start && 0 <= length && start + length <= |s| then Ok(s[start..start + length])
    else Err(ArgumentOutOfRange)
  }

  /** The split after the blank check: the text before the first occurrence of the executable
      is taken as an opening marker, its reversal is searched for from the executable's start,
      and the trimmed text after that closing marker is the argument string. */
  function SplitArguments(executable: string, commandLine: string): (r: Result<string>)
    ensures r.Err? <==> IndexOf(commandLine, executable, 0) == -1
    ensures r.Err? ==> r.error == ArgumentOutOfRange
    ensures r.Ok? ==> exists k :: 0 <= k <= |commandLine| && r.value == Trim(commandLine[k..])
  {
    var executableStart := IndexOf(commandLine, executable, 0);
    match Substring(commandLine, 0, executableStart)
    case Err(e) => Err(e)
    case Ok(beginQuotes) =>
      var endQuotes := Reversed(beginQuotes);
      ReversedLength(beginQuotes);
      var endQuotesStart := IndexOf(commandLine, endQuotes, executableStart);
      var argsStart := endQuotesStart + |endQuotes|;
      match Substring(commandLine, argsStart, |commandLine| - argsStart)
      case Err(e) => assert false; Err(e)
      case Ok(args) =>
        assert args == commandLine[argsStart..];
        Ok(Trim(args))
  }

  /** `GetProcessParameters` after the WMI scan. */
  function GetProcessParameters(executable: Option<string>, commandLine: Option<string>): (r: Result<ProcessParameters>)
    ensures IsNullOrWhiteSpace(executable) || IsNullOrWhiteSpace(commandLine) ==> r == Err(InvalidOperation)
    ensures !IsNullOrWhiteSpace(executable) && !IsNullOrWhiteSpace(commandLine) ==>
      (r.Err? <==> IndexOf(commandLine.value, executable.value, 0) == -1)
    ensures r.Err? && !IsNullOrWhiteSpace(executable) && !IsNullOrWhiteSpace(commandLine) ==> r.error == ArgumentOutOfRange
    ensures r.Ok? ==> r.value.executable == executable.value
    ensures r.Ok? ==> exists k :: 0 <= k <= |commandLine.value| && r.value.arguments == Trim(commandLine.value[k..])
  {
    if IsNullOrWhiteSpace(executable) || IsNullOrWhiteSpace(commandLine) then Err(InvalidOperation)
    else match SplitArguments(executable.value, commandLine.value)
      case Err(e) => Err(e)
      case Ok(args) => Ok(ProcessParameters(executable.value, args))
  }

  /** An executable at the very start of the command line gives an empty marker, which is found
      at 0, so the whole trimmed command line, executable included, comes back as arguments. */
  lemma ExecutableAtStart(executable: string, commandLine: string)
    requires !AllWhiteSpace(executable) && !AllWhiteSpace(commandLine)
    requires OccursAt(commandLine, executable, 0)
    ensures GetProcessParameters(Some(executable), Some(commandLine))
         == Ok(ProcessParameters(executable, Trim(commandLine)))
  {
    SplitAtStart(executable, commandLine);
  }

  /** The split itself, for an executable at index 0. */
  lemma SplitAtStart(executable: string, commandLine: string)
    requires OccursAt(commandLine, executable, 0)
    ensures SplitArguments(executable, commandLine) == Ok(Trim(commandLine))
  {
    assert IndexOf(commandLine, executable, 0) == 0;
    assert Substring(commandLine, 0, 0) == Ok([]);
    assert Reversed([]) == [];
    assert OccursAt(commandLine, [], 0);
    assert commandLine[0..|commandLine|] == commandLine;
  }
}
