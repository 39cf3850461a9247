/** `Infrastructure.OS.Processes.Utils.Win32.WindowsProcessUtils` (the range-syntax copy): the same
    argument recovery as `Win32ProcessUtils`, written with `s[..end]` and `s[start..]`. */
module ProcessesWin32ProcessUtils {
  import opened Wrappers
  import opened Text
  import opened ProcessTypes
  import opened StringExtensions
  import Win32ProcessUtils

  /** `s[..end]`: the implicit conversion of a negative `int` to `Index` and an end past the
      string both throw ArgumentOutOfRange. */
  function SliceTo(s: string, end: int): (r: Result<string>)
    ensures r.Ok? <==> 0 <= end <= |s|
    ensures r.Ok? ==> r.value == s[..end]
    ensures r.Err? ==> r.error == ArgumentOutOfRange
  {
    if 0 <= end <= |s| then Ok(s[..end]) else Err(ArgumentOutOfRange)
  }

  /** `s[start..]`, with the same checks. */
  function SliceFrom(s: string, start: int): (r: Result<string>)
    ensures r.Ok? <==> 0 <= start <= |s|
    ensures r.Ok? ==> r.value == s[start..]
    ensures r.Err? ==> r.error == ArgumentOutOfRange
  {
    if 0 <= start <= |s| then Ok(s[start..]) else Err(ArgumentOutOfRange)
  }

  /** Where the argument text starts, when the executable occurs in the command line: just after
      the first occurrence, from the executable's start, of the reversed opening marker; when
      that marker is missing, one place before the executable. */
  function ArgumentsStart(executable: string, commandLine: string): (start: int)
    requires IndexOf(commandLine, executable, 0) != -1
    ensures 0 <= start <= |commandLine|
  {
    var executableStart := IndexOf(commandLine, executable, 0);
    var endQuotes := Reversed(commandLine[..executableStart]);
    ReversedLength(commandLine[..executableStart]);
    var endQuotesStart := IndexOf(commandLine, endQuotes, executableStart);
    if endQuotesStart == -1 then
      assert executableStart > 0 by {
        assert executableStart == 0 ==> endQuotes == [];
        assert OccursAt(commandLine, [], executableStart);
      }
      executableStart - 1
    else endQuotesStart + |endQuotes|
  }

  function SplitArguments(executable: string, commandLine: string): (r: Result<string>)
    ensures r.Err? <==> IndexOf(commandLine, executable, 0) == -1
    ensures r.Ok? ==> r.value == Trim(commandLine[ArgumentsStart(executable, commandLine)..])
  {
    var executableStart := IndexOf(commandLine, executable, 0);
    match SliceTo(commandLine, executableStart)
    case Err(e) => Err(e)
    case Ok(beginQuotes) =>
      var endQuotes := Reversed(beginQuotes);
      ReversedLength(beginQuotes);
      var endQuotesStart := IndexOf(commandLine, endQuotes, executableStart);
      var argsStart := endQuotesStart + |endQuotes|;
      assert argsStart == ArgumentsStart(executable, commandLine);
      match SliceFrom(commandLine, argsStart)
      case Err(e) => assert false; Err(e)
      case Ok(args) => Ok(Trim(args))
  }

  /** `GetProcessParameters` after the WMI scan: blank inputs are InvalidOperation, an executable
      missing from the command line is ArgumentOutOfRange, and otherwise the executable comes
      back unchanged with the trimmed text after the closing marker. */
  function GetProcessParameters(executable: Option<string>, commandLine: Option<string>): (r: Result<ProcessParameters>)
    ensures IsNullOrWhiteSpace(executable) || IsNullOrWhiteSpace(commandLine) ==> r == Err(InvalidOperation)
    ensures !IsNullOrWhiteSpace(executable) && !IsNullOrWhiteSpace(commandLine) ==>
      (r.Err? <==> IndexOf(commandLine.value, executable.value, 0) == -1)
    ensures r.Err? && !IsNullOrWhiteSpace(executable) && !IsNullOrWhiteSpace(commandLine) ==> r.error == ArgumentOutOfRange
    ensures r.Ok? ==> r.value == ProcessParameters(executable.value,
      Trim(commandLine.value[ArgumentsStart(executable.value, commandLine.value)..]))
  {
    if IsNullOrWhiteSpace(executable) || IsNullOrWhiteSpace(commandLine) then Err(InvalidOperation)
    else match SplitArguments(executable.value, commandLine.value)
      case Err(e) => Err(e)
      case Ok(args) => Ok(ProcessParameters(executable.value, args))
  }

  /** A quoted executable free of quotes: the arguments are what follows the closing quote,
      trimmed. */
  lemma QuotedExecutable(executable: string, rest: string)
    requires !AllWhiteSpace(executable) && '"' !in executable
    ensures GetProcessParameters(Some(executable), Some("\"" + executable + "\"" + rest))
         == Ok(ProcessParameters(executable, Trim(rest)))
  {
    var cmd := "\"" + executable + "\"" + rest;
    QuotedArgumentsStart(executable, rest);
    assert cmd[2 + |executable|..] == rest;
    assert !AllWhiteSpace(cmd) by {
      assert cmd[0] == '"';
    }
  }

  /** In a quoted executable free of quotes, the executable is found just after the opening
      quote and the arguments start just after the closing one. */
  lemma QuotedArgumentsStart(executable: string, rest: string)
    requires !AllWhiteSpace(executable) && '"' !in executable
    ensures IndexOf("\"" + executable + "\"" + rest, executable, 0) == 1
    ensures ArgumentsStart(executable, "\"" + executable + "\"" + rest) == 2 + |executable|
  {
    var cmd := "\"" + executable + "\"" + rest;
    var n := |executable|;
    assert cmd[0] == '"' && executable[0] != '"';
    assert !OccursAt(cmd, executable, 0);
    assert cmd[1..1 + n] == executable;
    IndexOfFirst(cmd, executable, 0, 1);
    assert cmd[..1] == "\"";
    assert Reversed("\"") == "\"";
    assert cmd[1 + n..2 + n] == "\"";
    forall i | 1 <= i < 1 + n
      ensures !OccursAt(cmd, "\"", i)
    {
      assert cmd[i..i + 1][0] == executable[i - 1];
    }
    IndexOfFirst(cmd, "\"", 1, 1 + n);
  }

  /** An executable at the very start of the command line leaves it inside the arguments: the
      whole command line, trimmed, is returned. */
  lemma ExecutableAtStart(executable: string, commandLine: string)
    requires !AllWhiteSpace(executable) && !AllWhiteSpace(commandLine)
    requires OccursAt(commandLine, executable, 0)
    ensures GetProcessParameters(Some(executable), Some(commandLine))
         == Ok(ProcessParameters(executable, Trim(commandLine)))
  {
    assert Reversed(commandLine[..0]) == [];
    assert OccursAt(commandLine, [], 0);
  }

  /** A one-character opening marker that never occurs again is not an error: the start falls
      back to -1 + 1 = 0 and the whole trimmed command line is returned. */
  lemma MissingClosingMarker(executable: string, commandLine: string)
    requires !AllWhiteSpace(executable) && !AllWhiteSpace(commandLine)
    requires IndexOf(commandLine, executable, 0) == 1
    requires forall i :: 1 <= i < |commandLine| ==> commandLine[i] != commandLine[0]
    ensures GetProcessParameters(Some(executable), Some(commandLine))
         == Ok(ProcessParameters(executable, Trim(commandLine)))
  {
    var marker := commandLine[..1];
    assert Reversed(marker) == marker;
    forall i | 1 <= i
      ensures !OccursAt(commandLine, marker, i)
    {
      if i + 1 <= |commandLine| {
        assert commandLine[i..i + 1] == [commandLine[i]];
      }
    }
    assert commandLine[0..] == commandLine;
  }

  /** The two copies' splits agree: `Substring(0, n)` is `[..n]` and `Substring(k, length - k)`
      is `[k..]`. */
  lemma SplitsAgree(executable: string, commandLine: string)
    ensures SplitArguments(executable, commandLine) == Win32ProcessUtils.SplitArguments(executable, commandLine)
  {
    var start := IndexOf(commandLine, executable, 0);
    if start == -1 {
      assert Win32ProcessUtils.SplitArguments(executable, commandLine) == Err(ArgumentOutOfRange);
      assert SplitArguments(executable, commandLine) == Err(ArgumentOutOfRange);
    } else {
      var beginQuotes := commandLine[..start];
      assert Win32ProcessUtils.Substring(commandLine, 0, start) == Ok(beginQuotes);
      assert SliceTo(commandLine, start) == Ok(beginQuotes);
      var endQuotes := Reversed(beginQuotes);
      ReversedLength(beginQuotes);
      var argsStart := IndexOf(commandLine, endQuotes, start) + |endQuotes|;
      assert argsStart == ArgumentsStart(executable, commandLine);
      var args := commandLine[argsStart..];
      assert commandLine[argsStart..argsStart + (|commandLine| - argsStart)] == args;
      assert Win32ProcessUtils.Substring(commandLine, argsStart, |commandLine| - argsStart) == Ok(args);
      assert SliceFrom(commandLine, argsStart) == Ok(args);
      assert SplitArguments(executable, commandLine) == Ok(Trim(args));
      assert Win32ProcessUtils.SplitArguments(executable, commandLine) == Ok(Trim(args));
    }
  }

  /** The range-syntax copy and the `Substring` copy give the same result on every input. */
  lemma CopiesAgree(executable: Option<string>, commandLine: Option<string>)
    ensures GetProcessParameters(executable, commandLine)
         == Win32ProcessUtils.GetProcessParameters(executable, commandLine)
  {
    if !IsNullOrWhiteSpace(executable) && !IsNullOrWhiteSpace(commandLine) {
      SplitsAgree(executable.value, commandLine.value);
    }
  }
}
