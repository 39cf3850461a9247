/** `LinuxProcessUtils`: the parsing halves of the `/proc/<pid>/cmdline` and `/proc/<pid>/stat`
    readers. The file contents arrive as inputs (`None` when the file cannot be read or does not
    exist); the reads themselves and UTF-8 decoding are not part of this model. */
module LinuxProcessUtils {
  import opened Wrappers
  import opened Text
  import opened ProcessTypes

  const Nul: char := '\0'

  /** `GetProcessParameters` after the read of `/proc/<pid>/cmdline`: split on NUL with empty
      pieces dropped; the first piece is the executable, the others joined by single spaces and
      trimmed are the arguments. A failed read, an empty file and a file of NULs only are errors. */
  function ParametersFromCmdline(cmdline: Option<string>): (r: Result<ProcessParameters>)
    ensures r.Err? ==> r.error == InvalidOperation
    ensures r.Ok? <==> cmdline.Some? && exists i :: 0 <= i < |cmdline.value| && cmdline.value[i] != Nul
    ensures r.Ok? ==> r.value.executable != [] && Nul !in r.value.executable
  {
    if cmdline.None? then Err(InvalidOperation)
    else if |cmdline.value| == 0 then Err(InvalidOperation)
    else
      var parts := RemoveEmpty(SplitOn(cmdline.value, Nul));
      PiecesEmptyIffAllSeparators(cmdline.value, Nul);
      if |parts| == 0 then Err(InvalidOperation)
      else
        var executable := parts[0];
        var arguments := if |parts| > 1 then Trim(JoinWith(" ", parts[1..])) else "";
        Ok(ProcessParameters(executable, arguments))
  }

  /** No non-empty piece is left exactly when every character is a separator. */
  lemma {:induction false} PiecesEmptyIffAllSeparators(s: string, sep: char)
    ensures |RemoveEmpty(SplitOn(s, sep))| == 0 <==> forall i :: 0 <= i < |s| ==> s[i] == sep
    decreases |s|
  {
    if |s| > 0 {
      PiecesEmptyIffAllSeparators(s[1..], sep);
      var rest := SplitOn(s[1..], sep);
      if s[0] == sep {
        assert ([[]] + rest)[1..] == rest;
        assert forall i :: 1 <= i < |s| ==> s[i] == s[1..][i - 1];
      } else {
        assert RemoveEmpty(SplitOn(s, sep))[0] == [s[0]] + rest[0];
      }
    }
  }

  /** What the kernel writes to `/proc/<pid>/cmdline`: every argument followed by a NUL. */
  function NulTerminated(argv: seq<string>): string {
    if |argv| == 0 then [] else argv[0] + [Nul] + NulTerminated(argv[1..])
  }

  lemma {:induction false} SplitNulTerminated(argv: seq<string>)
    requires forall i :: 0 <= i < |argv| ==> argv[i] != [] && Nul !in argv[i]
    ensures RemoveEmpty(SplitOn(NulTerminated(argv), Nul)) == argv
    decreases |argv|
  {
    if |argv| > 0 {
      SplitNulTerminated(argv[1..]);
      SplitOnAfterPiece(argv[0], NulTerminated(argv[1..]), Nul);
      var pieces := [argv[0]] + SplitOn(NulTerminated(argv[1..]), Nul);
      assert pieces[1..] == SplitOn(NulTerminated(argv[1..]), Nul);
      assert [argv[0]] + argv[1..] == argv;
    }
  }

  /** Round trip: for an argv of non-empty, NUL-free strings as the kernel lays it out, the
      executable is `argv[0]` and the arguments are the rest joined by spaces and trimmed. */
  lemma CmdlineRoundTrip(argv: seq<string>)
    requires |argv| >= 1
    requires forall i :: 0 <= i < |argv| ==> argv[i] != [] && Nul !in argv[i]
    ensures ParametersFromCmdline(Some(NulTerminated(argv)))
         == Ok(ProcessParameters(argv[0], Trim(JoinWith(" ", argv[1..]))))
  {
    SplitNulTerminated(argv);
    assert |NulTerminated(argv)| > 0;
  }

  /** The characters `int.TryParse` skips around a number (`NumberStyles.Integer`). */
  predicate IsNumberWhite(c: char) {
    c == ' ' || ('\t' <= c <= '\r')
  }

  function StripNumberWhite(s: string): (r: string)
    ensures |r| <= |s|
  {
    if |s| > 0 && IsNumberWhite(s[0]) then StripNumberWhite(s[1..])
    else if |s| > 0 && IsNumberWhite(s[|s| - 1]) then StripNumberWhite(s[..|s| - 1])
    else s
  }

  predicate IsDigit(c: char) {
    '0' <= c <= '9'
  }

  predicate AllDigits(s: string) {
    forall i :: 0 <= i < |s| ==> IsDigit(s[i])
  }

  /** The value of a string of decimal digits, most significant first. */
  function DigitsValue(ds: string): nat
    requires AllDigits(ds)
  {
    if |ds| == 0 then 0
    else DigitsValue(ds[..|ds| - 1]) * 10 + (ds[|ds| - 1] as int - '0' as int)
  }

  const Int32Min: int := -0x8000_0000
  const Int32Max: int := 0x7FFF_FFFF

  predicate IsInt32(v: int) {
    Int32Min <= v <= Int32Max
  }

  /** `int.TryParse` with the default `NumberStyles.Integer` and the invariant culture: optional
      surrounding white space, an optional sign, at least one digit, and a value that fits in
      32 bits. */
  function ParseInt32(s: string): (r: Option<int>)
    ensures r.Some? ==> IsInt32(r.value)
  {
    var t := StripNumberWhite(s);
    var signed := |t| > 0 && (t[0] == '-' || t[0] == '+');
    var digits := if signed then t[1..] else t;
    if |digits| == 0 || !AllDigits(digits) then None
    else
      var v: int := if signed && t[0] == '-' then -(DigitsValue(digits) as int) else DigitsValue(digits);
      if IsInt32(v) then Some(v) else None
  }

  /** `(statusField >> 8) & 0xFF` on a 32-bit signed value: an arithmetic shift is a floor
      division by 256, and the mask keeps the non-negative remainder. */
  function HighByte(statusField: int): (code: int)
    ensures 0 <= code <= 255
  {
    (statusField / 256) % 256
  }

  /** `HighByte` picks bits 8 to 15, where a wait status keeps the exit code: a value with `code`
      there gives `code`, whatever the low byte and whatever lies above bit 15. */
  lemma {:induction false} HighByteRecoversExitCode(high: int, code: int, low: int)
    requires 0 <= code <= 255 && 0 <= low <= 255
    ensures HighByte((high * 256 + code) * 256 + low) == code
  {
    var w := (high * 256 + code) * 256 + low;
    assert w / 256 == high * 256 + code;
    assert (high * 256 + code) % 256 == code;
  }

  /** `GetExitCodeAsync` after the read of `/proc/<pid>/stat`: a missing file is
      FileNotFound; otherwise the text is split on spaces with empty fields dropped, and the
      14th field, parsed as a 32-bit integer, gives `(field >> 8) & 0xFF`. Fewer than 14 fields
      or an unparsable 14th field is InvalidOperation. (In the proc(5) layout the 14th field is
      `utime`; the code reads it as if it were a wait status.) */
  function ExitCodeFromStat(stat: Option<string>): (r: Result<int>)
    ensures r.Ok? ==> 0 <= r.value <= 255
    ensures stat.None? <==> r == Err(FileNotFound)
    ensures stat.Some? && r.Err? ==> r.error == InvalidOperation
    ensures stat.Some? ==> var fields := RemoveEmpty(SplitOn(stat.value, ' '));
      r.Ok? <==> |fields| > 13 && ParseInt32(fields[13]).Some?
    ensures r.Ok? ==> var fields := RemoveEmpty(SplitOn(stat.value, ' '));
      |fields| > 13 && ParseInt32(fields[13]).Some? && r.value == HighByte(ParseInt32(fields[13]).value)
  {
    if stat.None? then Err(FileNotFound)
    else
      var parts := RemoveEmpty(SplitOn(stat.value, ' '));
      if |parts| > 13 && ParseInt32(parts[13]).Some? then Ok(HighByte(ParseInt32(parts[13]).value))
      else Err(InvalidOperation)
  }

  /** Decimal digits of a natural number, most significant first, without leading zeros. */
  function NatDigits(n: nat): (ds: string)
    ensures |ds| > 0 && AllDigits(ds)
  {
    if n < 10 then [('0' as int + n) as char]
    else NatDigits(n / 10) + [('0' as int + n % 10) as char]
  }

  lemma {:induction false} NatDigitsValue(n: nat)
    ensures DigitsValue(NatDigits(n)) == n
  {
    if n >= 10 {
      NatDigitsValue(n / 10);
      var ds := NatDigits(n);
      assert ds[..|ds| - 1] == NatDigits(n / 10);
    }
  }

  /** The decimal text of an integer, as the kernel writes numeric fields. */
  function Decimal(v: int): string {
    if v < 0 then "-" + NatDigits(-v) else NatDigits(v)
  }

  lemma StripNoWhite(s: string)
    requires |s| > 0 && !IsNumberWhite(s[0]) && !IsNumberWhite(s[|s| - 1])
    ensures StripNumberWhite(s) == s
  {
  }

  /** Parsing the decimal text of any 32-bit value gives that value back. */
  lemma ParseDecimal(v: int)
    requires IsInt32(v)
    ensures ParseInt32(Decimal(v)) == Some(v)
  {
    var t := Decimal(v);
    var n: nat := if v < 0 then -v else v;
    NatDigitsValue(n);
    StripNoWhite(t);
    if v < 0 {
      assert t[1..] == NatDigits(n);
    }
  }

  /** Round trip for the stat line: when the 14th of the space-separated fields is the decimal
      text of a 32-bit value `v`, the reported exit code is the high byte of `v`. */
  lemma StatRoundTrip(fields: seq<string>, v: int)
    requires |fields| >= 14
    requires forall i :: 0 <= i < |fields| ==> fields[i] != [] && ' ' !in fields[i]
    requires IsInt32(v) && fields[13] == Decimal(v)
    ensures ExitCodeFromStat(Some(JoinWith(" ", fields))) == Ok(HighByte(v))
  {
    SplitJoin(fields, ' ');
    assert [' '] == " ";
    ParseDecimal(v);
  }
}
