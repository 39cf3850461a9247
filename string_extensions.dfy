/** `StringExtensions.ReverseString`: the characters of a string in the opposite order. */
module StringExtensions {

  /** The reversal of `s`, the specification of `ReverseString`. */
  function Reversed(s: string): string {
    if |s| == 0 then [] else Reversed(s[1..]) + [s[0]]
  }

  /** Position `k` of the reversal holds the character `k` places from the end of the input. */
  lemma {:induction false} ReversedAt(s: string, k: nat)
    requires k < |s|
    ensures |Reversed(s)| == |s| && Reversed(s)[k] == s[|s| - 1 - k]
  {
    ReversedLength(s);
    if k < |s| - 1 {
      ReversedAt(s[1..], k);
    }
  }

  lemma {:induction false} ReversedLength(s: string)
    ensures |Reversed(s)| == |s|
  {
    if |s| > 0 {
      ReversedLength(s[1..]);
    }
  }

  /** Two strings are reversals of each other exactly when they mirror position by position. */
  lemma MirroredIsReversed(s: string, r: string)
    requires |r| == |s|
    requires forall k :: 0 <= k < |s| ==> r[k] == s[|s| - 1 - k]
    ensures r == Reversed(s)
  {
    ReversedLength(s);
    forall k | 0 <= k < |s| ensures r[k] == Reversed(s)[k] {
      ReversedAt(s, k);
    }
  }

  /** Reversing twice gives back the original. */
  lemma ReversedTwice(s: string)
    ensures Reversed(Reversed(s)) == s
  {
    var r := Reversed(s);
    ReversedLength(s);
    forall k | 0 <= k < |s| ensures s[k] == r[|r| - 1 - k] {
      ReversedAt(s, |s| - 1 - k);
    }
    MirroredIsReversed(r, s);
  }

  /** A palindrome is its own reversal. */
  lemma PalindromeFixed(s: string)
    requires forall k :: 0 <= k < |s| ==> s[k] == s[|s| - 1 - k]
    ensures Reversed(s) == s
  {
    MirroredIsReversed(s, s);
  }

  /** Spaces and symbols move like any other character. */
  lemma SpacesAndSymbols()
    ensures Reversed("  abc 123 !@# ") == " #@! 321 cba  "
  {
    MirroredIsReversed("  abc 123 !@# ", " #@! 321 cba  ");
  }

  /** `ReverseString`: an empty input comes back as it is; otherwise a buffer of the same length
      is filled from the last input character to the first, with a write index that advances by
      one per step. */
  method ReverseString(str: string) returns (r: string)
    ensures |r| == |str|
    ensures forall k :: 0 <= k < |str| ==> r[k] == str[|str| - 1 - k]
    ensures r == Reversed(str)
  {
    if |str| == 0 {
      return str;
    }
    var chars := new char[|str|];
    var index := 0;
    var i := |str| - 1;
    while i >= 0
      invariant -1 <= i < |str|
      invariant index == |str| - 1 - i
      invariant forall k :: 0 <= k < index ==> chars[k] == str[|str| - 1 - k]
    {
      chars[index] := str[i];
      index := index + 1;
      i := i - 1;
    }
    r := chars[..];
    MirroredIsReversed(str, r);
  }
}
