/** The ordinal formatter of utils/easifier.ts. The argument is modelled as
    an integer; remainders follow JavaScript, so negative numbers are
    covered as the code treats them. */
module Easifier {
  import opened JsNumbers

  const ORDINAL_SUFFIXES: set<string> := {"st", "nd", "rd", "th"}

  /** `nOrderStringify`: the number followed by its English ordinal suffix.
      The suffix is always two letters, after the decimal rendering of `n`. */
  function NOrderStringify(n: int): (s: string)
    ensures |s| == |IntToString(n)| + 2
    ensures s[..|s| - 2] == IntToString(n)
    ensures s[|s| - 2..] in ORDINAL_SUFFIXES
  {
    var r100 := Rem(n, 100);
    if r100 == 11 || r100 == 12 || r100 == 13 then IntToString(n) + "th"
    else
      match Rem(n, 10)
      case 1 => IntToString(n) + "st"
      case 2 => IntToString(n) + "nd"
      case 3 => IntToString(n) + "rd"
      case _ => IntToString(n) + "th"
  }

  /** The two-letter suffix at the end of a formatted ordinal. */
  function Suffix(s: string): string
    requires |s| >= 2
  {
    s[|s| - 2..]
  }

  /** Inverse of NOrderStringify: drop the suffix and read the number. */
  function ParseOrdinal(s: string): int
    requires |s| >= 3
    requires s[0] == '-' ==> AllDigits(s[1..|s| - 2])
    requires s[0] != '-' ==> AllDigits(s[..|s| - 2])
  {
    ParseInt(s[..|s| - 2])
  }

  /** The number can be read back from its ordinal: no two numbers share one. */
  lemma OrdinalRoundTrip(n: int)
    ensures var s := NOrderStringify(n);
      |s| >= 3 &&
      (s[0] == '-' ==> AllDigits(s[1..|s| - 2])) &&
      (s[0] != '-' ==> AllDigits(s[..|s| - 2])) &&
      ParseOrdinal(s) == n
  {
    var s := NOrderStringify(n);
    var t := IntToString(n);
    assert s[..|s| - 2] == t;
    assert s[0] == t[0];
    if s[0] == '-' {
      assert s[1..|s| - 2] == t[1..];
    }
    IntToStringRoundTrip(n);
  }

  /** The suffix rule for the documented domain of natural numbers: 11, 12
      and 13 modulo 100 take "th"; otherwise a last digit of 1, 2 or 3 takes
      "st", "nd" or "rd"; every other number, zero included, takes "th". */
  lemma OrdinalSuffixRule(n: nat)
    ensures Suffix(NOrderStringify(n)) ==
      if n % 100 in {11, 12, 13} then "th"
      else if n % 10 == 1 then "st"
      else if n % 10 == 2 then "nd"
      else if n % 10 == 3 then "rd"
      else "th"
  {
  }

  /** Negative numbers always take "th": JavaScript's remainder of a
      negative number is never 1, 2, 3, 11, 12 or 13. */
  lemma NegativeOrdinalSuffix(n: int)
    requires n < 0
    ensures Suffix(NOrderStringify(n)) == "th"
  {
  }

  /** For natural numbers the suffix depends only on the last two digits:
      numbers equal modulo 100 (n and n + 100, say) take the same one. */
  lemma OrdinalSuffixPeriodic(n: nat, m: nat)
    requires n % 100 == m % 100
    ensures Suffix(NOrderStringify(n)) == Suffix(NOrderStringify(m))
  {
    OrdinalSuffixRule(n);
    OrdinalSuffixRule(m);
    LastDigitOfLastTwo(n);
    LastDigitOfLastTwo(m);
  }

  /** The last digit of a number is the last digit of its last two. */
  lemma LastDigitOfLastTwo(n: nat)
    ensures n % 10 == (n % 100) % 10
  {
  }

  /** The documented examples 1st, 2nd, 3rd and 4th, and zero. */
  lemma OrdinalDocumentedExamples()
    ensures NOrderStringify(0) == "0th"
    ensures NOrderStringify(1) == "1st"
    ensures NOrderStringify(2) == "2nd"
    ensures NOrderStringify(3) == "3rd"
    ensures NOrderStringify(4) == "4th"
  {
  }

  /** Examples around the teens, and a negative number. */
  lemma OrdinalTeenExamples()
    ensures NOrderStringify(11) == "11th"
    ensures NOrderStringify(13) == "13th"
    ensures NOrderStringify(21) == "21st"
    ensures NOrderStringify(112) == "112th"
    ensures NOrderStringify(-1) == "-1th"
  {
  }
}
