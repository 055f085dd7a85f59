/**
 Input validation of the voting service: which request fields count as
 present, and which strings are well-formed Aadhar numbers.
 */
module Validation {

  /** A request-body field that may be missing (`undefined` or `null`). */
  datatype Option<+T> = None | Some(value: T)

  /** Number of characters of a well-formed Aadhar number. */
  const AadharLength: nat := 12

  /** JavaScript truthiness of a string field: present and not the empty string. */
  predicate Present(field: Option<string>)
  {
    field.Some? && field.value != ""
  }

  /** The regular-expression class `\d` without the `u` flag: the ASCII digits only. */
  predicate IsDigit(c: char)
  {
    '0' <= c <= '9'
  }

  /** The anchored pattern `^\d+$`, matched one character at a time. */
  predicate MatchesDigits(s: string)
  {
    |s| > 0 && IsDigit(s[0]) && (|s| == 1 || MatchesDigits(s[1..]))
  }

  /** `^\d+$` accepts exactly the non-empty strings made of digits. */
  lemma {:induction false} MatchesDigitsIff(s: string)
    ensures MatchesDigits(s) <==> |s| > 0 && forall i :: 0 <= i < |s| ==> IsDigit(s[i])
  {
    if |s| > 1 {
      MatchesDigitsIff(s[1..]);
      assert forall i :: 1 <= i < |s| ==> s[i] == s[1..][i - 1];
    }
  }

  /**
   The test shared by both request handlers: a field is a valid Aadhar
   number when it is present, has exactly twelve characters and matches
   `^\d+$`.
   */
  predicate ValidAadhar(aadhar: Option<string>)
  {
    Present(aadhar) && |aadhar.value| == AadharLength && MatchesDigits(aadhar.value)
  }

  /** Valid means: present, and exactly twelve ASCII digits; the emptiness test is subsumed. */
  lemma ValidAadharIff(aadhar: Option<string>)
    ensures ValidAadhar(aadhar) <==>
              aadhar.Some? && |aadhar.value| == 12 &&
              forall i :: 0 <= i < |aadhar.value| ==> IsDigit(aadhar.value[i])
  {
    if aadhar.Some? {
      MatchesDigitsIff(aadhar.value);
    }
  }
}
