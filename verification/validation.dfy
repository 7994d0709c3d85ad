/** The argument patterns the tool schemas enforce before a handler runs;
    the handlers take them as preconditions. */
module Validation {
  import opened Json

  predicate AllDigits(s: string) {
    s == [] || (IsDigit(s[0]) && AllDigits(s[1..]))
  }

  /** `/^[0-9]{3,}-[0-9]$/`: at least three digits, a hyphen, one digit. */
  predicate IsLegoId(s: string) {
    |s| >= 5 && s[|s| - 2] == '-' && IsDigit(s[|s| - 1]) && AllDigits(s[..|s| - 2])
  }

  predicate IsReferenceChar(c: char) {
    IsDigit(c) || 'a' <= c <= 'z' || 'A' <= c <= 'Z' || c == '-' || c == '_'
  }

  predicate AllReferenceChars(s: string) {
    s == [] || (IsReferenceChar(s[0]) && AllReferenceChars(s[1..]))
  }

  /** `/^[-a-zA-Z0-9_]+$/`: a non-empty run of letters, digits, `-` and `_`. */
  predicate IsReference(s: string) {
    |s| >= 1 && AllReferenceChars(s)
  }

  /** `z.string().min(lo).max(hi)`. */
  predicate LengthWithin(s: string, lo: nat, hi: nat) {
    lo <= |s| <= hi
  }
}
