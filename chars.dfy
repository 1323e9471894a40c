/**
 * The character classes of the password and email regular expressions in
 * src/validation: `[a-z]`, `[A-Z]`, `\d` and the special set
 * `[!@#$%^&*()_+\-=[\]{};':"\\|,.<>/?]`.
 */
module Chars {

  predicate IsLower(c: char) { 'a' <= c <= 'z' }
  predicate IsUpper(c: char) { 'A' <= c <= 'Z' }
  predicate IsDigit(c: char) { '0' <= c <= '9' }

  const Specials: string := "!@#$%^&*()_+-=[]{};':\"\\|,.<>/?"

  predicate IsSpecial(c: char) { c in Specials }

  /** `[A-Za-z\d` followed by the special set `]`: the only characters a password may use. */
  predicate IsAllowed(c: char) { IsLower(c) || IsUpper(c) || IsDigit(c) || IsSpecial(c) }

  predicate AllAllowed(s: string) { forall k :: 0 <= k < |s| ==> IsAllowed(s[k]) }

  predicate HasLower(s: string) { exists k :: 0 <= k < |s| && IsLower(s[k]) }
  predicate HasUpper(s: string) { exists k :: 0 <= k < |s| && IsUpper(s[k]) }
  predicate HasDigit(s: string) { exists k :: 0 <= k < |s| && IsDigit(s[k]) }
  predicate HasSpecial(s: string) { exists k :: 0 <= k < |s| && IsSpecial(s[k]) }

  /**
   * The strength rule both password validators share: at least eight
   * characters, only allowed ones, and one of each class.
   */
  predicate StrongPassword(s: string) {
    |s| >= 8 && AllAllowed(s) && HasLower(s) && HasUpper(s) && HasDigit(s) && HasSpecial(s)
  }
}
