/**
 * `validateResetPassword` (src/validation/ResetPasswordValidate.ts): one
 * optional message for a new password, from a single regular expression.
 */
module ResetPasswordValidation {
  import opened Wrappers
  import opened Text
  import opened Chars
  import RegisterValidation

  const PasswordRequired := "Пароль обязателен"
  const StrengthMessage := "Пароль должен быть не менее 8 символов, без кириллицы, содержать заглавную и строчную букву, цифру и спецсимвол"

  /** No line terminator before position `k`: what `.*` in a lookahead can skip. */
  predicate LineBefore(s: string, k: int) {
    forall m :: 0 <= m < k && m < |s| ==> !IsLineTerminator(s[m])
  }

  predicate LookaheadLower(s: string) { exists k :: 0 <= k < |s| && LineBefore(s, k) && IsLower(s[k]) }
  predicate LookaheadUpper(s: string) { exists k :: 0 <= k < |s| && LineBefore(s, k) && IsUpper(s[k]) }
  predicate LookaheadDigit(s: string) { exists k :: 0 <= k < |s| && LineBefore(s, k) && IsDigit(s[k]) }
  predicate LookaheadSpecial(s: string) { exists k :: 0 <= k < |s| && LineBefore(s, k) && IsSpecial(s[k]) }

  /**
   * `^(?=.*[a-z])(?=.*[A-Z])(?=.*\d)(?=.*[special])[allowed]{8,}$`, read
   * literally: four lookaheads from the start, each over `.*`, then at least
   * eight allowed characters up to the end.
   */
  predicate MatchesPasswordPattern(s: string) {
    LookaheadLower(s) && LookaheadUpper(s) && LookaheadDigit(s) && LookaheadSpecial(s)
    && |s| >= 8 && AllAllowed(s)
  }

  function ValidateResetPassword(value: string): Option<string> {
    if value == [] then Some(PasswordRequired)
    else if !MatchesPasswordPattern(value) then Some(StrengthMessage)
    else None
  }

  lemma AllowedIsNotLineTerminator(c: char)
    requires IsAllowed(c)
    ensures !IsLineTerminator(c)
  {
  }

  /** The pattern is exactly the strength rule: allowed characters are never line terminators, so `.*` always reaches the witness. */
  lemma PatternIsStrength(s: string)
    ensures MatchesPasswordPattern(s) <==> StrongPassword(s)
  {
    if StrongPassword(s) {
      assert forall k :: 0 <= k < |s| ==> LineBefore(s, k) by {
        forall k | 0 <= k < |s| ensures LineBefore(s, k) {
          forall m | 0 <= m < k && m < |s| ensures !IsLineTerminator(s[m]) {
            AllowedIsNotLineTerminator(s[m]);
          }
        }
      }
      var a :| 0 <= a < |s| && IsLower(s[a]);
      var b :| 0 <= b < |s| && IsUpper(s[b]);
      var c :| 0 <= c < |s| && IsDigit(s[c]);
      var d :| 0 <= d < |s| && IsSpecial(s[d]);
      assert LineBefore(s, a) && LineBefore(s, b) && LineBefore(s, c) && LineBefore(s, d);
    }
  }

  /** Empty input gets the required message; any other refused input the single strength message. */
  lemma ResetRule(value: string)
    ensures value == [] ==> ValidateResetPassword(value) == Some(PasswordRequired)
    ensures value != [] && !StrongPassword(value) ==> ValidateResetPassword(value) == Some(StrengthMessage)
    ensures ValidateResetPassword(value) == None <==> StrongPassword(value)
  {
    PatternIsStrength(value);
  }

  /** The reset rule and the registration form's password rule accept the same passwords. */
  lemma ResetAgreesWithRegister(form: RegisterValidation.RegisterForm)
    ensures ValidateResetPassword(form.password) == None <==>
      RegisterValidation.Password !in RegisterValidation.ValidationRegisterForm(form)
  {
    ResetRule(form.password);
    RegisterValidation.PasswordRule(form.password);
    RegisterValidation.FieldEntry(form, RegisterValidation.Password);
  }
}
