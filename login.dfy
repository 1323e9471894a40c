/**
 * `validationLogin` (src/validation/LoginValidation.ts): an optional message
 * for the email and for the password of the login form. Nothing is trimmed.
 */
module LoginValidation {
  import opened Wrappers
  import opened Text

  datatype LoginForm = LoginForm(email: string, password: string)

  const EnterEmail := "Введите email"
  const EnterValidEmail := "Введите корректный email"
  const EnterPassword := "Введите пароль"
  const PasswordTooShort := "Пароль должен быть минимум 6 символов"

  /** The `@` at `i` is the only one in `s`. */
  predicate OnlyAtSign(s: string, i: int) {
    forall k :: 0 <= k < |s| && s[k] == '@' ==> k == i
  }

  /** The split points of `^[^\s@]+@[^\s@]+\.[^\s@]+$`: one `@` after a non-empty prefix, and a `.` after it with text on both sides. */
  predicate LoginEmailSplit(s: string, i: int, j: int) {
    0 < i && i + 1 < j && j + 1 < |s| && s[i] == '@' && s[j] == '.' && OnlyAtSign(s, i)
  }

  /** `/^[^\s@]+@[^\s@]+\.[^\s@]+$/.test(s)`. */
  predicate MatchesLoginEmail(s: string) {
    NoWhitespace(s) && exists i, j :: 0 <= i < |s| && 0 <= j < |s| && LoginEmailSplit(s, i, j)
  }

  function EmailError(email: string): Option<string> {
    if email == [] then Some(EnterEmail)
    else if !MatchesLoginEmail(email) then Some(EnterValidEmail)
    else None
  }

  function PasswordError(password: string): Option<string> {
    if password == [] then Some(EnterPassword)
    else if |password| < 6 then Some(PasswordTooShort)
    else None
  }

  /** The keys of the returned record. */
  datatype Field = Email | Password

  function ValidationLogin(values: LoginForm): map<Field, string> {
    Entry(Email, EmailError(values.email)) + Entry(Password, PasswordError(values.password))
  }

  function Entry(f: Field, message: Option<string>): map<Field, string> {
    if message.Some? then map[f := message.value] else map[]
  }

  /** Each key is present exactly when its check produced a message, and holds that message. */
  lemma LoginEntries(values: LoginForm)
    ensures Email in ValidationLogin(values) <==> EmailError(values.email).Some?
    ensures Password in ValidationLogin(values) <==> PasswordError(values.password).Some?
    ensures Email in ValidationLogin(values) ==> ValidationLogin(values)[Email] == EmailError(values.email).value
    ensures Password in ValidationLogin(values) ==> ValidationLogin(values)[Password] == PasswordError(values.password).value
    ensures ValidationLogin(values) == map[] <==> EmailError(values.email).None? && PasswordError(values.password).None?
  {
    var e := Entry(Email, EmailError(values.email));
    var p := Entry(Password, PasswordError(values.password));
    assert e.Keys <= {Email} && p.Keys <= {Password};
    if ValidationLogin(values) == map[] {
      assert Email !in ValidationLogin(values) && Password !in ValidationLogin(values);
    } else {
      var f :| f in ValidationLogin(values);
    }
  }

  /** Number of occurrences of `c` in `s`. */
  function CountOf(s: string, c: char): nat {
    if s == [] then 0 else (if s[0] == c then 1 else 0) + CountOf(s[1..], c)
  }

  lemma {:induction false} CountZero(s: string, c: char)
    requires c !in s
    ensures CountOf(s, c) == 0
  {
    if s != [] { CountZero(s[1..], c); }
  }

  /** With `c` at `i`, `c` occurs once exactly when `i` is its only position. */
  lemma {:induction false} CountOneIff(s: string, c: char, i: nat)
    requires i < |s| && s[i] == c
    ensures CountOf(s, c) == 1 <==> forall k :: 0 <= k < |s| && s[k] == c ==> k == i
  {
    if i == 0 {
      if CountOf(s, c) == 1 {
        forall k | 0 <= k < |s| && s[k] == c ensures k == i {
          if k > 0 {
            CountPositive(s[1..], c, k - 1);
          }
        }
      } else {
        assert CountOf(s[1..], c) != 0;
        if c !in s[1..] { CountZero(s[1..], c); }
        var m :| 0 <= m < |s[1..]| && s[1..][m] == c;
        assert s[m + 1] == c;
      }
    } else {
      CountOneIff(s[1..], c, i - 1);
      if s[0] == c {
        CountPositive(s[1..], c, i - 1);
      } else {
        forall k | 0 <= k < |s| && s[k] == c ensures k == i <==> k - 1 == i - 1 {}
        if forall k :: 0 <= k < |s[1..]| && s[1..][k] == c ==> k == i - 1 {
          forall k | 0 <= k < |s| && s[k] == c ensures k == i {
            assert k != 0;
            assert s[1..][k - 1] == c;
          }
        }
      }
    }
  }

  lemma {:induction false} CountPositive(s: string, c: char, i: nat)
    requires i < |s| && s[i] == c
    ensures CountOf(s, c) >= 1
  {
    if i > 0 { CountPositive(s[1..], c, i - 1); }
  }

  /**
   * The email format in the source's own terms: no whitespace, exactly one
   * `@`, text before it, and after it a `.` that is neither the first nor the
   * last character of the remainder.
   */
  lemma LoginEmailShape(s: string)
    ensures MatchesLoginEmail(s) <==>
      (NoWhitespace(s) && CountOf(s, '@') == 1
       && exists i, j :: 0 < i < |s| && s[i] == '@' && i + 1 < j < |s| - 1 && s[j] == '.')
  {
    if MatchesLoginEmail(s) {
      var i, j :| 0 <= i < |s| && 0 <= j < |s| && LoginEmailSplit(s, i, j);
      CountOneIff(s, '@', i);
    }
    if NoWhitespace(s) && CountOf(s, '@') == 1 && exists i, j :: 0 < i < |s| && s[i] == '@' && i + 1 < j < |s| - 1 && s[j] == '.' {
      var i, j :| 0 < i < |s| && s[i] == '@' && i + 1 < j < |s| - 1 && s[j] == '.';
      CountOneIff(s, '@', i);
      assert LoginEmailSplit(s, i, j);
    }
  }

  /** Email: the required message only for the empty string, the format message for any other refused input. */
  lemma EmailRule(email: string)
    ensures email == [] ==> EmailError(email) == Some(EnterEmail)
    ensures email != [] && !MatchesLoginEmail(email) ==> EmailError(email) == Some(EnterValidEmail)
    ensures EmailError(email) == None <==> MatchesLoginEmail(email)
  {
  }

  /** Password: required, then at least six characters, nothing else. */
  lemma PasswordRule(password: string)
    ensures password == [] ==> PasswordError(password) == Some(EnterPassword)
    ensures 0 < |password| < 6 ==> PasswordError(password) == Some(PasswordTooShort)
    ensures PasswordError(password) == None <==> |password| >= 6
  {
  }

  /** The form is accepted exactly when the email has the format and the password has six characters. */
  lemma LoginAcceptedIff(values: LoginForm)
    ensures ValidationLogin(values) == map[] <==> MatchesLoginEmail(values.email) && |values.password| >= 6
  {
    LoginEntries(values);
  }

  /**
   * Nothing is trimmed: a non-empty all-whitespace email gets the format
   * message rather than the required one, and an all-whitespace password of
   * six or more characters passes.
   */
  lemma NothingTrimmed(email: string, password: string)
    requires email != [] && AllWhitespace(email)
    requires |password| >= 6 && AllWhitespace(password)
    ensures EmailError(email) == Some(EnterValidEmail)
    ensures PasswordError(password) == None
  {
    assert IsWhitespace(email[0]);
  }
}
