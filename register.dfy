/**
 * `validationRegisterForm` (src/validation/RegisterValidation.ts): one
 * optional message per field of the registration form, collected in a map
 * from field name to message.
 */
module RegisterValidation {
  import opened Wrappers
  import opened Text
  import opened Chars

  datatype RegisterForm = RegisterForm(username: string, displayName: string, email: string, password: string)

  const UsernameRequired := "Имя пользователя обязательно"
  const NicknameRequired := "Nickname обязателен"
  const MinThree := "Минимум 3 символа"
  const EmailRequired := "Email обязателен"
  const EmailInvalid := "Некорректный email"
  const PasswordRequired := "Пароль обязателен"
  const MinEight := "Минимум 8 символов"
  const NoCyrillic := "Пароль не должен содержать кириллицу"
  const AddLower := "Добавьте строчную букву"
  const AddUpper := "Добавьте заглавную букву"
  const AddDigit := "Добавьте цифру"
  const AddSpecial := "Добавьте спецсимвол ( ?, ! ) "

  /** A required name: blank once trimmed, else shorter than three characters as typed. */
  function NameError(value: string, required: string): Option<string> {
    if Trim(value) == [] then Some(required)
    else if |value| < 3 then Some(MinThree)
    else None
  }

  function UsernameError(username: string): Option<string> {
    NameError(username, UsernameRequired)
  }

  function DisplayNameError(displayName: string): Option<string> {
    NameError(displayName, NicknameRequired)
  }

  /** The name rule in terms of the raw value: the length test sees the untrimmed string. */
  lemma NameRule(value: string, required: string)
    ensures AllWhitespace(value) ==> NameError(value, required) == Some(required)
    ensures !AllWhitespace(value) && |value| < 3 ==> NameError(value, required) == Some(MinThree)
    ensures NameError(value, required) == None <==> !AllWhitespace(value) && |value| >= 3
  {
    TrimEmptyIff(value);
  }

  /** The split points of `^\S+@\S+\.\S+$`: an `@` after a non-empty prefix and a later `.` with text on both sides. */
  predicate EmailSplit(s: string, i: int, j: int) {
    0 < i && i + 1 < j && j + 1 < |s| && s[i] == '@' && s[j] == '.'
  }

  /** `/^\S+@\S+\.\S+$/.test(s)`: `\S+` may itself contain `@` and `.`. */
  predicate MatchesEmailPattern(s: string) {
    NoWhitespace(s) && exists i, j :: 0 <= i < |s| && 0 <= j < |s| && EmailSplit(s, i, j)
  }

  function EmailError(email: string): Option<string> {
    if Trim(email) == [] then Some(EmailRequired)
    else if !MatchesEmailPattern(email) then Some(EmailInvalid)
    else None
  }

  ghost predicate EmailParts(s: string, a: string, b: string, c: string) {
    a != [] && b != [] && c != [] && s == a + "@" + b + "." + c
  }

  /** The pattern read as a decomposition `a@b.c` with non-empty, whitespace-free parts. */
  lemma EmailPatternParts(s: string)
    ensures MatchesEmailPattern(s) <==> NoWhitespace(s) && exists a, b, c :: EmailParts(s, a, b, c)
  {
    if MatchesEmailPattern(s) {
      var i, j :| 0 <= i < |s| && 0 <= j < |s| && EmailSplit(s, i, j);
      assert EmailParts(s, s[..i], s[i + 1..j], s[j + 1..]) by {
        assert s == s[..i] + "@" + s[i + 1..j] + "." + s[j + 1..];
      }
    }
    if NoWhitespace(s) && exists a, b, c :: EmailParts(s, a, b, c) {
      var a, b, c :| EmailParts(s, a, b, c);
      var i, j := |a|, |a| + 1 + |b|;
      assert s[i] == '@' && s[j] == '.';
      assert EmailSplit(s, i, j);
    }
  }

  /** The email rule: the required message only for blank input, the format message for everything else the pattern refuses. */
  lemma EmailRule(email: string)
    ensures AllWhitespace(email) ==> EmailError(email) == Some(EmailRequired)
    ensures !AllWhitespace(email) && !MatchesEmailPattern(email) ==> EmailError(email) == Some(EmailInvalid)
    ensures EmailError(email) == None <==> MatchesEmailPattern(email)
  {
    TrimEmptyIff(email);
    if MatchesEmailPattern(email) {
      var i, j :| 0 <= i < |email| && 0 <= j < |email| && EmailSplit(email, i, j);
      assert !IsWhitespace(email[i]);
    }
  }

  /** `/^[A-Za-z\d…]+$/.test(s)`, the expression named `noCyrillic`. */
  predicate MatchesAllowedOnly(s: string) {
    |s| >= 1 && AllAllowed(s)
  }

  /** The password checks, the first failing one giving the message. */
  function PasswordError(password: string): Option<string> {
    if password == [] then Some(PasswordRequired)
    else if |password| < 8 then Some(MinEight)
    else if !MatchesAllowedOnly(password) then Some(NoCyrillic)
    else if !HasLower(password) then Some(AddLower)
    else if !HasUpper(password) then Some(AddUpper)
    else if !HasDigit(password) then Some(AddDigit)
    else if !HasSpecial(password) then Some(AddSpecial)
    else None
  }

  /** The password message given each earlier check passes, in the order the source tests them. */
  lemma PasswordRule(p: string)
    ensures p == [] ==> PasswordError(p) == Some(PasswordRequired)
    ensures 0 < |p| < 8 ==> PasswordError(p) == Some(MinEight)
    ensures |p| >= 8 && !AllAllowed(p) ==> PasswordError(p) == Some(NoCyrillic)
    ensures |p| >= 8 && AllAllowed(p) && !HasLower(p) ==> PasswordError(p) == Some(AddLower)
    ensures |p| >= 8 && AllAllowed(p) && HasLower(p) && !HasUpper(p) ==> PasswordError(p) == Some(AddUpper)
    ensures |p| >= 8 && AllAllowed(p) && HasLower(p) && HasUpper(p) && !HasDigit(p) ==> PasswordError(p) == Some(AddDigit)
    ensures |p| >= 8 && AllAllowed(p) && HasLower(p) && HasUpper(p) && HasDigit(p) && !HasSpecial(p) ==> PasswordError(p) == Some(AddSpecial)
    ensures PasswordError(p) == None <==> StrongPassword(p)
  {
  }

  /** The keys of the returned record, the names of the form's fields. */
  datatype Field = Username | DisplayName | Email | Password

  function FieldName(f: Field): string {
    match f
    case Username => "username"
    case DisplayName => "displayName"
    case Email => "email"
    case Password => "password"
  }

  /** The check a field's entry comes from. */
  function FieldError(values: RegisterForm, f: Field): Option<string> {
    match f
    case Username => UsernameError(values.username)
    case DisplayName => DisplayNameError(values.displayName)
    case Email => EmailError(values.email)
    case Password => PasswordError(values.password)
  }

  /** The whole form: an entry for a field exactly when that field's check produced a message, holding that message. */
  function ValidationRegisterForm(values: RegisterForm): map<Field, string> {
    Collect(UsernameError(values.username), DisplayNameError(values.displayName),
            EmailError(values.email), PasswordError(values.password))
  }

  /** The record built field by field, as the source fills `errors`. */
  function Collect(username: Option<string>, displayName: Option<string>, email: Option<string>, password: Option<string>): map<Field, string> {
    Entry(Username, username) + Entry(DisplayName, displayName) + Entry(Email, email) + Entry(Password, password)
  }

  function Entry(f: Field, message: Option<string>): map<Field, string> {
    if message.Some? then map[f := message.value] else map[]
  }

  function Pick(f: Field, username: Option<string>, displayName: Option<string>, email: Option<string>, password: Option<string>): Option<string> {
    match f
    case Username => username
    case DisplayName => displayName
    case Email => email
    case Password => password
  }

  lemma CollectEntry(f: Field, u: Option<string>, d: Option<string>, e: Option<string>, p: Option<string>)
    ensures f in Collect(u, d, e, p) <==> Pick(f, u, d, e, p).Some?
    ensures f in Collect(u, d, e, p) ==> Collect(u, d, e, p)[f] == Pick(f, u, d, e, p).value
  {
  }

  /** The entry for `f` is there exactly when its check produced a message, and holds that message. */
  lemma FieldEntry(values: RegisterForm, f: Field)
    ensures f in ValidationRegisterForm(values) <==> FieldError(values, f).Some?
    ensures f in ValidationRegisterForm(values) ==> ValidationRegisterForm(values)[f] == FieldError(values, f).value
  {
    CollectEntry(f, UsernameError(values.username), DisplayNameError(values.displayName),
                 EmailError(values.email), PasswordError(values.password));
  }

  /** No entries exactly when no field's check produced a message. */
  lemma EmptyIffAllPass(values: RegisterForm)
    ensures ValidationRegisterForm(values) == map[] <==>
      (UsernameError(values.username).None? && DisplayNameError(values.displayName).None?
       && EmailError(values.email).None? && PasswordError(values.password).None?)
  {
    var errors := ValidationRegisterForm(values);
    FieldEntry(values, Username);
    FieldEntry(values, DisplayName);
    FieldEntry(values, Email);
    FieldEntry(values, Password);
    if errors != map[] {
      var f :| f in errors;
      FieldEntry(values, f);
    }
  }

  /** The form is accepted (no entries) exactly when every field passes its own rule. */
  lemma RegisterAcceptedIff(values: RegisterForm)
    ensures ValidationRegisterForm(values) == map[] <==>
      (!AllWhitespace(values.username) && |values.username| >= 3
       && !AllWhitespace(values.displayName) && |values.displayName| >= 3
       && MatchesEmailPattern(values.email)
       && StrongPassword(values.password))
  {
    EmptyIffAllPass(values);
    NameRule(values.username, UsernameRequired);
    NameRule(values.displayName, NicknameRequired);
    EmailRule(values.email);
    PasswordRule(values.password);
  }

  /** A field's entry depends on that field's value alone. */
  lemma EntryDependsOnlyOnField(v: RegisterForm, w: RegisterForm, f: Field)
    requires f == Username ==> v.username == w.username
    requires f == DisplayName ==> v.displayName == w.displayName
    requires f == Email ==> v.email == w.email
    requires f == Password ==> v.password == w.password
    ensures f in ValidationRegisterForm(v) <==> f in ValidationRegisterForm(w)
    ensures f in ValidationRegisterForm(v) ==> ValidationRegisterForm(v)[f] == ValidationRegisterForm(w)[f]
  {
    FieldEntry(v, f);
    FieldEntry(w, f);
    assert FieldError(v, f) == FieldError(w, f);
  }
}
