/** The two input validators of the user routes: the email pattern
    `^[a-zA-Z0-9._%+-]+@[a-zA-Z0-9.-]+\.[a-zA-Z]{2,}$` and the minimum
    password length. */
module Validation {
  import opened Values

  const PasswordTooShort := "Password must be at least 6 characters"
  const MinPasswordLength := 6

  predicate Letter(c: char)
  {
    ('a' <= c <= 'z') || ('A' <= c <= 'Z')
  }

  predicate Digit(c: char)
  {
    '0' <= c <= '9'
  }

  /** `[a-zA-Z0-9._%+-]` */
  predicate LocalChar(c: char)
  {
    Letter(c) || Digit(c) || c == '.' || c == '_' || c == '%' || c == '+' || c == '-'
  }

  /** `[a-zA-Z0-9.-]` */
  predicate DomainChar(c: char)
  {
    Letter(c) || Digit(c) || c == '.' || c == '-'
  }

  /** `s` read as local@domain.tld with the `@` at `at` and the dot before the
      top-level label at `dot`: each part non-empty and drawn from its class,
      the top-level label at least two letters. */
  predicate EmailPartsAt(s: string, at: int, dot: int)
  {
    && 1 <= at && at + 1 < dot && dot + 3 <= |s|
    && s[at] == '@' && s[dot] == '.'
    && (forall k :: 0 <= k < at ==> LocalChar(s[k]))
    && (forall k :: at < k < dot ==> DomainChar(s[k]))
    && (forall k :: dot < k < |s| ==> Letter(s[k]))
  }

  /** The language of the email regular expression. */
  ghost predicate EmailShape(s: string)
  {
    exists at, dot :: EmailPartsAt(s, at, dot)
  }

  /** Index of the first `c` in `s`. */
  function FirstIndex(s: string, c: char): (r: Option<nat>)
    ensures r.Some? ==> r.value < |s| && s[r.value] == c && c !in s[..r.value]
    ensures r.None? ==> c !in s
  {
    if s == [] then None
    else if s[0] == c then Some(0)
    else match FirstIndex(s[1..], c)
      case None => None
      case Some(i) => assert s[..i + 1] == [s[0]] + s[1..][..i]; Some(i + 1)
  }

  /** Index of the last `c` in `s`. */
  function LastIndex(s: string, c: char): (r: Option<nat>)
    ensures r.Some? ==> r.value < |s| && s[r.value] == c && c !in s[r.value + 1..]
    ensures r.None? ==> c !in s
  {
    if s == [] then None
    else if s[|s| - 1] == c then Some(|s| - 1)
    else
      var r := LastIndex(s[..|s| - 1], c);
      assert s == s[..|s| - 1] + [s[|s| - 1]];
      r
  }

  /** `validateEmail(email)`: the regular expression, decided by locating
      the first `@` and the last `.`; see ValidateEmailIsPattern. */
  function ValidateEmail(s: string): bool
  {
    match (FirstIndex(s, '@'), LastIndex(s, '.'))
    case (Some(at), Some(dot)) => EmailPartsAt(s, at, dot)
    case _ => false
  }

  /** The validator accepts exactly the strings the regular expression
      matches. No character class admits `@`, so the `@` is the first one;
      the top-level label is letters only, so its dot is the last one. */
  lemma ValidateEmailIsPattern(s: string)
    ensures ValidateEmail(s) <==> EmailShape(s)
  {
    if EmailShape(s) {
      var at, dot :| EmailPartsAt(s, at, dot);
      var first := FirstIndex(s, '@');
      var last := LastIndex(s, '.');
      assert '@' in s[..at + 1];
      assert first.value == at;
      assert s[dot] == '.';
      assert last.value == dot;
    }
  }

  /** `validatePassword(password)`: present and at least six characters. */
  datatype PasswordCheck = PasswordCheck(isValid: bool, message: string)

  function ValidatePassword(password: Option<string>): (r: PasswordCheck)
    ensures r.isValid <==> password.Some? && |password.value| >= MinPasswordLength
    ensures r.isValid ==> r.message == ""
    ensures !r.isValid ==> r.message == PasswordTooShort
  {
    if !Present(password) || |password.value| < MinPasswordLength then
      PasswordCheck(false, PasswordTooShort)
    else
      PasswordCheck(true, "")
  }
}
