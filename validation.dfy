/**
 * The decisions the authentication screens' validators make: required
 * fields, the username and email patterns, and the password length rule
 * (app/auth/register.tsx, app/auth/login.tsx, app/auth/forgot-password.tsx).
 * Each verdict carries the message the screen writes into the field's
 * error, "" when the check passes.
 */
module Validation {
  import opened JsStrings

  const NameRequired: string := "Name is required"
  const GenderRequired: string := "Gender is required"
  const EmailRequired: string := "Email is required"
  const InvalidEmail: string := "Invalid email"
  const UsernameRequired: string := "Username is required"
  const InvalidUsername: string := "Invalid username"
  const PasswordRequired: string := "Password is required"
  const PasswordTooShort: string := "Password must be at least 6 characters"
  const MinPasswordLength: nat := 6

  datatype Check = Check(valid: bool, error: string)

  predicate IsAsciiLetter(c: char) {
    ('a' <= c <= 'z') || ('A' <= c <= 'Z')
  }

  predicate IsAsciiDigit(c: char) {
    '0' <= c <= '9'
  }

  /** `[a-zA-Z0-9._-]`: an email's local part and a registration username. */
  predicate IsLocalChar(c: char) {
    IsAsciiLetter(c) || IsAsciiDigit(c) || c == '.' || c == '_' || c == '-'
  }

  /** `[a-zA-Z0-9.-]`: an email's domain. */
  predicate IsDomainChar(c: char) {
    IsAsciiLetter(c) || IsAsciiDigit(c) || c == '.' || c == '-'
  }

  /** `[a-zA-Z0-9._@-]`: a login username. */
  predicate IsLoginUsernameChar(c: char) {
    IsLocalChar(c) || c == '@'
  }

  predicate AllChars(s: string, p: char -> bool) {
    forall i :: 0 <= i < |s| ==> p(s[i])
  }

  /** `/^[a-zA-Z0-9._-]+$/.test(s)` (app/auth/register.tsx:97). */
  predicate UsernamePattern(s: string) {
    |s| > 0 && AllChars(s, IsLocalChar)
  }

  /** `/^[a-zA-Z0-9._@-]+$/.test(s)` (app/auth/login.tsx:51). */
  predicate LoginUsernamePattern(s: string) {
    |s| > 0 && AllChars(s, IsLoginUsernameChar)
  }

  /**
   * `s` read as local part, '@' at `at`, domain, '.' at `dot`, then a
   * top-level domain of 2 to 6 ASCII letters.
   */
  predicate EmailSplit(s: string, at: int, dot: int) {
    && 0 < at && at + 1 < dot < |s|
    && s[at] == '@' && s[dot] == '.'
    && AllChars(s[..at], IsLocalChar)
    && AllChars(s[at + 1..dot], IsDomainChar)
    && 2 <= |s| - (dot + 1) <= 6
    && AllChars(s[dot + 1..], IsAsciiLetter)
  }

  /** What `/^[a-zA-Z0-9._-]+@[a-zA-Z0-9.-]+\.[a-zA-Z]{2,6}$/` matches: some split of the string fits it. */
  ghost predicate EmailShape(s: string) {
    exists at, dot :: EmailSplit(s, at, dot)
  }

  /** The first index of `c`, or -1. */
  function IndexOf(s: string, c: char): (r: int)
    ensures -1 <= r < |s|
    ensures r >= 0 ==> s[r] == c && forall k :: 0 <= k < r ==> s[k] != c
    ensures r == -1 ==> forall k :: 0 <= k < |s| ==> s[k] != c
  {
    if s == [] then -1
    else if s[0] == c then 0
    else
      var r := IndexOf(s[1..], c);
      if r == -1 then -1 else r + 1
  }

  /** The last index of `c`, or -1. */
  function LastIndexOf(s: string, c: char): (r: int)
    ensures -1 <= r < |s|
    ensures r >= 0 ==> s[r] == c && forall k :: r < k < |s| ==> s[k] != c
    ensures r == -1 ==> forall k :: 0 <= k < |s| ==> s[k] != c
  {
    if s == [] then -1
    else if s[|s| - 1] == c then |s| - 1
    else LastIndexOf(s[..|s| - 1], c)
  }

  /**
   * The email regex's test: the parts can contain no '@', so the '@' must
   * be the first one; the top-level domain contains no '.', so the '.'
   * before it must be the last one.
   */
  predicate EmailPattern(s: string) {
    EmailSplit(s, IndexOf(s, '@'), LastIndexOf(s, '.'))
  }

  /** The test accepts exactly the strings the regex describes. */
  lemma EmailPatternIsShape(s: string)
    ensures EmailPattern(s) <==> EmailShape(s)
  {
    if EmailShape(s) {
      var at, dot :| EmailSplit(s, at, dot);
      forall k | 0 <= k < at
        ensures s[k] != '@'
      {
        assert s[..at][k] == s[k];
      }
      forall k | dot < k < |s|
        ensures s[k] != '.'
      {
        assert s[dot + 1..][k - (dot + 1)] == s[k];
      }
      assert IndexOf(s, '@') == at;
      assert LastIndexOf(s, '.') == dot;
    }
  }

  /** Which class the character at `k` belongs to, given a split. */
  lemma SplitCharClass(s: string, at: int, dot: int, k: int)
    requires EmailSplit(s, at, dot) && 0 <= k < |s|
    ensures k < at ==> IsLocalChar(s[k])
    ensures at < k < dot ==> IsDomainChar(s[k])
    ensures dot < k ==> IsAsciiLetter(s[k])
  {
    if k < at {
      assert s[..at][k] == s[k];
    } else if at < k < dot {
      assert s[at + 1..dot][k - (at + 1)] == s[k];
    } else if dot < k {
      assert s[dot + 1..][k - (dot + 1)] == s[k];
    }
  }

  /** Under any split, the '@' at `at` is the only one. */
  lemma SplitHasOneAt(s: string, at: int, dot: int)
    requires EmailSplit(s, at, dot)
    ensures forall k :: 0 <= k < |s| && s[k] == '@' ==> k == at
  {
    forall k | 0 <= k < |s| && s[k] == '@'
      ensures k == at
    {
      SplitCharClass(s, at, dot, k);
    }
  }

  /** An accepted email has exactly one '@'. */
  lemma EmailHasOneAt(s: string)
    requires EmailPattern(s)
    ensures forall k :: 0 <= k < |s| && s[k] == '@' ==> k == IndexOf(s, '@')
  {
    SplitHasOneAt(s, IndexOf(s, '@'), LastIndexOf(s, '.'));
  }

  /** An accepted email contains no whitespace, so trimming it changes nothing. */
  lemma EmailPatternTrimmed(s: string)
    requires EmailPattern(s)
    ensures Trim(s) == s
  {
    var at, dot := IndexOf(s, '@'), LastIndexOf(s, '.');
    assert EmailSplit(s, at, dot);
    forall k | 0 <= k < |s|
      ensures !IsWhitespace(s[k])
    {
      SplitCharClass(s, at, dot, k);
    }
    TrimKeepsWhitespaceFree(s);
  }

  /** A username accepted at registration is accepted at login: the login class adds '@'. */
  lemma UsernameAcceptedAtLogin(s: string)
    requires UsernamePattern(s)
    ensures LoginUsernamePattern(s)
  {
  }

  /** Accepted usernames contain no whitespace, so trimming them changes nothing. */
  lemma LoginUsernameTrimmed(s: string)
    ensures LoginUsernamePattern(s) ==> Trim(s) == s
  {
    if LoginUsernamePattern(s) {
      forall k | 0 <= k < |s|
        ensures !IsWhitespace(s[k])
      {
        assert IsLoginUsernameChar(s[k]);
      }
      TrimKeepsWhitespaceFree(s);
    }
  }

  /** `if (!value)`: a required field fails exactly when it is empty. */
  function CheckRequired(value: string, message: string): (c: Check)
    ensures c.valid <==> value != ""
    ensures c.error == (if c.valid then "" else message)
  {
    if value == "" then Check(false, message) else Check(true, "")
  }

  /** The email validator's decision: emptiness first, then the pattern. */
  function CheckEmail(email: string): (c: Check)
    ensures email == "" ==> c == Check(false, EmailRequired)
    ensures email != "" ==> (c.valid <==> EmailShape(email))
    ensures email != "" && !c.valid ==> c.error == InvalidEmail
    ensures c.valid ==> c.error == "" && Trim(email) == email
  {
    EmailPatternIsShape(email);
    if email == "" then Check(false, EmailRequired)
    else if !EmailPattern(email) then Check(false, InvalidEmail)
    else
      EmailPatternTrimmed(email);
      Check(true, "")
  }

  /** The registration username validator: non-empty, over `[a-zA-Z0-9._-]`. */
  function CheckUsername(username: string): (c: Check)
    ensures username == "" ==> c == Check(false, UsernameRequired)
    ensures c.valid <==> username != "" && forall i :: 0 <= i < |username| ==> IsLocalChar(username[i])
    ensures username != "" && !c.valid ==> c.error == InvalidUsername
    ensures c.valid ==> c.error == "" && Trim(username) == username
  {
    LoginUsernameTrimmed(username);
    if username == "" then Check(false, UsernameRequired)
    else if !UsernamePattern(username) then Check(false, InvalidUsername)
    else Check(true, "")
  }

  /** The login username validator: non-empty, over `[a-zA-Z0-9._@-]`. */
  function CheckLoginUsername(username: string): (c: Check)
    ensures username == "" ==> c == Check(false, UsernameRequired)
    ensures c.valid <==> username != "" && forall i :: 0 <= i < |username| ==> IsLoginUsernameChar(username[i])
    ensures username != "" && !c.valid ==> c.error == InvalidUsername
    ensures c.valid ==> c.error == "" && Trim(username) == username
  {
    LoginUsernameTrimmed(username);
    if username == "" then Check(false, UsernameRequired)
    else if !LoginUsernamePattern(username) then Check(false, InvalidUsername)
    else Check(true, "")
  }

  /** '@' separates the two username rules: login accepts it, registration does not. */
  lemma AtSignOnlyAtLogin()
    ensures CheckLoginUsername("a@b").valid && !CheckUsername("a@b").valid
  {
    assert !IsLocalChar("a@b"[1]);
  }

  /**
   * The password validator's decision: required, then at least six UTF-16
   * code units (`password.length`), so a password of three astral
   * characters is long enough.
   */
  function CheckPassword(password: string): (c: Check)
    ensures password == "" ==> c == Check(false, PasswordRequired)
    ensures c.valid <==> Utf16Length(password) >= MinPasswordLength
    ensures password != "" && !c.valid ==> c.error == PasswordTooShort
    ensures c.valid ==> c.error == "" && |password| >= MinPasswordLength / 2
  {
    if password == "" then Check(false, PasswordRequired)
    else if Utf16Length(password) < MinPasswordLength then Check(false, PasswordTooShort)
    else Check(true, "")
  }
}
