/** The field rules both registration forms (src/pages/Auth/RegisterHr/RegisterHR.jsx and
    src/pages/Auth/RegisterEmployee/RegisterEmployee.jsx) give react-hook-form, and the
    failure text both show. The form checks each field's rules in the order required,
    minLength, pattern and reports the first that fails. */
module RegistrationRules {
  import opened Api

  const RequiredMessage := "Password is required"
  const MinLengthMessage := "Minimum 6 characters required"
  const PatternMessage := "Password must include uppercase, lowercase & special character"
  const MinLength := 6

  /** The error of a field registered with `{ required: true }`: an empty value fails with
      the empty message. */
  function RequiredError(value: string): (e: Option<string>)
    ensures e.Some? <==> value == ""
    ensures e.Some? ==> e.value == ""
  {
    if value == "" then Some("") else None
  }

  /** Adds the empty-message error of a required field when its value is empty. */
  function Require(errs: map<string, string>, key: string, value: string): map<string, string> {
    if RequiredError(value).Some? then errs[key := ""] else errs
  }

  /** Adds the password field's error, if any. */
  function CheckPassword(errs: map<string, string>, pw: string): map<string, string> {
    if PasswordError(pw).Some? then errs["password" := PasswordError(pw).value] else errs
  }

  predicate IsUpper(c: char) { 'A' <= c <= 'Z' }
  predicate IsLower(c: char) { 'a' <= c <= 'z' }
  /** `\w`: `[A-Za-z0-9_]`. */
  predicate IsWordChar(c: char) { IsUpper(c) || IsLower(c) || '0' <= c <= '9' || c == '_' }
  /** The characters `.` does not match. */
  predicate IsLineTerminator(c: char) { c == '\n' || c == '\r' || c == '\U{2028}' || c == '\U{2029}' }

  /** The three character classes the lookaheads search for: `[A-Z]`, `[a-z]` and `\W`. */
  datatype Class = Upper | Lower | NonWord

  predicate InClass(c: char, k: Class) {
    match k
    case Upper => IsUpper(c)
    case Lower => IsLower(c)
    case NonWord => !IsWordChar(c)
  }

  /** The lookahead `(?=.*X)` at the start of `s`: `.*` may run over anything but a line
      terminator, and backtracks to the first place where X matches. */
  predicate LookaheadFinds(s: string, k: Class) {
    if s == [] then false
    else if InClass(s[0], k) then true
    else if IsLineTerminator(s[0]) then false
    else LookaheadFinds(s[1..], k)
  }

  /** `.+$` from the start: at least one character and no line terminator up to the end. */
  predicate DotPlusToEnd(s: string) {
    s != [] && forall i :: 0 <= i < |s| ==> !IsLineTerminator(s[i])
  }

  /** `/^(?=.*[A-Z])(?=.*[a-z])(?=.*\W).+$/.test(s)`, as the regex engine runs it. */
  predicate MatchesPattern(s: string) {
    LookaheadFinds(s, Upper) && LookaheadFinds(s, Lower) && LookaheadFinds(s, NonWord) && DotPlusToEnd(s)
  }

  predicate Contains(s: string, k: Class) {
    exists i :: 0 <= i < |s| && InClass(s[i], k)
  }

  /** The rule as a statement about the characters: one line, with an upper-case letter,
      a lower-case letter and a character outside `[A-Za-z0-9_]`; digits play no part. */
  predicate Strong(s: string) {
    DotPlusToEnd(s) && Contains(s, Upper) && Contains(s, Lower) && Contains(s, NonWord)
  }

  lemma {:induction false} LookaheadSpec(s: string, k: Class)
    ensures LookaheadFinds(s, k) <==>
            exists i :: 0 <= i < |s| && InClass(s[i], k) && forall j :: 0 <= j < i ==> !IsLineTerminator(s[j])
  {
    if s != [] && !InClass(s[0], k) && !IsLineTerminator(s[0]) {
      LookaheadSpec(s[1..], k);
      if LookaheadFinds(s, k) {
        var i :| 0 <= i < |s[1..]| && InClass(s[1..][i], k) && forall j :: 0 <= j < i ==> !IsLineTerminator(s[1..][j]);
        assert forall j :: 0 <= j < i + 1 ==> !IsLineTerminator(s[j]) by {
          forall j | 0 <= j < i + 1 ensures !IsLineTerminator(s[j]) {
            if j > 0 { assert s[j] == s[1..][j - 1]; }
          }
        }
        assert InClass(s[i + 1], k);
      }
      if exists i :: 0 <= i < |s| && InClass(s[i], k) && forall j :: 0 <= j < i ==> !IsLineTerminator(s[j]) {
        var i :| 0 <= i < |s| && InClass(s[i], k) && forall j :: 0 <= j < i ==> !IsLineTerminator(s[j]);
        assert i > 0;
        assert InClass(s[1..][i - 1], k);
        assert forall j :: 0 <= j < i - 1 ==> !IsLineTerminator(s[1..][j]) by {
          forall j | 0 <= j < i - 1 ensures !IsLineTerminator(s[1..][j]) {
            assert s[1..][j] == s[j + 1];
          }
        }
      }
    } else if s != [] && InClass(s[0], k) {
      assert 0 <= 0 < |s| && InClass(s[0], k);
    } else if s != [] {
      assert !LookaheadFinds(s, k);
      forall i | 0 <= i < |s| && InClass(s[i], k)
        ensures exists j :: 0 <= j < i && IsLineTerminator(s[j])
      {
        assert i != 0;
        assert IsLineTerminator(s[0]);
      }
    }
  }

  /** Within a single line the lookaheads are plain "contains" tests, so the pattern means
      exactly `Strong`. */
  lemma PatternMeaning(s: string)
    ensures MatchesPattern(s) <==> Strong(s)
  {
    LookaheadSpec(s, Upper);
    LookaheadSpec(s, Lower);
    LookaheadSpec(s, NonWord);
    if DotPlusToEnd(s) {
      assert LookaheadFinds(s, Upper) <==> Contains(s, Upper);
      assert LookaheadFinds(s, Lower) <==> Contains(s, Lower);
      assert LookaheadFinds(s, NonWord) <==> Contains(s, NonWord);
    }
  }

  /** JavaScript's `.length`: UTF-16 code units, two for a character beyond U+FFFF. */
  function Utf16Length(s: string): (n: nat)
    ensures |s| <= n <= 2 * |s|
    ensures (forall i :: 0 <= i < |s| ==> s[i] <= '\U{FFFF}') ==> n == |s|
  {
    if s == [] then 0 else (if s[0] > '\U{FFFF}' then 2 else 1) + Utf16Length(s[1..])
  }

  /** The password field's first failing rule, or None when it passes. */
  function PasswordError(pw: string): (e: Option<string>)
    ensures e.None? <==> Utf16Length(pw) >= MinLength && Strong(pw)
    ensures e == Some(RequiredMessage) <==> pw == ""
    ensures e == Some(MinLengthMessage) <==> pw != "" && Utf16Length(pw) < MinLength
    ensures e == Some(PatternMessage) <==> Utf16Length(pw) >= MinLength && !Strong(pw)
  {
    PatternMeaning(pw);
    if pw == "" then Some(RequiredMessage)
    else if Utf16Length(pw) < MinLength then Some(MinLengthMessage)
    else if !MatchesPattern(pw) then Some(PatternMessage)
    else None
  }

  /** `_` is a word character: a password made only of letters, digits and underscores never passes. */
  lemma WordCharactersNeverPass(pw: string)
    requires forall i :: 0 <= i < |pw| ==> IsWordChar(pw[i])
    ensures PasswordError(pw).Some?
  {
    assert !Contains(pw, NonWord);
  }

  /** No digit is needed, the special character may be anything outside `[A-Za-z0-9_]`,
      and a short password is reported before its pattern. */
  lemma PasswordExamples()
    ensures PasswordError("Abcde!") == None
    ensures PasswordError("Abcde_") == Some(PatternMessage)
    ensures PasswordError("abcde!") == Some(PatternMessage)
    ensures PasswordError("Ab!") == Some(MinLengthMessage)
  {
    var ok := "Abcde!";
    assert IsUpper(ok[0]) && IsLower(ok[1]) && !IsWordChar(ok[5]);
    assert Strong(ok);
    var under := "Abcde_";
    assert forall i :: 0 <= i < |under| ==> IsWordChar(under[i]);
    WordCharactersNeverPass(under);
    var lower := "abcde!";
    assert forall i :: 0 <= i < |lower| ==> !IsUpper(lower[i]);
    assert !Contains(lower, Upper);
  }

  /** A line break anywhere fails the pattern, whatever else the password holds. */
  lemma LineBreakFails(before: string, after: string)
    requires Utf16Length(before + "\n" + after) >= MinLength
    ensures PasswordError(before + "\n" + after) == Some(PatternMessage)
  {
    var s := before + "\n" + after;
    assert s[|before|] == '\n';
    assert !DotPlusToEnd(s);
  }

  /** The failure dialog's text: `error.response?.data?.message || "Something went wrong"`. */
  function FailureText(error: HttpError): (t: string)
    ensures error.message.Some? && error.message.value != "" ==> t == error.message.value
    ensures error.message.None? || error.message.value == "" ==> t == "Something went wrong"
  {
    OrElse(error.message, "Something went wrong")
  }

  /** What the submit handler shows after `register` settles: a success dialog and then
      navigation to `/`, or the failure dialog and no navigation. */
  function Outcome(reply: Reply<User>): (effects: seq<Effect>)
    ensures reply.Resolved? ==> effects == [Popup("success", "Registration Successful", ""), Navigated("/")]
    ensures reply.Rejected? ==> effects == [Popup("error", "Registration Failed", FailureText(reply.error))]
    ensures Navigated("/") in effects <==> reply.Resolved?
  {
    if reply.Resolved? then [Popup("success", "Registration Successful", ""), Navigated("/")]
    else [Popup("error", "Registration Failed", FailureText(reply.error))]
  }
}
