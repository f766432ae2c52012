/**
 * What the login and registration forms check before they submit, and how
 * they word a failed call: the email pattern `/^[^\s@]+@[^\s@]+\.[^\s@]+$/`
 * both forms declare, JavaScript's string length, and the message picked
 * from an error reply.
 */
module FormRules {
  import opened Wrappers
  import opened Urls
  import opened ApiClient

  // ---------------------------------------------------------------- the email pattern

  /** JavaScript's `\s`: the white space and line terminator characters. */
  predicate IsJsSpace(c: char) {
    c == '\t' || c == '\n' || c == '\U{B}' || c == '\U{C}' || c == '\r' || c == ' '
    || c == '\U{A0}' || c == '\U{1680}' || '\U{2000}' <= c <= '\U{200A}'
    || c == '\U{2028}' || c == '\U{2029}' || c == '\U{202F}' || c == '\U{205F}'
    || c == '\U{3000}' || c == '\U{FEFF}'
  }

  /** `[^\s@]` */
  predicate IsPlain(c: char) {
    !IsJsSpace(c) && c != '@'
  }

  predicate AllPlain(s: string) {
    forall k :: 0 <= k < |s| ==> IsPlain(s[k])
  }

  /**
   * What the pattern accepts: some split of the whole string into a
   * non-empty part, `@`, a non-empty part, `.` and a non-empty part, none of
   * them holding white space or `@`.
   */
  ghost predicate FrontEmailPattern(s: string) {
    exists i, j :: 0 < i && i + 1 < j && j + 1 < |s| && s[i] == '@' && s[j] == '.'
                   && AllPlain(s[..i]) && AllPlain(s[i + 1..j]) && AllPlain(s[j + 1..])
  }

  /**
   * `emailRegex.test(email)`: the split is at the only `@`, and any `.` of
   * the rest that is neither its first nor its last character will do, so
   * the first one after the first character is tried.
   */
  predicate FrontEmailMatches(s: string) {
    var i := IndexOf(s, '@');
    && 0 < i < |s|
    && AllPlain(s[..i])
    && var rest := s[i + 1..];
       && AllPlain(rest)
       && |rest| >= 3
       && 1 + IndexOf(rest[1..], '.') < |rest| - 1
  }

  lemma FrontEmailMatchesSound(s: string)
    requires FrontEmailMatches(s)
    ensures FrontEmailPattern(s)
  {
    var i := IndexOf(s, '@');
    var rest := s[i + 1..];
    var j := 1 + IndexOf(rest[1..], '.');
    var j' := i + 1 + j;
    assert s[j'] == rest[j] == '.';
    assert s[i + 1..j'] == rest[..j];
    assert s[j' + 1..] == rest[j + 1..];
  }

  lemma FrontEmailMatchesComplete(s: string, i: nat, j: nat)
    requires 0 < i && i + 1 < j && j + 1 < |s| && s[i] == '@' && s[j] == '.'
    requires AllPlain(s[..i]) && AllPlain(s[i + 1..j]) && AllPlain(s[j + 1..])
    ensures FrontEmailMatches(s)
  {
    forall k | 0 <= k < i
      ensures s[k] != '@'
    {
      assert s[k] == s[..i][k];
    }
    assert IndexOf(s, '@') == i;
    var rest := s[i + 1..];
    forall k | 0 <= k < |rest|
      ensures IsPlain(rest[k])
    {
      if i + 1 + k < j {
        assert rest[k] == s[i + 1..j][k];
      } else if i + 1 + k > j {
        assert rest[k] == s[j + 1..][k - (j - i)];
      }
    }
    var jr := j - i - 1;
    assert rest[1..][jr - 1] == '.';
    assert IndexOf(rest[1..], '.') <= jr - 1;
  }

  /** The matcher accepts exactly the strings the pattern describes. */
  lemma FrontEmailMatchesPattern(s: string)
    ensures FrontEmailMatches(s) <==> FrontEmailPattern(s)
  {
    if FrontEmailMatches(s) {
      FrontEmailMatchesSound(s);
    }
    if FrontEmailPattern(s) {
      var i, j :| 0 < i && i + 1 < j && j + 1 < |s| && s[i] == '@' && s[j] == '.'
                  && AllPlain(s[..i]) && AllPlain(s[i + 1..j]) && AllPlain(s[j + 1..]);
      FrontEmailMatchesComplete(s, i, j);
    }
  }

  // ---------------------------------------------------------------- string length

  /** The number of UTF-16 code units of one character. */
  function Utf16Width(c: char): nat {
    if c as int < 0x10000 then 1 else 2
  }

  /** JavaScript's `s.length`: UTF-16 code units. */
  function Utf16Len(s: string): (n: nat)
    ensures |s| <= n <= 2 * |s|
  {
    if s == [] then 0 else Utf16Width(s[0]) + Utf16Len(s[1..])
  }

  /** `password.length < 6` in the registration form. */
  const MinPasswordLength: nat := 6

  // ---------------------------------------------------------------- messages

  /**
   * `err.response?.data?.error || err.response?.data?.message || fallback`:
   * the error of the reply, else its message, else the fallback; a request
   * that got no answer takes the fallback.
   */
  function RejectionMessage<T>(answer: ServerAnswer<T>, fallback: string): (m: string)
    requires fallback != ""
    ensures m != ""
    ensures answer.Answer? && answer.body.error != "" ==> m == answer.body.error
    ensures answer.Answer? && answer.body.error == "" && answer.body.message != "" ==> m == answer.body.message
    ensures answer.NoResponse? || (answer.body.error == "" && answer.body.message == "") ==> m == fallback
  {
    if answer.Answer? && answer.body.error != "" then answer.body.error
    else if answer.Answer? && answer.body.message != "" then answer.body.message
    else fallback
  }

  /** `response.error || fallback` for a resolved call that reports failure. */
  function ResolvedMessage<T>(body: Envelope<T>, fallback: string): (m: string)
    requires fallback != ""
    ensures m != ""
    ensures body.error != "" ==> m == body.error
    ensures body.error == "" ==> m == fallback
  {
    if body.error != "" then body.error else fallback
  }
}
