/**
 * Field rules as the form library checks them (required, then length, then
 * pattern; the first failing rule's message is shown): the generic `required`
 * rule on form data, and the login and registration rules. The two regular
 * expressions are restated as character predicates and proved equivalent to
 * their regex readings.
 */
module FieldRules {
  import opened Wrappers
  import opened JsValues

  /** What the form library's `required` rule treats as missing. */
  predicate Blank(v: JsValue) {
    v.Undefined? || v.Null? || v == Str("") || v == Bool(false)
  }

  /** A `required` rule: its message when the field is missing. */
  function RequiredError(data: FormData, name: string, message: string): (e: Option<string>)
    ensures e.Some? <==> Blank(Field(data, name))
    ensures e.Some? ==> e.value == message
  {
    if Blank(Field(data, name)) then Some(message) else None
  }

  /** The characters JavaScript's `\s` matches. */
  predicate IsJsSpace(c: char) {
    c == ' ' || c == '\t' || c == '\n' || c == '\U{000B}' || c == '\U{000C}' || c == '\r' || c == '\U{00A0}'
    || c == '\U{1680}' || ('\U{2000}' <= c <= '\U{200A}') || c == '\U{2028}' || c == '\U{2029}' || c == '\U{202F}'
    || c == '\U{205F}' || c == '\U{3000}' || c == '\U{FEFF}'
  }

  /** The characters JavaScript's `.` does not match (without the `s` flag). */
  predicate IsLineTerminator(c: char) {
    c == '\n' || c == '\r' || c == '\U{2028}' || c == '\U{2029}'
  }

  predicate IsUpper(c: char) {
    'A' <= c <= 'Z'
  }

  predicate IsLower(c: char) {
    'a' <= c <= 'z'
  }

  /** A run of `[^\s@]` characters. */
  predicate Plain(s: string) {
    forall k :: 0 <= k < |s| ==> !IsJsSpace(s[k]) && s[k] != '@'
  }

  /** The position of the first `@`, or `|s|` when there is none. */
  function FirstAt(s: string): (i: nat)
    ensures i <= |s|
    ensures i < |s| ==> s[i] == '@'
    ensures forall k :: 0 <= k < i ==> s[k] != '@'
  {
    if |s| == 0 then 0
    else if s[0] == '@' then 0
    else 1 + FirstAt(s[1..])
  }

  /** The domain holds a `.` that is neither its first nor its last character. */
  predicate InnerDot(domain: string) {
    exists j :: 0 < j < |domain| - 1 && domain[j] == '.'
  }

  /**
   * The email rule as plain facts: one `@`, preceded by a non-empty local part,
   * no whitespace anywhere, and a dot inside the domain.
   */
  predicate ValidEmail(s: string) {
    var i := FirstAt(s);
    0 < i < |s| && Plain(s[..i]) && Plain(s[i + 1..]) && InnerDot(s[i + 1..])
  }

  /** What `/^[^\s@]+@[^\s@]+\.[^\s@]+$/` accepts: three non-empty plain runs around `@` and `.`. */
  ghost predicate EmailRegex(s: string) {
    exists i, j :: 0 < i && i + 1 < j < |s| - 1 && s[i] == '@' && s[j] == '.'
      && Plain(s[..i]) && Plain(s[i + 1..j]) && Plain(s[j + 1..])
  }

  /** The characters of `s` from position `lo` on are all plain. */
  predicate PlainFrom(s: string, lo: nat) {
    forall k :: lo <= k < |s| ==> !IsJsSpace(s[k]) && s[k] != '@'
  }

  lemma PlainSuffix(s: string, lo: nat)
    requires lo <= |s|
    ensures Plain(s[lo..]) <==> PlainFrom(s, lo)
  {
    if Plain(s[lo..]) {
      forall k | lo <= k < |s|
        ensures !IsJsSpace(s[k]) && s[k] != '@'
      {
        assert s[k] == s[lo..][k - lo];
      }
    }
  }

  /** `FirstAt` finds an `@` that no earlier character is. */
  lemma {:induction false} FirstAtIs(s: string, i: nat)
    requires i < |s| && s[i] == '@'
    requires forall k :: 0 <= k < i ==> s[k] != '@'
    ensures FirstAt(s) == i
  {
    if i > 0 {
      FirstAtIs(s[1..], i - 1);
    }
  }

  /** A plain run, a `.` and a plain tail make a plain tail from the run's start. */
  lemma PlainAcrossDot(s: string, lo: nat, j: nat)
    requires lo <= j < |s| && s[j] == '.'
    requires Plain(s[lo..j]) && PlainFrom(s, j + 1)
    ensures PlainFrom(s, lo)
  {
    forall k | lo <= k < j
      ensures !IsJsSpace(s[k]) && s[k] != '@'
    {
      assert s[k] == s[lo..j][k - lo];
    }
  }

  lemma EmailRegexImpliesRule(s: string)
    requires EmailRegex(s)
    ensures ValidEmail(s)
  {
    var i, j :| 0 < i && i + 1 < j < |s| - 1 && s[i] == '@' && s[j] == '.'
      && Plain(s[..i]) && Plain(s[i + 1..j]) && Plain(s[j + 1..]);
    forall k | 0 <= k < i
      ensures s[k] != '@'
    {
      assert s[k] == s[..i][k];
    }
    FirstAtIs(s, i);
    PlainSuffix(s, j + 1);
    PlainAcrossDot(s, i + 1, j);
    PlainSuffix(s, i + 1);
    assert s[i + 1..][j - i - 1] == '.';
  }

  lemma EmailRuleImpliesRegex(s: string)
    requires ValidEmail(s)
    ensures EmailRegex(s)
  {
    var i := FirstAt(s);
    var d := s[i + 1..];
    var jd :| 0 < jd < |d| - 1 && d[jd] == '.';
    var j := i + 1 + jd;
    assert s[j] == '.';
    PlainSuffix(s, i + 1);
    PlainSuffix(s, j + 1);
    assert Plain(s[i + 1..j]);
  }

  /** The email rule accepts exactly what the regular expression accepts. */
  lemma EmailRuleIsRegex(s: string)
    ensures ValidEmail(s) <==> EmailRegex(s)
  {
    if EmailRegex(s) {
      EmailRegexImpliesRule(s);
    }
    if ValidEmail(s) {
      EmailRuleImpliesRegex(s);
    }
  }

  /** No line break anywhere in `s`. */
  predicate OneLine(s: string) {
    forall k :: 0 <= k < |s| ==> !IsLineTerminator(s[k])
  }

  /** The password rule as plain facts: six characters or more, an upper and a lower ASCII letter, no line break. */
  predicate ValidPassword(s: string) {
    |s| >= 6 && (exists k :: 0 <= k < |s| && IsUpper(s[k])) && (exists k :: 0 <= k < |s| && IsLower(s[k])) && OneLine(s)
  }

  /** `(?=.*[A-Z])` at the start: an upper-case letter after a prefix without line breaks. */
  ghost predicate UpperAhead(s: string) {
    exists k :: 0 <= k < |s| && IsUpper(s[k]) && OneLine(s[..k])
  }

  /** `(?=.*[a-z])` at the start. */
  ghost predicate LowerAhead(s: string) {
    exists k :: 0 <= k < |s| && IsLower(s[k]) && OneLine(s[..k])
  }

  /** What `/^(?=.*[a-z])(?=.*[A-Z]).{6,}$/` accepts. */
  ghost predicate PasswordRegex(s: string) {
    LowerAhead(s) && UpperAhead(s) && |s| >= 6 && OneLine(s)
  }

  lemma PasswordRuleIsRegex(s: string)
    ensures ValidPassword(s) <==> PasswordRegex(s)
  {
    if ValidPassword(s) {
      var u :| 0 <= u < |s| && IsUpper(s[u]);
      var l :| 0 <= l < |s| && IsLower(s[l]);
      assert OneLine(s[..u]) && OneLine(s[..l]);
    }
  }

  /** The three strength ticks shown under a non-empty password. */
  datatype Ticks = Ticks(length: bool, upper: bool, lower: bool)

  function StrengthTicks(s: string): Ticks {
    Ticks(|s| >= 6, exists k :: 0 <= k < |s| && IsUpper(s[k]), exists k :: 0 <= k < |s| && IsLower(s[k]))
  }

  /** Whether the ticks are shown at all: only under a non-empty password. */
  predicate TicksShown(s: string) {
    s != ""
  }

  /** Hiding the ticks under an empty password hides no set tick, and the rule refuses that password. */
  lemma HiddenTicksUnset(s: string)
    ensures !TicksShown(s) ==> StrengthTicks(s) == Ticks(false, false, false) && !ValidPassword(s)
    ensures TicksShown(s) <==> |s| > 0
  {
  }

  /** For a password without line breaks, all three ticks are set exactly when the rule accepts it. */
  lemma TicksMatchRule(s: string)
    requires OneLine(s)
    ensures StrengthTicks(s) == Ticks(true, true, true) <==> ValidPassword(s)
  {
  }

  /** A line separator is the one way to have all ticks set and the rule refuse. */
  lemma TicksWithLineSeparator()
    ensures StrengthTicks("Abcdef\U{2028}") == Ticks(true, true, true) && !ValidPassword("Abcdef\U{2028}")
  {
    var s := "Abcdef\U{2028}";
    assert IsUpper(s[0]) && IsLower(s[1]) && IsLineTerminator(s[6]);
  }

  /** Registration name: required, then at least four characters. */
  function NameError(name: string): (e: Option<string>)
    ensures e.None? <==> |name| >= 4
  {
    if name == "" then Some("Name is required")
    else if |name| < 4 then Some("Name must be at least 4 characters")
    else None
  }

  /** Email on both forms: required, then the email pattern. */
  function EmailError(email: string): (e: Option<string>)
    ensures e.None? <==> ValidEmail(email)
    ensures email == "" ==> e == Some("Email is required")
  {
    if email == "" then Some("Email is required")
    else if !ValidEmail(email) then Some("Invalid email address")
    else None
  }

  /** Login password: only required. */
  function LoginPasswordError(password: string): (e: Option<string>)
    ensures e.None? <==> password != ""
  {
    if password == "" then Some("Password is required") else None
  }

  /** Registration password: required, then six characters, then the upper-and-lower pattern. */
  function PasswordError(password: string): (e: Option<string>)
    ensures e.None? <==> ValidPassword(password)
    ensures password == "" ==> e == Some("Password is required")
    ensures password != "" && |password| < 6 ==> e == Some("Password must be at least 6 characters")
  {
    if password == "" then Some("Password is required")
    else if |password| < 6 then Some("Password must be at least 6 characters")
    else if !ValidPassword(password) then Some("Password must contain at least one uppercase and one lowercase letter")
    else None
  }
}
