/**
  The input validators shared by the browser forms and the server: the e-mail
  shape tested with the regular expression `^[^\s@]+@[^\s@]+\.[^\s@]+$`, and the
  five-rule password policy that both sides check in the same fixed order.
*/
module Validators {
  import opened JsStrings

  /** A character matched by the class `[^\s@]`. */
  predicate Plain(c: char) {
    !IsSpace(c) && c != '@'
  }

  /** The characters at positions lo .. hi-1 all match `[^\s@]`. */
  predicate PlainRun(s: string, lo: int, hi: int)
    requires 0 <= lo <= hi <= |s|
  {
    forall k :: lo <= k < hi ==> Plain(s[k])
  }

  /** `emailRegex.test(s)`: `s` splits at an `@` (index i) and a later `.`
      (index j) into three non-empty runs of `[^\s@]`. Backtracking lets the
      `.` be any dot of the domain. */
  predicate MatchesEmailPattern(s: string) {
    exists i, j :: 0 < i && i + 1 < j && j + 1 < |s| && s[i] == '@' && s[j] == '.'
      && PlainRun(s, 0, i) && PlainRun(s, i + 1, j) && PlainRun(s, j + 1, |s|)
  }

  /** The same shape described in words: no whitespace, exactly one `@`,
      which is not the first character, and a `.` in the part after the `@`
      that is neither its first nor its last character. */
  predicate WellFormedEmail(s: string) {
    && (forall k :: 0 <= k < |s| ==> !IsSpace(s[k]))
    && (exists at :: 0 < at < |s| && s[at] == '@'
         && (forall k :: 0 <= k < |s| && s[k] == '@' ==> k == at)
         && (exists j :: at + 1 < j < |s| - 1 && s[j] == '.'))
  }

  /** The regular expression accepts exactly the well-formed addresses. */
  lemma EmailPatternIffWellFormed(s: string)
    ensures MatchesEmailPattern(s) <==> WellFormedEmail(s)
  {
    if MatchesEmailPattern(s) {
      var i, j :| 0 < i && i + 1 < j && j + 1 < |s| && s[i] == '@' && s[j] == '.'
        && PlainRun(s, 0, i) && PlainRun(s, i + 1, j) && PlainRun(s, j + 1, |s|);
      assert forall k :: 0 <= k < |s| && k != i && k != j ==> Plain(s[k]);
    }
    if WellFormedEmail(s) {
      var at :| 0 < at < |s| && s[at] == '@'
        && (forall k :: 0 <= k < |s| && s[k] == '@' ==> k == at)
        && (exists j :: at + 1 < j < |s| - 1 && s[j] == '.');
      var j :| at + 1 < j < |s| - 1 && s[j] == '.';
      assert PlainRun(s, 0, at) && PlainRun(s, at + 1, j) && PlainRun(s, j + 1, |s|);
    }
  }

  /** The password rules, in the order in which the forms and the server apply them. */
  datatype PasswordRule = MinLength | SpecialChar | Uppercase | Lowercase | Digit

  const RuleOrder: seq<PasswordRule> := [MinLength, SpecialChar, Uppercase, Lowercase, Digit]

  /** The regular-expression class `[!@#$%^&*(),.?":{}|<>]`. */
  const SpecialChars: set<char> :=
    {'!', '@', '#', '$', '%', '^', '&', '*', '(', ')', ',', '.', '?', '"', ':', '{', '}', '|', '<', '>'}

  predicate HasCharIn(p: string, lo: char, hi: char) {
    exists k :: 0 <= k < |p| && lo <= p[k] <= hi
  }

  predicate Satisfies(p: string, rule: PasswordRule) {
    match rule
    case MinLength => Utf16Length(p) >= 8
    case SpecialChar => exists k :: 0 <= k < |p| && p[k] in SpecialChars
    case Uppercase => HasCharIn(p, 'A', 'Z')
    case Lowercase => HasCharIn(p, 'a', 'z')
    case Digit => HasCharIn(p, '0', '9')
  }

  /** The position of a rule in RuleOrder. */
  function RuleIndex(rule: PasswordRule): (k: nat)
    ensures k < |RuleOrder| && RuleOrder[k] == rule
  {
    match rule
    case MinLength => 0
    case SpecialChar => 1
    case Uppercase => 2
    case Lowercase => 3
    case Digit => 4
  }

  predicate StrongPassword(p: string) {
    forall rule: PasswordRule :: Satisfies(p, rule)
  }

  /** The chain of early returns: the first rule, in RuleOrder, that `p` breaks. */
  function FirstBrokenRule(p: string): (r: Option<PasswordRule>)
    ensures r.None? <==> StrongPassword(p)
    ensures r.Some? ==> !Satisfies(p, r.value)
    ensures r.Some? ==> forall m :: 0 <= m < RuleIndex(r.value) ==> Satisfies(p, RuleOrder[m])
  {
    if !Satisfies(p, MinLength) then Some(MinLength)
    else if !Satisfies(p, SpecialChar) then Some(SpecialChar)
    else if !Satisfies(p, Uppercase) then Some(Uppercase)
    else if !Satisfies(p, Lowercase) then Some(Lowercase)
    else if !Satisfies(p, Digit) then Some(Digit)
    else None
  }

  /** A strong password has at least eight characters. */
  lemma StrongPasswordNotEmpty(p: string)
    ensures StrongPassword(p) ==> Truthy(p) && Utf16Length(p) >= 8
  {
    if StrongPassword(p) { assert Satisfies(p, MinLength); }
  }
}
