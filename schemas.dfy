/**
 * The input rules shared by the signup and signin forms and by the backend
 * routes (packages/shared/src/schemas/auth.ts). Each schema is a list of
 * string checks; like the validation library it is written for, a schema
 * runs every check and collects one issue per failing check, and an input
 * is accepted exactly when no issue was collected.
 */
module Schemas {

  /** The two fields of both input objects. */
  datatype Field = Username | Password

  /** The checks a field can fail. */
  datatype Rule = TooShort(min: nat) | TooLong(max: nat) | BadCharacters

  datatype Issue = Issue(field: Field, rule: Rule)

  /** The character class [a-zA-Z0-9_]. */
  predicate IsUsernameChar(c: char) {
    ('a' <= c <= 'z') || ('A' <= c <= 'Z') || ('0' <= c <= '9') || c == '_'
  }

  /**
   * The anchored pattern ^[a-zA-Z0-9_]+$, matched left to right: one
   * character of the class, then either the end of the input or a further
   * match of the pattern.
   */
  predicate MatchesUsernamePattern(s: string)
    ensures MatchesUsernamePattern(s) ==> |s| > 0 && forall i :: 0 <= i < |s| ==> IsUsernameChar(s[i])
    decreases |s|
  {
    |s| > 0 && IsUsernameChar(s[0]) && (|s| == 1 || MatchesUsernamePattern(s[1..]))
  }

  /** The pattern accepts exactly the non-empty strings drawn from the class. */
  lemma {:induction false} PatternIsNonEmptyCharset(s: string)
    ensures MatchesUsernamePattern(s) <==> |s| > 0 && forall i :: 0 <= i < |s| ==> IsUsernameChar(s[i])
    decreases |s|
  {
    if |s| > 1 {
      PatternIsNonEmptyCharset(s[1..]);
      assert forall i :: 1 <= i < |s| ==> s[i] == s[1..][i - 1];
    }
  }

  /** `.min(n)`: an issue when the string is shorter than `n`. */
  function MinIssues(field: Field, s: string, n: nat): (issues: seq<Issue>)
    ensures issues == [] <==> |s| >= n
  {
    if |s| < n then [Issue(field, TooShort(n))] else []
  }

  /** `.max(n)`: an issue when the string is longer than `n`. */
  function MaxIssues(field: Field, s: string, n: nat): (issues: seq<Issue>)
    ensures issues == [] <==> |s| <= n
  {
    if |s| > n then [Issue(field, TooLong(n))] else []
  }

  /** `.regex(/^[a-zA-Z0-9_]+$/)`: an issue when the pattern does not match. */
  function PatternIssues(field: Field, s: string): (issues: seq<Issue>)
    ensures issues == [] <==> MatchesUsernamePattern(s)
  {
    if MatchesUsernamePattern(s) then [] else [Issue(field, BadCharacters)]
  }

  /** Issues collected by signupSchema, username checks first. */
  function SignupIssues(username: string, password: string): (issues: seq<Issue>)
    ensures Issue(Username, TooShort(3)) in issues <==> |username| < 3
    ensures Issue(Username, TooLong(50)) in issues <==> |username| > 50
    ensures Issue(Username, BadCharacters) in issues <==> !MatchesUsernamePattern(username)
    ensures Issue(Password, TooShort(8)) in issues <==> |password| < 8
    ensures Issue(Password, TooLong(100)) in issues <==> |password| > 100
    ensures forall i, j :: 0 <= i < j < |issues| && issues[j].field == Username ==> issues[i].field == Username
    ensures forall k :: k in issues ==>
      k in {Issue(Username, TooShort(3)), Issue(Username, TooLong(50)), Issue(Username, BadCharacters),
            Issue(Password, TooShort(8)), Issue(Password, TooLong(100))}
  {
    MinIssues(Username, username, 3) + MaxIssues(Username, username, 50)
      + PatternIssues(Username, username)
      + MinIssues(Password, password, 8) + MaxIssues(Password, password, 100)
  }

  /** Issues collected by signinSchema. */
  function SigninIssues(username: string, password: string): (issues: seq<Issue>)
    ensures Issue(Username, TooShort(1)) in issues <==> |username| == 0
    ensures Issue(Password, TooShort(1)) in issues <==> |password| == 0
    ensures forall k :: k in issues ==> k.rule == TooShort(1)
  {
    MinIssues(Username, username, 1) + MinIssues(Password, password, 1)
  }

  predicate SignupAccepts(username: string, password: string) {
    SignupIssues(username, password) == []
  }

  predicate SigninAccepts(username: string, password: string) {
    SigninIssues(username, password) == []
  }

  /** A username shorter than 3 characters is reported and rejected. */
  lemma ShortUsernameRejected(username: string, password: string)
    requires |username| < 3
    ensures Issue(Username, TooShort(3)) in SignupIssues(username, password)
    ensures !SignupAccepts(username, password)
  {
  }

  /** A username longer than 50 characters is reported and rejected. */
  lemma LongUsernameRejected(username: string, password: string)
    requires |username| > 50
    ensures Issue(Username, TooLong(50)) in SignupIssues(username, password)
    ensures !SignupAccepts(username, password)
  {
  }

  /** An accepted username is non-empty and made of letters, digits and underscores only. */
  lemma AcceptedUsernameCharset(username: string, password: string)
    requires SignupAccepts(username, password)
    ensures |username| > 0
    ensures forall i :: 0 <= i < |username| ==> IsUsernameChar(username[i])
  {
    assert PatternIssues(Username, username) == [];
    PatternIsNonEmptyCharset(username);
  }

  /** A username with a character outside the class is reported and rejected, whatever its length. */
  lemma ForeignCharacterRejected(username: string, password: string, i: nat)
    requires i < |username| && !IsUsernameChar(username[i])
    ensures Issue(Username, BadCharacters) in SignupIssues(username, password)
    ensures !SignupAccepts(username, password)
  {
    PatternIsNonEmptyCharset(username);
  }

  /**
   * The signup schema as a whole: 3 to 50 characters from the class for the
   * username, 8 to 100 characters of anything for the password.
   */
  lemma SignupAcceptsExactly(username: string, password: string)
    ensures SignupAccepts(username, password) <==>
      && 3 <= |username| <= 50
      && (forall i :: 0 <= i < |username| ==> IsUsernameChar(username[i]))
      && 8 <= |password| <= 100
  {
    PatternIsNonEmptyCharset(username);
  }

  /** The password rule is a length range and nothing else: the characters never matter. */
  lemma PasswordCharactersIrrelevant(username: string, password: string, other: string)
    requires |other| == |password|
    ensures SignupAccepts(username, password) <==> SignupAccepts(username, other)
  {
  }

  /** The signin schema asks only for a non-empty username and a non-empty password. */
  lemma SigninAcceptsExactly(username: string, password: string)
    ensures SigninAccepts(username, password) <==> |username| >= 1 && |password| >= 1
  {
  }

  /** Whatever signup accepts, signin accepts too. */
  lemma SignupImpliesSignin(username: string, password: string)
    requires SignupAccepts(username, password)
    ensures SigninAccepts(username, password)
  {
  }
}
