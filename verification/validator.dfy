/**
 * The username check of the search box: `validateUsername` first rejects
 * input that `String.prototype.trim` leaves empty, then tests the raw,
 * untrimmed input against the pattern `^[a-zA-Z0-9_-]{1,15}$`.
 */
module Validator {

  const EmptyMessage := "Username should not be empty"
  const InvalidMessage := "Invalid Username"

  /** What the check decides; a rejection carries the text it alerts. */
  datatype Verdict = Accepted | Rejected(alert: string)

  /**
   * The characters `trim` removes: ECMAScript's WhiteSpace (tab, vertical tab,
   * form feed, the byte order mark and every space separator) and its
   * LineTerminator (line feed, carriage return, U+2028, U+2029).
   */
  predicate IsWhiteSpace(c: char) {
    var n := c as int;
    n == 0x9 || n == 0xA || n == 0xB || n == 0xC || n == 0xD || n == 0x20 ||
    n == 0xA0 || n == 0x1680 || (0x2000 <= n <= 0x200A) || n == 0x2028 ||
    n == 0x2029 || n == 0x202F || n == 0x205F || n == 0x3000 || n == 0xFEFF
  }

  /** Nothing but white space (the empty string included). */
  predicate IsBlank(s: string) {
    forall k :: 0 <= k < |s| ==> IsWhiteSpace(s[k])
  }

  /** The character class `[a-zA-Z0-9_-]`. */
  predicate IsUsernameChar(c: char) {
    ('a' <= c <= 'z') || ('A' <= c <= 'Z') || ('0' <= c <= '9') || c == '_' || c == '-'
  }

  /** The language of `^[a-zA-Z0-9_-]{1,15}$`, stated directly. */
  predicate IsUsername(s: string) {
    1 <= |s| <= 15 && forall k :: 0 <= k < |s| ==> IsUsernameChar(s[k])
  }

  /** How many white-space characters open `s`. */
  function LeadingBlanks(s: string): (n: nat)
    ensures n <= |s|
    ensures forall k :: 0 <= k < n ==> IsWhiteSpace(s[k])
    ensures n < |s| ==> !IsWhiteSpace(s[n])
  {
    if s != [] && IsWhiteSpace(s[0]) then 1 + LeadingBlanks(s[1..]) else 0
  }

  /** How many white-space characters close `s`. */
  function TrailingBlanks(s: string): (n: nat)
    ensures n <= |s|
    ensures forall k :: |s| - n <= k < |s| ==> IsWhiteSpace(s[k])
    ensures n < |s| ==> !IsWhiteSpace(s[|s| - 1 - n])
  {
    if s != [] && IsWhiteSpace(s[|s| - 1]) then 1 + TrailingBlanks(s[..|s| - 1]) else 0
  }

  /**
   * `String.prototype.trim`: the piece of `s` that starts after its leading
   * white space, has no white space at either end, and is followed only by
   * white space.
   */
  function Trim(s: string): (t: string)
    ensures LeadingBlanks(s) + |t| <= |s|
    ensures t == s[LeadingBlanks(s)..LeadingBlanks(s) + |t|]
    ensures forall k :: LeadingBlanks(s) + |t| <= k < |s| ==> IsWhiteSpace(s[k])
    ensures t != [] ==> !IsWhiteSpace(t[0]) && !IsWhiteSpace(t[|t| - 1])
    ensures t == [] <==> IsBlank(s)
  {
    var rest := s[LeadingBlanks(s)..];
    rest[..|rest| - TrailingBlanks(rest)]
  }

  /**
   * An anchored matcher for `[a-zA-Z0-9_-]{min,max}`: it consumes one class
   * character per step and lowers both repetition bounds, and succeeds at the
   * end of input only when the lower bound is spent.
   */
  function MatchRun(s: string, min: nat, max: nat): bool
    decreases s
  {
    if s == [] then min == 0
    else max > 0 && IsUsernameChar(s[0]) && MatchRun(s[1..], if min > 0 then min - 1 else 0, max - 1)
  }

  /** `regex.test(username)` for the pattern of script.js line 19. */
  function RegexTest(s: string): bool {
    MatchRun(s, 1, 15)
  }

  lemma {:induction false} MatchRunIff(s: string, min: nat, max: nat)
    ensures MatchRun(s, min, max) <==>
      min <= |s| <= max && forall k :: 0 <= k < |s| ==> IsUsernameChar(s[k])
    decreases s
  {
    if s != [] {
      MatchRunIff(s[1..], if min > 0 then min - 1 else 0, if max > 0 then max - 1 else 0);
    }
  }

  /** The regular expression accepts exactly the usernames. */
  lemma RegexTestIff(s: string)
    ensures RegexTest(s) <==> IsUsername(s)
  {
    MatchRunIff(s, 1, 15);
  }

  /**
   * `validateUsername`: accepts exactly the strings of 1 to 15 characters
   * from the class; alerts the empty-input message exactly for blank input
   * and the invalid-input message for every other rejection.
   */
  function ValidateUsername(username: string): (v: Verdict)
    ensures v.Accepted? <==> IsUsername(username)
    ensures v == Rejected(EmptyMessage) <==> IsBlank(username)
    ensures v == Rejected(InvalidMessage) <==> !IsBlank(username) && !IsUsername(username)
  {
    RegexTestIff(username);
    if Trim(username) == [] then Rejected(EmptyMessage)
    else if RegexTest(username) then Accepted
    else Rejected(InvalidMessage)
  }

  /**
   * The pattern is tested on the untrimmed input: a name with white space
   * around it is rejected as invalid, even when its trimmed form is valid.
   */
  lemma PaddedNameRejected(name: string, pad: char, atEnd: bool)
    requires IsWhiteSpace(pad)
    ensures var padded := if atEnd then name + [pad] else [pad] + name;
      ValidateUsername(padded) == if IsBlank(name) then Rejected(EmptyMessage) else Rejected(InvalidMessage)
  {
  }
}
