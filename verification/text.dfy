/**
 * The JavaScript string operations the forms and the admin panel rely on:
 * `trim`, `includes`, `toLowerCase`/`toUpperCase` (ASCII letters only),
 * `replace` of the first occurrence of a character, and the e-mail regular
 * expression `^[^\s@]+@[^\s@]+\.[^\s@]+$`.
 */
module Text {

  /** The characters `String.prototype.trim` strips and the regular-expression class `\s` matches. */
  predicate IsWhitespace(c: char)
  {
    || c == ' ' || c == '\t' || c == '\n' || c == '\r' || c == '\U{000B}' || c == '\U{000C}'
    || c == '\U{00A0}' || c == '\U{1680}' || ('\U{2000}' <= c <= '\U{200A}')
    || c == '\U{2028}' || c == '\U{2029}' || c == '\U{202F}' || c == '\U{205F}'
    || c == '\U{3000}' || c == '\U{FEFF}'
  }

  /** Every character of `s` is whitespace (so `s.trim()` is empty). */
  predicate Blank(s: string)
  {
    forall k :: 0 <= k < |s| ==> IsWhitespace(s[k])
  }

  /** The number of whitespace characters at the start of `s`. */
  function LeadingSpace(s: string): (n: nat)
    ensures n <= |s|
    ensures forall k :: 0 <= k < n ==> IsWhitespace(s[k])
    ensures n < |s| ==> !IsWhitespace(s[n])
  {
    if s == [] || !IsWhitespace(s[0]) then 0 else 1 + LeadingSpace(s[1..])
  }

  /** The number of whitespace characters at the end of `s`. */
  function TrailingSpace(s: string): (n: nat)
    ensures n <= |s|
    ensures forall k :: |s| - n <= k < |s| ==> IsWhitespace(s[k])
    ensures n < |s| ==> !IsWhitespace(s[|s| - 1 - n])
  {
    if s == [] || !IsWhitespace(s[|s| - 1]) then 0 else 1 + TrailingSpace(s[..|s| - 1])
  }

  /** `s.trim()`: `s` without its leading and trailing whitespace. */
  function Trim(s: string): (r: string)
    ensures |r| <= |s|
    ensures r == [] || (!IsWhitespace(r[0]) && !IsWhitespace(r[|r| - 1]))
    ensures r == [] <==> Blank(s)
    ensures exists i, j ::
      && 0 <= i <= j <= |s| && r == s[i..j]
      && (forall k :: 0 <= k < i ==> IsWhitespace(s[k]))
      && (forall k :: j <= k < |s| ==> IsWhitespace(s[k]))
  {
    var lead := LeadingSpace(s);
    var j := |s| - TrailingSpace(s[lead..]);
    assert forall k :: j <= k < |s| ==> s[k] == s[lead..][k - lead];
    s[lead..j]
  }

  /** A string with no whitespace at either end is left alone by `trim`. */
  lemma TrimClean(s: string)
    requires s == [] || (!IsWhitespace(s[0]) && !IsWhitespace(s[|s| - 1]))
    ensures Trim(s) == s
  {
  }

  /** `sub` occurs in `s` starting at index `k`. */
  predicate OccursAt(s: string, sub: string, k: int)
  {
    0 <= k && k + |sub| <= |s| && s[k..k + |sub|] == sub
  }

  /** `s.includes(sub)`. */
  predicate Contains(s: string, sub: string)
  {
    exists k :: 0 <= k <= |s| - |sub| && OccursAt(s, sub, k)
  }

  /** Containment is transitive: a string containing `t` contains everything `t` contains. */
  lemma {:induction false} ContainsTransitive(s: string, t: string, u: string)
    requires Contains(s, t) && Contains(t, u)
    ensures Contains(s, u)
  {
    var k :| 0 <= k <= |s| - |t| && OccursAt(s, t, k);
    var m :| 0 <= m <= |t| - |u| && OccursAt(t, u, m);
    forall i | 0 <= i < |u|
      ensures s[k + m + i] == u[i]
    {
      assert u[i] == t[m + i];
      assert t[m + i] == s[k + m + i];
    }
    assert s[k + m..k + m + |u|] == u;
    assert OccursAt(s, u, k + m);
  }

  /** `toLowerCase` on one character (ASCII letters only). */
  function LowerChar(c: char): char
  {
    if 'A' <= c <= 'Z' then (c as int + 32) as char else c
  }

  /** `toUpperCase` on one character (ASCII letters only). */
  function UpperChar(c: char): char
  {
    if 'a' <= c <= 'z' then (c as int - 32) as char else c
  }

  /** `s.toLowerCase()`, character by character. */
  function ToLower(s: string): (r: string)
    ensures |r| == |s|
    ensures forall k :: 0 <= k < |s| ==> r[k] == LowerChar(s[k])
  {
    if s == [] then [] else [LowerChar(s[0])] + ToLower(s[1..])
  }

  /** Lower-casing commutes with taking a slice. */
  lemma ToLowerSlice(s: string, i: int, j: int)
    requires 0 <= i <= j <= |s|
    ensures ToLower(s)[i..j] == ToLower(s[i..j])
  {
    var a, b := ToLower(s)[i..j], ToLower(s[i..j]);
    forall k | 0 <= k < j - i
      ensures a[k] == b[k]
    {
      assert s[i..j][k] == s[i + k];
    }
  }

  /** Whatever `s` contains, its lower-cased form contains lower-cased. */
  lemma {:induction false} ContainsToLower(s: string, sub: string)
    requires Contains(s, sub)
    ensures Contains(ToLower(s), ToLower(sub))
  {
    var k :| 0 <= k <= |s| - |sub| && OccursAt(s, sub, k);
    ToLowerSlice(s, k, k + |sub|);
    assert OccursAt(ToLower(s), ToLower(sub), k);
  }

  /** A status word as the admin panel stores it: lower-case ASCII letters and hyphens. */
  predicate IsLowerWord(s: string)
  {
    forall k :: 0 <= k < |s| ==> ('a' <= s[k] <= 'z' || s[k] == '-')
  }

  /** `s.charAt(0).toUpperCase() + s.slice(1)`. */
  function Capitalize(s: string): (r: string)
    ensures |r| == |s|
    ensures |s| > 0 ==> r[0] == UpperChar(s[0]) && r[1..] == s[1..]
  {
    if s == [] then [] else [UpperChar(s[0])] + s[1..]
  }

  /** Lower-casing a capitalised status word gives the stored word back. */
  lemma CapitalizeToLower(s: string)
    requires IsLowerWord(s)
    ensures ToLower(Capitalize(s)) == s
  {
    var r := ToLower(Capitalize(s));
    forall k | 0 <= k < |s|
      ensures r[k] == s[k]
    {
      if k > 0 {
        assert Capitalize(s)[k] == s[k];
      }
    }
  }

  /** `s.replace(from, to)` with a one-character pattern: only the first occurrence is replaced. */
  function ReplaceFirst(s: string, from: char, to: char): (r: string)
    ensures |r| == |s|
    ensures from !in s ==> r == s
    ensures from in s ==> to in r
    ensures from in s ==>
      exists k :: 0 <= k < |s| && s[k] == from && from !in s[..k] && r == s[..k] + [to] + s[k + 1..]
  {
    var i := IndexOf(s, from);
    if i == |s| then s else s[..i] + [to] + s[i + 1..]
  }

  /** `s.indexOf(c)`, with "not found" as `|s|`: the position of the first `c`. */
  function IndexOf(s: string, c: char): (i: nat)
    ensures i <= |s| && c !in s[..i]
    ensures i < |s| <==> c in s
    ensures i < |s| ==> s[i] == c
  {
    if s == [] then 0
    else if s[0] == c then 0
    else
      var i := IndexOf(s[1..], c);
      assert s[..i + 1] == [s[0]] + s[1..][..i];
      1 + i
  }

  /** A character allowed inside an e-mail part: `[^\s@]`. */
  predicate IsEmailPartChar(c: char)
  {
    !IsWhitespace(c) && c != '@'
  }

  /** `[^\s@]+`: a non-empty run of e-mail part characters. */
  predicate IsEmailPart(s: string)
  {
    |s| > 0 && forall k :: 0 <= k < |s| ==> IsEmailPartChar(s[k])
  }

  /**
   * `/^[^\s@]+@[^\s@]+\.[^\s@]+$/.test(s)`: a local part, `@`, a domain part,
   * a dot, and a final part, all three non-empty and free of whitespace and `@`.
   * The domain and final parts may themselves contain dots; any dot after the
   * `@` with non-empty text on both sides will do.
   */
  predicate MatchesEmailPattern(s: string)
  {
    exists at, dot ::
      && 0 < at < |s| && at + 1 < dot < |s| - 1
      && s[at] == '@' && s[dot] == '.'
      && IsEmailPart(s[..at]) && IsEmailPart(s[at + 1..dot]) && IsEmailPart(s[dot + 1..])
  }

  /** An address that matches the pattern holds exactly one `@` and no whitespace, so trimming leaves it alone. */
  lemma {:induction false} EmailShape(s: string)
    requires MatchesEmailPattern(s)
    ensures |s| >= 5
    ensures forall k :: 0 <= k < |s| ==> !IsWhitespace(s[k])
    ensures exists at :: 0 < at < |s| && s[at] == '@' && forall k :: 0 <= k < |s| && k != at ==> s[k] != '@'
    ensures Trim(s) == s
  {
    var at, dot :|
      && 0 < at < |s| && at + 1 < dot < |s| - 1
      && s[at] == '@' && s[dot] == '.'
      && IsEmailPart(s[..at]) && IsEmailPart(s[at + 1..dot]) && IsEmailPart(s[dot + 1..]);
    EmailPartChars(s, at, dot);
    TrimClean(s);
  }

  /** Apart from the `@` at `at`, every character of a matching address is an e-mail part character. */
  lemma EmailPartChars(s: string, at: int, dot: int)
    requires 0 < at < dot < |s|
    requires IsEmailPart(s[..at]) && IsEmailPart(s[at + 1..dot]) && IsEmailPart(s[dot + 1..]) && s[dot] == '.'
    ensures forall k :: 0 <= k < |s| && k != at ==> IsEmailPartChar(s[k])
  {
    forall k | 0 <= k < |s| && k != at
      ensures IsEmailPartChar(s[k])
    {
      if k < at {
        assert s[..at][k] == s[k];
      } else if k < dot {
        assert s[at + 1..dot][k - at - 1] == s[k];
      } else if k > dot {
        assert s[dot + 1..][k - dot - 1] == s[k];
      }
    }
  }

  /** The address of the end-to-end example is accepted by the pattern. */
  lemma EmailExample()
    ensures MatchesEmailPattern("ann@x.com")
  {
    var s := "ann@x.com";
    assert IsEmailPart(s[..3]) && IsEmailPart(s[4..5]) && IsEmailPart(s[6..]);
    assert s[3] == '@' && s[5] == '.';
  }
}
