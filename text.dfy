/** Character and string helpers shared by the table filter, the role badge
    and the form validators: ASCII case mapping, JavaScript's `includes`,
    the `\s` class of JavaScript regular expressions, UTF-16 length and the
    email pattern `\S+@\S+\.\S+` tested without anchors. */
module Text {

  function LowerChar(c: char): (r: char)
    ensures 'A' <= c <= 'Z' ==> r as int == c as int + 32
    ensures !('A' <= c <= 'Z') ==> r == c
  {
    if 'A' <= c <= 'Z' then (c as int + 32) as char else c
  }

  function UpperChar(c: char): (r: char)
    ensures 'a' <= c <= 'z' ==> r as int == c as int - 32
    ensures !('a' <= c <= 'z') ==> r == c
  {
    if 'a' <= c <= 'z' then (c as int - 32) as char else c
  }

  /** `toLowerCase`, restricted to ASCII letters. */
  function Lower(s: string): (r: string)
    ensures |r| == |s|
    ensures forall i :: 0 <= i < |s| ==> r[i] == LowerChar(s[i])
  {
    seq(|s|, i requires 0 <= i < |s| => LowerChar(s[i]))
  }

  /** `toUpperCase`, restricted to ASCII letters. */
  function Upper(s: string): (r: string)
    ensures |r| == |s|
    ensures forall i :: 0 <= i < |s| ==> r[i] == UpperChar(s[i])
  {
    seq(|s|, i requires 0 <= i < |s| => UpperChar(s[i]))
  }

  /** A string with no upper-case ASCII letter is its own lower case. */
  lemma LowerNoCapitals(s: string)
    requires forall i | 0 <= i < |s| :: !('A' <= s[i] <= 'Z')
    ensures Lower(s) == s
  {
  }

  /** Lowering forgets whatever case the string had before. */
  lemma LowerOfUpper(s: string)
    ensures Lower(Upper(s)) == Lower(s)
  {
    forall i | 0 <= i < |s| ensures Lower(Upper(s))[i] == Lower(s)[i] {
      assert Upper(s)[i] == UpperChar(s[i]);
    }
  }

  /** Upper-casing forgets whatever case the string had before. */
  lemma UpperOfLower(s: string)
    ensures Upper(Lower(s)) == Upper(s)
  {
    forall i | 0 <= i < |s| ensures Upper(Lower(s))[i] == Upper(s)[i] {
      assert Lower(s)[i] == LowerChar(s[i]);
    }
  }

  lemma LowerIdempotent(s: string)
    ensures Lower(Lower(s)) == Lower(s)
  {
    forall i | 0 <= i < |s| ensures Lower(Lower(s))[i] == Lower(s)[i] {
      assert Lower(s)[i] == LowerChar(s[i]);
    }
  }

  predicate OccursAt(hay: string, needle: string, i: int) {
    0 <= i && i + |needle| <= |hay| && hay[i..i + |needle|] == needle
  }

  /** `hay.includes(needle)`; the empty needle occurs in every string. */
  predicate Contains(hay: string, needle: string) {
    exists i | 0 <= i <= |hay| :: OccursAt(hay, needle, i)
  }

  lemma ContainsEmpty(hay: string)
    ensures Contains(hay, "")
  {
    assert OccursAt(hay, "", 0);
  }

  /** A non-empty needle can only occur where its first character does. */
  lemma ContainsFirstChar(hay: string, needle: string)
    requires Contains(hay, needle) && needle != []
    ensures needle[0] in hay
  {
    var i :| 0 <= i <= |hay| && OccursAt(hay, needle, i);
    assert hay[i] == hay[i..i + |needle|][0];
  }

  /** The `\s` class of JavaScript regular expressions: the ECMAScript
      WhiteSpace and LineTerminator code points. */
  predicate IsSpace(c: char) {
    c == ' ' || c == '\t' || c == '\n' || c == '\r' || c == '\U{000B}' || c == '\U{000C}'
    || c == '\U{00A0}' || c == '\U{1680}' || ('\U{2000}' <= c <= '\U{200A}')
    || c == '\U{2028}' || c == '\U{2029}' || c == '\U{202F}' || c == '\U{205F}'
    || c == '\U{3000}' || c == '\U{FEFF}'
  }

  /** One way `\S+@\S+\.\S+` can match `s`: the `@` at index `at`, the `.`
      at index `dot`, at least one non-space character before the `@`, a
      non-empty run of non-space characters between them, and one after
      the dot.  Shorter `\S+` runs suffice, so only the characters next to
      the separators matter on the outside. */
  predicate EmailMatchAt(s: string, at: int, dot: int) {
    && 1 <= at && at + 1 < dot && dot + 1 < |s|
    && !IsSpace(s[at - 1]) && s[at] == '@'
    && (forall k | at < k < dot :: !IsSpace(s[k]))
    && s[dot] == '.' && !IsSpace(s[dot + 1])
  }

  /** `/\S+@\S+\.\S+/.test(s)`: the pattern matches somewhere in `s`. */
  predicate MatchesEmail(s: string) {
    exists at, dot | 0 <= at < |s| && 0 <= dot < |s| :: EmailMatchAt(s, at, dot)
  }

  /** The pattern is not anchored: text around a matching string keeps it matching. */
  lemma {:induction false} EmailUnanchored(before: string, s: string, after: string)
    requires MatchesEmail(s)
    ensures MatchesEmail(before + s + after)
  {
    var at, dot :| 0 <= at < |s| && 0 <= dot < |s| && EmailMatchAt(s, at, dot);
    var t := before + s + after;
    var n := |before|;
    forall k | 0 <= k < |s| ensures t[n + k] == s[k] {
      assert t == before + (s + after);
    }
    forall k | n + at < k < n + dot ensures !IsSpace(t[k]) {
      assert t[k] == s[k - n];
    }
    assert t[n + at - 1] == s[at - 1] && t[n + at] == s[at];
    assert t[n + dot] == s[dot] && t[n + dot + 1] == s[dot + 1];
    assert EmailMatchAt(t, n + at, n + dot);
  }

  /** A match needs an `@` that is neither the first character nor closer
      than four characters to the end. */
  lemma EmailNeedsAt(s: string)
    requires MatchesEmail(s)
    ensures exists at | 1 <= at <= |s| - 4 :: s[at] == '@'
  {
    var at, dot :| 0 <= at < |s| && 0 <= dot < |s| && EmailMatchAt(s, at, dot);
    assert 1 <= at <= |s| - 4 && s[at] == '@';
  }

  /** Fewer than five characters never match. */
  lemma EmailTooShort(s: string)
    requires |s| < 5
    ensures !MatchesEmail(s)
  {
    if MatchesEmail(s) {
      EmailNeedsAt(s);
    }
  }

  lemma EmailExample()
    ensures MatchesEmail("c@x.com")
    ensures !MatchesEmail("c@x")
    ensures !MatchesEmail("c @x.com")
  {
    assert EmailMatchAt("c@x.com", 1, 3);
  }

  /** JavaScript's `length` counts UTF-16 code units: a character outside
      the Basic Multilingual Plane counts twice. */
  function Utf16Length(s: string): (n: nat)
    ensures |s| <= n <= 2 * |s|
    ensures (forall i | 0 <= i < |s| :: s[i] as int <= 0xFFFF) ==> n == |s|
  {
    if s == [] then 0
    else (if s[0] as int > 0xFFFF then 2 else 1) + Utf16Length(s[1..])
  }
}
