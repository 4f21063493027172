/**
  The string operations the leaderboard uses: the `\s` class of JavaScript
  regular expressions, `toLowerCase`, the `replace(/\s+/g, '-')` slugging,
  `includes`, number-to-text for the progress field, and the default
  order of `Array.prototype.sort` on strings.
*/
module Text {

  /** A character matched by `\s` in a JavaScript regular expression. */
  predicate IsWhitespace(c: char) {
    || c == ' ' || c == '\t' || c == '\n' || c == '\r' || c == '\U{000B}' || c == '\U{000C}'
    || c == '\U{00A0}' || c == '\U{1680}' || ('\U{2000}' <= c <= '\U{200A}')
    || c == '\U{2028}' || c == '\U{2029}' || c == '\U{202F}' || c == '\U{205F}'
    || c == '\U{3000}' || c == '\U{FEFF}'
  }

  predicate NoWhitespace(s: string) {
    forall i :: 0 <= i < |s| ==> !IsWhitespace(s[i])
  }

  /** `toLowerCase` on one character; only the ASCII letters are mapped. */
  function LowerChar(c: char): char {
    if 'A' <= c <= 'Z' then (c as int + 32) as char else c
  }

  function Lower(s: string): (r: string)
    ensures |r| == |s|
    ensures forall i :: 0 <= i < |s| ==> r[i] == LowerChar(s[i])
  {
    if s == [] then [] else [LowerChar(s[0])] + Lower(s[1..])
  }

  predicate NoUpperAscii(s: string) {
    forall i :: 0 <= i < |s| ==> !('A' <= s[i] <= 'Z')
  }

  /** The input without its leading run of whitespace. */
  function SkipWhitespace(s: string): (r: string)
    ensures |r| <= |s|
    ensures r == [] || !IsWhitespace(r[0])
  {
    if s != [] && IsWhitespace(s[0]) then SkipWhitespace(s[1..]) else s
  }

  /** `s.replace(/\s+/g, '-')`: every maximal run of whitespace becomes one hyphen. */
  function ReplaceWhitespaceRuns(s: string): (r: string)
    ensures NoWhitespace(r)
    ensures |r| <= |s|
    decreases |s|
  {
    if s == [] then []
    else if IsWhitespace(s[0]) then "-" + ReplaceWhitespaceRuns(SkipWhitespace(s[1..]))
    else [s[0]] + ReplaceWhitespaceRuns(s[1..])
  }

  /** The realm slug of the guild query: hyphenate whitespace runs, then lower-case. */
  function ServerSlug(realmName: string): (slug: string)
    ensures NoWhitespace(slug) && NoUpperAscii(slug)
  {
    LowerNormal(ReplaceWhitespaceRuns(realmName));
    Lower(ReplaceWhitespaceRuns(realmName))
  }

  /** The fallback spec slug: lower-case, then hyphenate whitespace runs. */
  function SpecSlug(spec: string): (slug: string)
    ensures NoWhitespace(slug) && NoUpperAscii(slug)
  {
    LowerReplaceCommute(spec);
    LowerNormal(ReplaceWhitespaceRuns(spec));
    ReplaceWhitespaceRuns(Lower(spec))
  }

  /** Lower-casing text without whitespace leaves no whitespace and no upper-case letter. */
  lemma LowerNormal(s: string)
    requires NoWhitespace(s)
    ensures NoWhitespace(Lower(s)) && NoUpperAscii(Lower(s))
  {
    var lowered := Lower(s);
    forall i | 0 <= i < |lowered| ensures !IsWhitespace(lowered[i]) {
      assert !IsWhitespace(s[i]);
    }
  }

  /** A string without whitespace is left alone by the replacement. */
  lemma {:induction false} ReplaceWithoutWhitespace(s: string)
    requires NoWhitespace(s)
    ensures ReplaceWhitespaceRuns(s) == s
  {
    if s != [] {
      ReplaceWithoutWhitespace(s[1..]);
    }
  }

  lemma {:induction false} LowerIdempotent(s: string)
    ensures Lower(Lower(s)) == Lower(s)
  {
    if s != [] {
      LowerIdempotent(s[1..]);
    }
  }

  lemma {:induction false} SkipWhitespaceLower(s: string)
    ensures SkipWhitespace(Lower(s)) == Lower(SkipWhitespace(s))
  {
    if s != [] {
      assert Lower(s)[1..] == Lower(s[1..]);
      SkipWhitespaceLower(s[1..]);
    }
  }

  /** Lower-casing and hyphenating commute, so both slug functions agree. */
  lemma {:induction false} LowerReplaceCommute(s: string)
    ensures Lower(ReplaceWhitespaceRuns(s)) == ReplaceWhitespaceRuns(Lower(s))
    decreases |s|
  {
    if s != [] {
      var ls := Lower(s);
      assert ls[1..] == Lower(s[1..]);
      if IsWhitespace(s[0]) {
        SkipWhitespaceLower(s[1..]);
        LowerReplaceCommute(SkipWhitespace(s[1..]));
        assert Lower("-" + ReplaceWhitespaceRuns(SkipWhitespace(s[1..])))
            == "-" + Lower(ReplaceWhitespaceRuns(SkipWhitespace(s[1..])));
      } else {
        LowerReplaceCommute(s[1..]);
        assert Lower([s[0]] + ReplaceWhitespaceRuns(s[1..]))
            == [LowerChar(s[0])] + Lower(ReplaceWhitespaceRuns(s[1..]));
      }
    }
  }

  lemma SlugsAgree(s: string)
    ensures ServerSlug(s) == SpecSlug(s)
  {
    LowerReplaceCommute(s);
  }

  /** A realm slug has no whitespace and no upper-case letter, and slugging it again changes nothing. */
  lemma ServerSlugNormal(realmName: string)
    ensures NoWhitespace(ServerSlug(realmName)) && NoUpperAscii(ServerSlug(realmName))
    ensures ServerSlug(ServerSlug(realmName)) == ServerSlug(realmName)
  {
    var r := ReplaceWhitespaceRuns(realmName);
    ReplaceWithoutWhitespace(ServerSlug(realmName));
    LowerIdempotent(r);
  }

  /** `hay.includes(needle)`. */
  predicate Contains(hay: string, needle: string) {
    exists i :: 0 <= i <= |hay| - |needle| && OccursAt(hay, needle, i)
  }

  predicate OccursAt(hay: string, needle: string, i: int) {
    0 <= i && i + |needle| <= |hay| && hay[i..i + |needle|] == needle
  }

  lemma ContainsEmpty(hay: string)
    ensures Contains(hay, "")
  {
    assert OccursAt(hay, "", 0);
  }

  /** The decimal digits of a count, as `${n}` renders it. */
  function DecimalString(n: nat): (s: string)
    ensures |s| > 0
    ensures forall i :: 0 <= i < |s| ==> '0' <= s[i] <= '9'
  {
    if n < 10 then [Digit(n)] else DecimalString(n / 10) + [Digit(n % 10)]
  }

  function Digit(d: nat): (c: char)
    requires d < 10
  {
    ('0' as int + d) as char
  }

  /** The number a string of decimal digits denotes. */
  function DigitsValue(s: string): nat
    requires forall i :: 0 <= i < |s| ==> '0' <= s[i] <= '9'
  {
    if s == [] then 0
    else 10 * DigitsValue(s[..|s| - 1]) + (s[|s| - 1] as int - '0' as int)
  }

  lemma {:induction false} DecimalRoundTrip(n: nat)
    ensures DigitsValue(DecimalString(n)) == n
  {
    if n >= 10 {
      var s := DecimalString(n);
      assert s[..|s| - 1] == DecimalString(n / 10);
      DecimalRoundTrip(n / 10);
    }
  }

  /** The progress field: `${totalKills}/${totalBosses}`. */
  function ProgressText(kills: nat, bosses: nat): string {
    DecimalString(kills) + "/" + DecimalString(bosses)
  }

  /** The progress text determines both counts. */
  lemma ProgressTextInjective(k1: nat, b1: nat, k2: nat, b2: nat)
    requires ProgressText(k1, b1) == ProgressText(k2, b2)
    ensures k1 == k2 && b1 == b2
  {
    var s := ProgressText(k1, b1);
    var d1, d2 := DecimalString(k1), DecimalString(k2);
    assert s[|d1|] == '/' && s[|d2|] == '/';
    assert forall i :: 0 <= i < |d1| ==> s[i] == d1[i];
    assert forall i :: 0 <= i < |d2| ==> s[i] == d2[i];
    assert |d1| == |d2| by {
      if |d1| < |d2| {
        assert false;
      } else if |d2| < |d1| {
        assert false;
      }
    }
    assert d1 == s[..|d1|] == d2;
    assert DecimalString(b1) == s[|d1| + 1..] == DecimalString(b2);
    DecimalRoundTrip(k1);
    DecimalRoundTrip(k2);
    DecimalRoundTrip(b1);
    DecimalRoundTrip(b2);
  }

  /** The default sort order on strings: lexicographic by character. */
  predicate LexLessEq(a: string, b: string) {
    if a == [] then true
    else if b == [] then false
    else if a[0] != b[0] then a[0] < b[0]
    else LexLessEq(a[1..], b[1..])
  }

  lemma {:induction false} LexTotal(a: string, b: string)
    ensures LexLessEq(a, b) || LexLessEq(b, a)
  {
    if a != [] && b != [] && a[0] == b[0] {
      LexTotal(a[1..], b[1..]);
    }
  }

  lemma {:induction false} LexTransitive(a: string, b: string, c: string)
    requires LexLessEq(a, b) && LexLessEq(b, c)
    ensures LexLessEq(a, c)
  {
    if a != [] && b != [] && c != [] && a[0] == b[0] == c[0] {
      LexTransitive(a[1..], b[1..], c[1..]);
    }
  }

  lemma {:induction false} LexAntisymmetric(a: string, b: string)
    requires LexLessEq(a, b) && LexLessEq(b, a)
    ensures a == b
  {
    if a != [] && b != [] {
      LexAntisymmetric(a[1..], b[1..]);
      assert a == [a[0]] + a[1..] && b == [b[0]] + b[1..];
    }
  }
}
