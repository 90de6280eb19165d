/**
 * The JavaScript string operations the inbox relies on: `toLowerCase`,
 * `toUpperCase` (both restricted to ASCII letters), `includes` and `trim`;
 * and the dictionary order of strings, used to state that the sample
 * data's ISO timestamps increase.
 */
module Text {

  /** `c` lower-cased when it is an ASCII capital, otherwise unchanged. */
  function LowerChar(c: char): char {
    if 'A' <= c <= 'Z' then (c as int - 'A' as int + 'a' as int) as char else c
  }

  /** `c` upper-cased when it is an ASCII small letter, otherwise unchanged. */
  function UpperChar(c: char): char {
    if 'a' <= c <= 'z' then (c as int - 'a' as int + 'A' as int) as char else c
  }

  /** `s.toLowerCase()` on ASCII letters. */
  function ToLower(s: string): (r: string)
    ensures |r| == |s|
    ensures forall i :: 0 <= i < |s| ==> r[i] == LowerChar(s[i])
  {
    if s == [] then [] else [LowerChar(s[0])] + ToLower(s[1..])
  }

  /** `s` begins with `prefix`. */
  predicate StartsWith(s: string, prefix: string) {
    prefix == [] || (s != [] && s[0] == prefix[0] && StartsWith(s[1..], prefix[1..]))
  }

  /** `q` stands in `s` from position `i` on. */
  ghost predicate OccursAt(s: string, q: string, i: int) {
    0 <= i && i + |q| <= |s| && s[i..i + |q|] == q
  }

  /** `s.includes(q)`: some suffix of `s` starts with `q` (so every string includes ""). */
  predicate Includes(s: string, q: string) {
    StartsWith(s, q) || (s != [] && Includes(s[1..], q))
  }

  lemma {:induction false} StartsWithIsOccursAtZero(s: string, q: string)
    ensures StartsWith(s, q) <==> OccursAt(s, q, 0)
  {
    if q != [] && s != [] {
      StartsWithIsOccursAtZero(s[1..], q[1..]);
      if |q| <= |s| {
        assert s[..|q|] == [s[0]] + s[1..][..|q| - 1];
        assert q == [q[0]] + q[1..];
      }
    }
  }

  /** `Includes` holds exactly when `q` occurs in `s` at some position. */
  lemma {:induction false} IncludesIffOccurs(s: string, q: string)
    ensures Includes(s, q) <==> exists i :: OccursAt(s, q, i)
  {
    StartsWithIsOccursAtZero(s, q);
    if s != [] {
      IncludesIffOccurs(s[1..], q);
      if i :| OccursAt(s[1..], q, i) {
        assert s[1..][i..i + |q|] == s[i + 1..i + 1 + |q|];
        assert OccursAt(s, q, i + 1);
      }
      if i :| OccursAt(s, q, i) {
        if i > 0 {
          assert s[1..][i - 1..i - 1 + |q|] == s[i..i + |q|];
          assert OccursAt(s[1..], q, i - 1);
        }
      }
    } else if i :| OccursAt(s, q, i) {
      assert q == [];
    }
  }

  /** An occurrence of `q` uses up, in `s`, every character of `q` as often as `q` has it. */
  lemma OccurrenceCount(s: string, q: string, i: int)
    requires OccursAt(s, q, i)
    ensures multiset(q) <= multiset(s)
  {
    assert s == s[..i] + q + s[i + |q|..];
  }

  /** A string with fewer copies of some character than `q` has cannot include `q`. */
  lemma TooFewExcludes(s: string, q: string, c: char)
    requires multiset(s)[c] < multiset(q)[c]
    ensures !Includes(s, q)
  {
    IncludesIffOccurs(s, q);
    if i :| OccursAt(s, q, i) {
      OccurrenceCount(s, q, i);
    }
  }

  /** The characters that lower-case to a small letter are that letter and its capital. */
  lemma LowerCharPreimage(x: char, c: char)
    requires 'a' <= c <= 'z'
    ensures LowerChar(x) == c <==> x == c || x == UpperChar(c)
  {
    if 'A' <= x <= 'Z' {
      assert LowerChar(x) as int == x as int + 32;
    }
    assert UpperChar(c) as int == c as int - 32;
  }

  /** Lower-casing merges the two cases of a letter and moves no other character. */
  lemma {:induction false} LowerCount(s: string, c: char)
    requires 'a' <= c <= 'z'
    ensures multiset(ToLower(s))[c] == multiset(s)[c] + multiset(s)[UpperChar(c)]
  {
    if s != [] {
      LowerCount(s[1..], c);
      LowerCharPreimage(s[0], c);
      calc {
        multiset(ToLower(s))[c];
        multiset([LowerChar(s[0])] + ToLower(s[1..]))[c];
        multiset([LowerChar(s[0])])[c] + multiset(ToLower(s[1..]))[c];
      }
      calc {
        multiset(s)[c] + multiset(s)[UpperChar(c)];
        { assert s == [s[0]] + s[1..]; }
        multiset([s[0]])[c] + multiset([s[0]])[UpperChar(c)] + multiset(s[1..])[c] + multiset(s[1..])[UpperChar(c)];
      }
    }
  }

  /** A lower-cased string cannot include a query with a letter that `s` lacks in both cases. */
  lemma AbsentLetterExcludes(s: string, q: string, c: char)
    requires 'a' <= c <= 'z' && c in q
    requires c !in s && UpperChar(c) !in s
    ensures !Includes(ToLower(s), q)
  {
    LowerCount(s, c);
    TooFewExcludes(ToLower(s), q, c);
  }

  /**
   * A lower-cased string cannot include a query that uses a letter twice when
   * `s` has that letter, in either case, only once.
   */
  lemma SingleLetterExcludes(s: string, before: string, y: char, after: string, q: string, c: char)
    requires 'a' <= c <= 'z' && multiset(q)[c] >= 2
    requires s == before + [y] + after
    requires c !in before && UpperChar(c) !in before
    requires c !in after && UpperChar(c) !in after
    ensures !Includes(ToLower(s), q)
  {
    LowerCount(s, c);
    assert multiset(s) == multiset(before) + multiset{y} + multiset(after);
    TooFewExcludes(ToLower(s), q, c);
  }

  /**
   * The characters `String.prototype.trim` removes: the ECMAScript WhiteSpace
   * code points (tab, vertical tab, form feed, no-break space, byte order mark
   * and the space separators) and the LineTerminator code points.
   */
  predicate IsWhitespace(c: char) {
    || c == '\t' || c == '\n' || c == '\U{000B}' || c == '\U{000C}' || c == '\r'
    || c == ' ' || c == '\U{00A0}' || c == '\U{1680}'
    || ('\U{2000}' <= c <= '\U{200A}')
    || c == '\U{2028}' || c == '\U{2029}' || c == '\U{202F}' || c == '\U{205F}'
    || c == '\U{3000}' || c == '\U{FEFF}'
  }

  /** Every character of `s` is whitespace (vacuously so for ""). */
  ghost predicate AllWhitespace(s: string) {
    forall i :: 0 <= i < |s| ==> IsWhitespace(s[i])
  }

  /** How many characters of whitespace `s` starts with. */
  function LeadingWhitespace(s: string): (n: nat)
    ensures n <= |s|
    ensures forall i :: 0 <= i < n ==> IsWhitespace(s[i])
    ensures n < |s| ==> !IsWhitespace(s[n])
  {
    if s != [] && IsWhitespace(s[0]) then 1 + LeadingWhitespace(s[1..]) else 0
  }

  /** How many characters of whitespace `s` ends with. */
  function TrailingWhitespace(s: string): (n: nat)
    ensures n <= |s|
    ensures forall i :: |s| - n <= i < |s| ==> IsWhitespace(s[i])
    ensures n < |s| ==> !IsWhitespace(s[|s| - n - 1])
  {
    if s != [] && IsWhitespace(s[|s| - 1]) then 1 + TrailingWhitespace(s[..|s| - 1]) else 0
  }

  /** `s` with its leading whitespace removed. */
  function TrimStart(s: string): (r: string)
    ensures |r| <= |s| && r == s[|s| - |r|..]
    ensures AllWhitespace(s[..|s| - |r|])
    ensures r != [] ==> !IsWhitespace(r[0])
  {
    var n := LeadingWhitespace(s);
    assert forall i :: 0 <= i < n ==> s[..n][i] == s[i];
    s[n..]
  }

  /** `s` with its trailing whitespace removed. */
  function TrimEnd(s: string): (r: string)
    ensures |r| <= |s| && r == s[..|r|]
    ensures AllWhitespace(s[|r|..])
    ensures r != [] ==> !IsWhitespace(r[|r| - 1])
  {
    var n := TrailingWhitespace(s);
    assert forall i :: |s| - n <= i < |s| ==> s[|s| - n..][i - (|s| - n)] == s[i];
    s[..|s| - n]
  }

  /**
   * `s.trim()`: a contiguous piece of `s`, cut out of it by removing only
   * whitespace, that neither starts nor ends with whitespace; empty exactly
   * when `s` is all whitespace.
   */
  function Trim(s: string): (r: string)
    ensures exists k :: OccursAt(s, r, k) && AllWhitespace(s[..k]) && AllWhitespace(s[k + |r|..])
    ensures r != [] ==> !IsWhitespace(r[0]) && !IsWhitespace(r[|r| - 1])
    ensures r == [] <==> AllWhitespace(s)
  {
    var k := LeadingWhitespace(s);
    TrimPieces(s, k, TrailingWhitespace(s[k..]));
    TrimEnd(TrimStart(s))
  }

  /**
   * Cutting `k` leading and then `m` trailing whitespace characters from `s`,
   * where `s[k]` and the last character kept are not whitespace, leaves a
   * piece of `s` surrounded by whitespace, empty iff `s` is all whitespace.
   */
  lemma TrimPieces(s: string, k: nat, m: nat)
    requires k <= |s| && m <= |s| - k
    requires forall i :: 0 <= i < k ==> IsWhitespace(s[i])
    requires k < |s| ==> !IsWhitespace(s[k])
    requires forall i :: |s| - m <= i < |s| ==> IsWhitespace(s[i])
    requires m < |s| - k ==> !IsWhitespace(s[|s| - m - 1])
    ensures var r := s[k..][..|s| - k - m];
      OccursAt(s, r, k) && AllWhitespace(s[..k]) && AllWhitespace(s[k + |r|..])
      && (r != [] ==> !IsWhitespace(r[0]) && !IsWhitespace(r[|r| - 1]))
      && (r == [] <==> AllWhitespace(s))
  {
    var r := s[k..][..|s| - k - m];
    assert r == s[k..|s| - m];
    assert forall i :: 0 <= i < k ==> s[..k][i] == s[i];
    assert forall i :: |s| - m <= i < |s| ==> s[|s| - m..][i - (|s| - m)] == s[i];
    if r == [] {
      assert k == |s| || m == |s| - k;
    } else {
      assert r[0] == s[k];
    }
  }

  /** Trimming both ends leaves the piece of `s` that starts where its leading whitespace ends. */
  lemma TrimIsSlice(s: string)
    ensures OccursAt(s, Trim(s), LeadingWhitespace(s))
  {
    var k := LeadingWhitespace(s);
    var m := TrailingWhitespace(s[k..]);
    TrimPieces(s, k, m);
    assert Trim(s) == s[k..][..|s| - k - m];
  }

  /** `trim()` gives "" exactly for an all-whitespace string, "" itself included. */
  lemma TrimEmptyIffAllWhitespace(s: string)
    ensures Trim(s) == [] <==> AllWhitespace(s)
  {
    var k := LeadingWhitespace(s);
    TrimPieces(s, k, TrailingWhitespace(s[k..]));
  }

  /** `a` and `b` agree before position `k`, where `a` has ended or has the smaller character. */
  ghost predicate FirstDifferenceAt(a: string, b: string, k: int) {
    0 <= k <= |a| && k < |b| && a[..k] == b[..k] && (k == |a| || a[k] < b[k])
  }

  /**
   * `a < b` on strings: `a` comes first in dictionary order, character by
   * character, a proper prefix coming before its extensions.
   */
  ghost predicate Less(a: string, b: string) {
    exists k :: FirstDifferenceAt(a, b, k)
  }

  /** Two strings that agree before position `k`, where the first has the smaller character, are ordered. */
  lemma LessAtFirstDifference(a: string, b: string, k: nat)
    requires k < |a| && k < |b|
    requires forall i :: 0 <= i < k ==> a[i] == b[i]
    requires a[k] < b[k]
    ensures Less(a, b)
  {
    assert a[..k] == b[..k];
    assert FirstDifferenceAt(a, b, k);
  }

  /** The order of strings is transitive. */
  lemma LessTransitive(a: string, b: string, c: string)
    requires Less(a, b) && Less(b, c)
    ensures Less(a, c)
  {
    var i :| FirstDifferenceAt(a, b, i);
    var j :| FirstDifferenceAt(b, c, j);
    if i <= j {
      assert a[..i] == b[..i] == b[..j][..i] == c[..j][..i] == c[..i];
      assert FirstDifferenceAt(a, c, i);
    } else {
      assert a[..j] == a[..i][..j] == b[..i][..j] == b[..j] == c[..j];
      assert FirstDifferenceAt(a, c, j);
    }
  }
}
