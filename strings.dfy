/**
 * Text helpers shared by the model: an ASCII reading of Foundation's character
 * classes, `lowercased()`, `components(separatedBy:)`, `joined(separator:)`,
 * `trimmingCharacters(in:)`, substring search and decimal rendering of integers.
 */
module Strings {

  predicate IsDigit(c: char) { '0' <= c <= '9' }

  predicate IsUpper(c: char) { 'A' <= c <= 'Z' }

  predicate IsLetter(c: char) { 'a' <= c <= 'z' || IsUpper(c) }

  /** `CharacterSet.alphanumerics`, restricted to ASCII. */
  predicate IsAlphanumeric(c: char) { IsDigit(c) || IsLetter(c) }

  /** `CharacterSet.alphanumerics.inverted`. */
  predicate IsNotAlphanumeric(c: char) { !IsAlphanumeric(c) }

  /** `CharacterSet.whitespaces` (space and tab). */
  predicate IsWhitespace(c: char) { c == ' ' || c == '\t' }

  predicate IsSpace(c: char) { c == ' ' }

  /** `Character.lowercased()` on ASCII. */
  function LowerChar(c: char): (r: char)
    ensures !IsUpper(r)
    ensures IsAlphanumeric(r) == IsAlphanumeric(c)
    ensures !IsUpper(c) ==> r == c
  {
    if IsUpper(c) then (c as int + 32) as char else c
  }

  /** `String.lowercased()`. */
  function Lower(s: string): (r: string)
    ensures |r| == |s|
    ensures forall i :: 0 <= i < |s| ==> r[i] == LowerChar(s[i])
  {
    seq(|s|, i requires 0 <= i < |s| => LowerChar(s[i]))
  }

  lemma LowerIdempotent(s: string)
    ensures Lower(Lower(s)) == Lower(s)
  {
  }

  /** Case-insensitive equality of two strings, as `.caseInsensitive` compares them. */
  predicate EqualsIgnoringCase(a: string, b: string) {
    Lower(a) == Lower(b)
  }

  /**
   * `components(separatedBy:)` with a character set: every separator ends a
   * component, so adjacent, leading and trailing separators give empty ones.
   */
  function Components(s: string, isSep: char -> bool): (r: seq<string>)
    ensures |r| >= 1
    decreases |s|
  {
    if s == [] then [[]]
    else
      var rest := Components(s[1..], isSep);
      if isSep(s[0]) then [[]] + rest
      else [[s[0]] + rest[0]] + rest[1..]
  }

  /** A component never holds a separator. */
  lemma {:induction false} ComponentsHaveNoSeparator(s: string, isSep: char -> bool, k: nat, j: nat)
    requires k < |Components(s, isSep)| && j < |Components(s, isSep)[k]|
    ensures !isSep(Components(s, isSep)[k][j])
    decreases |s|
  {
    if s != [] {
      var rest := Components(s[1..], isSep);
      if isSep(s[0]) {
        ComponentsHaveNoSeparator(s[1..], isSep, k - 1, j);
      } else if k == 0 {
        if j > 0 { ComponentsHaveNoSeparator(s[1..], isSep, 0, j - 1); }
      } else {
        ComponentsHaveNoSeparator(s[1..], isSep, k, j);
      }
    }
  }

  /** `joined(separator:)`. */
  function Join(parts: seq<string>, sep: string): string
  {
    if |parts| == 0 then []
    else if |parts| == 1 then parts[0]
    else parts[0] + sep + Join(parts[1..], sep)
  }

  lemma JoinConsHead(c: char, p: string, ps: seq<string>, sep: string)
    ensures Join([[c] + p] + ps, sep) == [c] + Join([p] + ps, sep)
  {
    if |ps| > 0 {
      assert ([[c] + p] + ps)[1..] == ps;
      assert ([p] + ps)[1..] == ps;
    }
  }

  /** Splitting on a single character and joining with it again gives back the text. */
  lemma {:induction false} JoinComponentsOnChar(s: string, isSep: char -> bool, c: char)
    requires forall x :: isSep(x) <==> x == c
    ensures Join(Components(s, isSep), [c]) == s
    decreases |s|
  {
    if s != [] {
      var rest := Components(s[1..], isSep);
      JoinComponentsOnChar(s[1..], isSep, c);
      if s[0] == c {
        assert Components(s, isSep) == [[]] + rest;
        assert ([[]] + rest)[1..] == rest;
        assert Join([[]] + rest, [c]) == [] + [c] + Join(rest, [c]);
      } else {
        assert Components(s, isSep) == [[s[0]] + rest[0]] + rest[1..];
        JoinConsHead(s[0], rest[0], rest[1..], [c]);
        assert [rest[0]] + rest[1..] == rest;
      }
    }
  }

  /** `trimmingCharacters(in:)`: drops the leading and the trailing characters of the set. */
  function TrimStart(s: string, inSet: char -> bool): (r: string)
    ensures |r| <= |s| && r == s[|s| - |r|..]
    ensures r == [] || !inSet(r[0])
    ensures forall i :: 0 <= i < |s| - |r| ==> inSet(s[i])
    decreases |s|
  {
    if s != [] && inSet(s[0]) then TrimStart(s[1..], inSet) else s
  }

  function TrimEnd(s: string, inSet: char -> bool): (r: string)
    ensures |r| <= |s| && r == s[..|r|]
    ensures r == [] || !inSet(r[|r| - 1])
    ensures forall i :: |r| <= i < |s| ==> inSet(s[i])
    decreases |s|
  {
    if s != [] && inSet(s[|s| - 1]) then TrimEnd(s[..|s| - 1], inSet) else s
  }

  function Trim(s: string, inSet: char -> bool): (r: string)
  {
    TrimEnd(TrimStart(s, inSet), inSet)
  }

  /** `hasPrefix`. */
  predicate StartsWith(s: string, prefix: string) {
    |prefix| <= |s| && s[..|prefix|] == prefix
  }

  /** `String.contains(_:)` for a substring. */
  predicate Contains(s: string, t: string)
    decreases |s|
  {
    StartsWith(s, t) || (s != [] && Contains(s[1..], t))
  }

  /** `t` occurs in `s` at offset `i`. */
  predicate OccursAt(s: string, t: string, i: int) {
    0 <= i <= |s| - |t| && s[i..i + |t|] == t
  }

  /** `Contains` holds exactly when `t` occurs at some offset of `s`. */
  lemma {:induction false} ContainsIffOccurs(s: string, t: string)
    ensures Contains(s, t) <==> exists i :: OccursAt(s, t, i)
    decreases |s|
  {
    if StartsWith(s, t) {
      assert OccursAt(s, t, 0);
    }
    if s != [] {
      ContainsIffOccurs(s[1..], t);
      if Contains(s[1..], t) {
        var i :| OccursAt(s[1..], t, i);
        assert s[i + 1..i + 1 + |t|] == s[1..][i..i + |t|];
        assert OccursAt(s, t, i + 1);
      }
      if i :| OccursAt(s, t, i) {
        if i > 0 {
          assert s[1..][i - 1..i - 1 + |t|] == s[i..i + |t|];
          assert OccursAt(s[1..], t, i - 1);
        } else {
          assert StartsWith(s, t);
        }
      }
    } else if i :| OccursAt(s, t, i) {
      assert StartsWith(s, t);
    }
  }

  function DigitChar(d: nat): (c: char)
    requires d < 10
    ensures IsDigit(c)
  {
    ('0' as int + d) as char
  }

  /** The decimal rendering of an integer inside Swift string interpolation. */
  function NatToString(n: nat): (r: string)
    ensures |r| >= 1
    ensures forall i :: 0 <= i < |r| ==> IsDigit(r[i])
  {
    if n < 10 then [DigitChar(n)] else NatToString(n / 10) + [DigitChar(n % 10)]
  }

  lemma NatToStringLength(n: nat)
    ensures n >= 10 ==> |NatToString(n)| >= 2
  {
  }

  /** Distinct numbers render as distinct strings. */
  lemma {:induction false} NatToStringInjective(a: nat, b: nat)
    requires NatToString(a) == NatToString(b)
    ensures a == b
  {
    NatToStringLength(a);
    NatToStringLength(b);
    if a >= 10 && b >= 10 {
      var sa, sb := NatToString(a), NatToString(b);
      assert sa[|sa| - 1] == DigitChar(a % 10) && sb[|sb| - 1] == DigitChar(b % 10);
      assert sa[..|sa| - 1] == NatToString(a / 10);
      assert sb[..|sb| - 1] == NatToString(b / 10);
      NatToStringInjective(a / 10, b / 10);
    }
  }

  /** Cancelling a common prefix and suffix. */
  lemma CancelAround(p: string, x: string, y: string, q: string)
    requires p + x + q == p + y + q
    ensures x == y
  {
    var s := p + x + q;
    assert |x| == |y|;
    assert x == s[|p|..|p| + |x|];
    assert y == (p + y + q)[|p|..|p| + |y|];
  }

  /** Strict lexicographic order on code points, as Firestore orders strings. */
  predicate LexLess(a: string, b: string)
    decreases |a|
  {
    if a == [] then b != []
    else if b == [] then false
    else a[0] < b[0] || (a[0] == b[0] && LexLess(a[1..], b[1..]))
  }
}
