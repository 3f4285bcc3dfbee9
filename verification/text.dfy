/**
 * The string operations the JavaScript code relies on: `toLowerCase`, `toUpperCase`,
 * `includes`, and the whitespace class `\s` of regular expressions.
 * Case mapping covers the ASCII letters only.
 */
module Text {
  import Seqs

  predicate IsUpper(c: char) { 'A' <= c <= 'Z' }

  predicate IsLower(c: char) { 'a' <= c <= 'z' }

  function LowerChar(c: char): (r: char)
    ensures !IsUpper(r)
    ensures IsUpper(c) ==> IsLower(r) && r as int == c as int + 32
    ensures !IsUpper(c) ==> r == c
  {
    if IsUpper(c) then (c as int + 32) as char else c
  }

  function UpperChar(c: char): (r: char)
    ensures !IsLower(r)
    ensures IsLower(c) ==> IsUpper(r) && r as int == c as int - 32
    ensures !IsLower(c) ==> r == c
  {
    if IsLower(c) then (c as int - 32) as char else c
  }

  /** `s.toLowerCase()`. */
  function ToLower(s: string): (r: string)
    ensures |r| == |s|
    ensures forall i :: 0 <= i < |s| ==> r[i] == LowerChar(s[i])
  {
    seq(|s|, i requires 0 <= i < |s| => LowerChar(s[i]))
  }

  /** `s.toUpperCase()`. */
  function ToUpper(s: string): (r: string)
    ensures |r| == |s|
    ensures forall i :: 0 <= i < |s| ==> r[i] == UpperChar(s[i])
  {
    seq(|s|, i requires 0 <= i < |s| => UpperChar(s[i]))
  }

  /** Lower-casing twice is lower-casing once. */
  lemma ToLowerIdempotent(s: string)
    ensures ToLower(ToLower(s)) == ToLower(s)
  {
  }

  /**
   * The characters matched by `\s` in a JavaScript regular expression:
   * the WhiteSpace and LineTerminator code points of ECMAScript.
   */
  predicate IsSpace(c: char) {
    c == ' ' || c == '\t' || c == '\n' || c == '\r' || c == '\U{0B}' || c == '\U{0C}'
    || c == '\U{A0}' || c == '\U{1680}' || ('\U{2000}' <= c <= '\U{200A}')
    || c == '\U{2028}' || c == '\U{2029}' || c == '\U{202F}' || c == '\U{205F}'
    || c == '\U{3000}' || c == '\U{FEFF}'
  }

  predicate NotSpace(c: char) { !IsSpace(c) }

  /** `s.replace(/\s+/g, '')`: every whitespace character removed, the rest kept in order. */
  function StripSpaces(s: string): (r: string)
    ensures forall i :: 0 <= i < |r| ==> !IsSpace(r[i])
    ensures forall i :: 0 <= i < |s| && !IsSpace(s[i]) ==> s[i] in r
    ensures forall i :: 0 <= i < |r| ==> r[i] in s
    ensures Seqs.IsSubsequence(r, s)
  {
    Seqs.Filter(NotSpace, s)
  }

  /** Lower-casing a character never turns it into whitespace or out of it. */
  lemma LowerKeepsSpace(c: char)
    ensures IsSpace(LowerChar(c)) == IsSpace(c)
  {
  }

  /** Lower-casing neither creates nor removes whitespace, so it commutes with stripping it. */
  lemma {:induction false} StripSpacesOfLower(s: string)
    ensures StripSpaces(ToLower(s)) == ToLower(StripSpaces(s))
    decreases |s|
  {
    if |s| > 0 {
      var t := s[1..];
      var c := LowerChar(s[0]);
      assert ToLower(s)[0] == c;
      assert ToLower(s)[1..] == ToLower(t);
      LowerKeepsSpace(s[0]);
      StripSpacesOfLower(t);
      if NotSpace(s[0]) {
        assert StripSpaces(s) == [s[0]] + StripSpaces(t);
        assert ToLower([s[0]] + StripSpaces(t)) == [c] + ToLower(StripSpaces(t));
      }
    }
  }

  /** `s.includes(sub)`: `sub` occurs in `s` at some offset. */
  predicate Contains(s: string, sub: string)
    decreases |s|
  {
    sub <= s || (|s| > 0 && Contains(s[1..], sub))
  }

  /** `sub` occurs in `s` starting at offset `k`. */
  predicate OccursAt(s: string, sub: string, k: int) {
    0 <= k <= |s| - |sub| && sub == s[k..k + |sub|]
  }

  /** `Contains` holds exactly when `sub` occurs in `s` at some offset. */
  lemma {:induction false} ContainsAt(s: string, sub: string)
    ensures Contains(s, sub) <==> exists k :: OccursAt(s, sub, k)
    decreases |s|
  {
    if sub <= s {
      assert OccursAt(s, sub, 0);
    } else if |s| > 0 {
      ContainsAt(s[1..], sub);
      if Contains(s[1..], sub) {
        var k :| OccursAt(s[1..], sub, k);
        assert s[1..][k..k + |sub|] == s[k + 1..k + 1 + |sub|];
        assert OccursAt(s, sub, k + 1);
      }
      if exists k :: OccursAt(s, sub, k) {
        var k :| OccursAt(s, sub, k);
        if k != 0 {
          assert s[1..][k - 1..k - 1 + |sub|] == s[k..k + |sub|];
          assert OccursAt(s[1..], sub, k - 1);
        }
      }
    }
  }

  /** Every string contains the empty string (`s.includes('')` is true). */
  lemma ContainsEmpty(s: string)
    ensures Contains(s, "")
  {
  }

  /** How JavaScript prints a non-negative integer: decimal digits, no leading zero unless it is `0`. */
  predicate IsCanonicalDecimal(s: string) {
    && |s| > 0
    && (forall i :: 0 <= i < |s| ==> '0' <= s[i] <= '9')
    && (s[0] == '0' ==> |s| == 1)
  }

  /** `k` written in decimal, as JavaScript's template literals print a non-negative integer. */
  function Decimal(k: nat): (r: string)
    ensures |r| > 0
    ensures forall i :: 0 <= i < |r| ==> '0' <= r[i] <= '9'
    ensures IsCanonicalDecimal(r)
    ensures r[0] == '0' <==> k == 0
    decreases k
  {
    if k < 10 then [Digit(k)] else Decimal(k / 10) + [Digit(k % 10)]
  }

  function Digit(d: nat): (c: char)
    requires d < 10
    ensures '0' <= c <= '9'
    ensures c as int - '0' as int == d
  {
    ('0' as int + d) as char
  }

  /** Reads a string of decimal digits back as a number. */
  function ParseDecimal(s: string): nat
    decreases |s|
  {
    if |s| == 0 then 0
    else ParseDecimal(s[..|s| - 1]) * 10 + (if '0' <= s[|s| - 1] <= '9' then s[|s| - 1] as int - '0' as int else 0)
  }

  /** Printing a number and reading it back gives the number. */
  lemma {:induction false} DecimalRoundTrip(k: nat)
    ensures ParseDecimal(Decimal(k)) == k
    decreases k
  {
    var r := Decimal(k);
    if k < 10 {
      assert r[..|r| - 1] == [];
    } else {
      DecimalRoundTrip(k / 10);
      assert r[..|r| - 1] == Decimal(k / 10);
    }
  }

  /** Digits that read as zero are all zeros. */
  lemma {:induction false} ZeroDecimalIsZeros(s: string)
    requires forall i :: 0 <= i < |s| ==> '0' <= s[i] <= '9'
    requires ParseDecimal(s) == 0
    ensures forall i :: 0 <= i < |s| ==> s[i] == '0'
    decreases |s|
  {
    if |s| > 0 {
      var p := s[..|s| - 1];
      ZeroDecimalIsZeros(p);
      forall i | 0 <= i < |s| ensures s[i] == '0' {
        if i < |s| - 1 {
          assert s[i] == p[i];
        }
      }
    }
  }

  /** A canonical decimal is the printing of the number it reads as: each number has exactly one. */
  lemma {:induction false} CanonicalDecimalIsUnique(s: string)
    requires IsCanonicalDecimal(s)
    ensures s == Decimal(ParseDecimal(s))
    decreases |s|
  {
    var n := |s| - 1;
    var last := s[n] as int - '0' as int;
    var p := s[..n];
    assert s == p + [s[n]];
    assert ParseDecimal(s) == ParseDecimal(p) * 10 + last;
    if n == 0 {
      assert p == [];
      assert Digit(last) == s[0];
    } else {
      assert p[0] == s[0] != '0';
      assert IsCanonicalDecimal(p);
      CanonicalDecimalIsUnique(p);
      if ParseDecimal(p) == 0 {
        ZeroDecimalIsZeros(p);
        assert false;
      }
      var k := ParseDecimal(s);
      assert k / 10 == ParseDecimal(p) && k % 10 == last;
      assert Digit(k % 10) == s[n];
    }
  }
}
