/**
 * ASCII models of the JavaScript string operations the pages use:
 * `trim`, `toLowerCase`/`toUpperCase`, `includes`, `split`, `Number.toString`
 * and `padStart(2, '0')`.
 */
module Text {

  /** The characters that `trim` and the regular-expression class `\s` treat as white space (ASCII only). */
  predicate IsSpace(c: char) {
    c == ' ' || c == '\t' || c == '\n' || c == '\r' || c == '\U{000B}' || c == '\U{000C}'
  }

  predicate AllSpace(s: string) {
    forall k :: 0 <= k < |s| ==> IsSpace(s[k])
  }

  /** Neither end of `s` is white space. */
  predicate NoOuterSpace(s: string) {
    s == [] || (!IsSpace(s[0]) && !IsSpace(s[|s| - 1]))
  }

  /** `trim`: white space cut from both ends, so neither end of the result is white space. */
  function Trim(s: string): (r: string)
    ensures |r| <= |s|
    ensures NoOuterSpace(r)
    decreases |s|
  {
    if |s| > 0 && IsSpace(s[0]) then Trim(s[1..])
    else if |s| > 0 && IsSpace(s[|s| - 1]) then Trim(s[..|s| - 1])
    else s
  }

  lemma AllSpaceConcat(a: string, b: string)
    requires AllSpace(a) && AllSpace(b)
    ensures AllSpace(a + b)
  {
    assert forall k :: 0 <= k < |a + b| ==> (a + b)[k] == if k < |a| then a[k] else b[k - |a|];
  }

  /** A white-space character put in front of a split joins its leading part. */
  lemma ConsSplit(c: char, p: string, r: string, q: string)
    requires IsSpace(c) && AllSpace(p)
    ensures [c] + (p + r + q) == ([c] + p) + r + q && AllSpace([c] + p)
  {
    AllSpaceConcat([c], p);
  }

  /** A white-space character put after a split joins its trailing part. */
  lemma SnocSplit(p: string, r: string, q: string, c: char)
    requires IsSpace(c) && AllSpace(q)
    ensures p + r + q + [c] == p + r + (q + [c]) && AllSpace(q + [c])
  {
    AllSpaceConcat(q, [c]);
  }

  /** `trim` cuts only white space: the input is white space, the result, and white space again. */
  lemma {:induction false} TrimSplit(s: string) returns (pre: string, post: string)
    ensures s == pre + Trim(s) + post
    ensures AllSpace(pre) && AllSpace(post)
    decreases |s|
  {
    if |s| > 0 && IsSpace(s[0]) {
      var u := s[1..];
      var p, q := TrimSplit(u);
      ConsSplit(s[0], p, Trim(u), q);
      assert s == [s[0]] + u;
      pre, post := [s[0]] + p, q;
    } else if |s| > 0 && IsSpace(s[|s| - 1]) {
      var t := s[..|s| - 1];
      var p, q := TrimSplit(t);
      SnocSplit(p, Trim(t), q, s[|s| - 1]);
      assert s == t + [s[|s| - 1]];
      pre, post := p, q + [s[|s| - 1]];
    } else {
      pre, post := [], [];
    }
  }

  /** A string trims to nothing exactly when it is all white space. */
  lemma TrimEmptyIffAllSpace(s: string)
    ensures Trim(s) == [] <==> AllSpace(s)
  {
    var pre, post := TrimSplit(s);
    var r := Trim(s);
    if r == [] {
      assert s == pre + post;
      AllSpaceConcat(pre, post);
    } else {
      assert s[|pre|] == r[0];
    }
  }

  /** Trimming only removes characters: every character of the result occurs in the input. */
  lemma TrimKeepsChars(s: string, c: char)
    requires c in Trim(s)
    ensures c in s
  {
    var pre, post := TrimSplit(s);
    var r := Trim(s);
    var k :| 0 <= k < |r| && r[k] == c;
    assert s[|pre| + k] == c;
  }

  /** A string without white space at either end trims to itself. */
  lemma TrimNoOuterSpace(s: string)
    requires NoOuterSpace(s)
    ensures Trim(s) == s
  {
  }

  function LowerChar(c: char): char {
    if 'A' <= c <= 'Z' then (c as int + 32) as char else c
  }

  function UpperChar(c: char): char {
    if 'a' <= c <= 'z' then (c as int - 32) as char else c
  }

  /** `toLowerCase`, ASCII letters only. */
  function ToLower(s: string): string {
    seq(|s|, k requires 0 <= k < |s| => LowerChar(s[k]))
  }

  /** `toUpperCase`, ASCII letters only. */
  function ToUpper(s: string): string {
    seq(|s|, k requires 0 <= k < |s| => UpperChar(s[k]))
  }

  predicate IsPrefix(p: string, s: string) {
    |p| <= |s| && p == s[..|p|]
  }

  /** `s.includes(sub)`, scanning from the left. */
  predicate Contains(s: string, sub: string)
    decreases |s|
  {
    IsPrefix(sub, s) || (|s| > 0 && Contains(s[1..], sub))
  }

  /** `sub` occurs in `s` starting at position `i`. */
  predicate OccursAt(s: string, sub: string, i: int) {
    0 <= i <= |s| - |sub| && s[i..i + |sub|] == sub
  }

  /** `includes` holds exactly when `sub` occurs at some position of `s`. */
  lemma {:induction false} ContainsIffOccurs(s: string, sub: string)
    ensures Contains(s, sub) <==> exists i :: OccursAt(s, sub, i)
  {
    if IsPrefix(sub, s) {
      assert OccursAt(s, sub, 0);
    } else if |s| == 0 {
    } else {
      ContainsIffOccurs(s[1..], sub);
      if Contains(s[1..], sub) {
        var i :| OccursAt(s[1..], sub, i);
        assert s[i + 1..i + 1 + |sub|] == sub;
        assert OccursAt(s, sub, i + 1);
      }
      forall i | OccursAt(s, sub, i) ensures Contains(s[1..], sub) {
        assert i != 0;
        assert s[1..][i - 1..i - 1 + |sub|] == sub;
        assert OccursAt(s[1..], sub, i - 1);
      }
    }
  }

  /** The empty string is part of every string, so an empty search term matches. */
  lemma ContainsEmpty(s: string)
    ensures Contains(s, "")
  {
  }

  /** `s.split(sep)`: the pieces between separators, empty pieces included. */
  function Split(s: string, sep: char): (r: seq<string>)
    ensures |r| >= 1
    ensures forall k :: 0 <= k < |r| ==> sep !in r[k]
  {
    if s == [] then [""]
    else
      var rest := Split(s[1..], sep);
      if s[0] == sep then [""] + rest else [[s[0]] + rest[0]] + rest[1..]
  }

  /** `parts.join(sep)`. */
  function Join(parts: seq<string>, sep: char): string {
    if |parts| == 0 then ""
    else if |parts| == 1 then parts[0]
    else parts[0] + [sep] + Join(parts[1..], sep)
  }

  /** Splitting loses nothing: joining the pieces with the separator gives the string back. */
  lemma {:induction false} JoinSplit(s: string, sep: char)
    ensures Join(Split(s, sep), sep) == s
  {
    if s != [] {
      var rest := Split(s[1..], sep);
      JoinSplit(s[1..], sep);
      if s[0] == sep {
        assert Split(s, sep) == [""] + rest;
        assert ([""] + rest)[1..] == rest;
      } else {
        var r := [[s[0]] + rest[0]] + rest[1..];
        if |rest| == 1 {
          assert Join(r, sep) == [s[0]] + rest[0];
        } else {
          assert r[1..] == rest[1..];
          assert Join(r, sep) == [s[0]] + (rest[0] + [sep] + Join(rest[1..], sep));
        }
      }
    }
  }

  function DigitChar(d: nat): char
    requires d < 10
  {
    ('0' as int + d) as char
  }

  predicate IsDigit(c: char) {
    '0' <= c <= '9'
  }

  function DigitValue(c: char): nat {
    if IsDigit(c) then c as int - '0' as int else 0
  }

  /** `n.toString()` for a non-negative integer: its decimal digits, without leading zeros. */
  function NatToString(n: nat): (r: string)
    ensures |r| >= 1
  {
    if n < 10 then [DigitChar(n)] else NatToString(n / 10) + [DigitChar(n % 10)]
  }

  /** Every character printed is a digit; one digit below 10, two from 10 to 99, more from 100 up. */
  lemma {:induction false} NatToStringDigits(n: nat)
    ensures var r := NatToString(n);
      && (forall k :: 0 <= k < |r| ==> IsDigit(r[k]))
      && (n < 10 <==> |r| == 1)
      && (10 <= n < 100 <==> |r| == 2)
  {
    if n >= 10 {
      NatToStringDigits(n / 10);
    }
  }

  /** Reads a string of decimal digits back as a number. */
  function ParseNat(s: string): nat {
    if s == [] then 0 else ParseNat(s[..|s| - 1]) * 10 + DigitValue(s[|s| - 1])
  }

  lemma {:induction false} ParseNatToString(n: nat)
    ensures ParseNat(NatToString(n)) == n
  {
    var r := NatToString(n);
    if n >= 10 {
      assert r[..|r| - 1] == NatToString(n / 10);
      ParseNatToString(n / 10);
    }
  }

  /** Different numbers print differently. */
  lemma NatToStringInjective(m: nat, n: nat)
    requires NatToString(m) == NatToString(n)
    ensures m == n
  {
    ParseNatToString(m);
    ParseNatToString(n);
  }

  /** `n.toString().padStart(2, '0')`. */
  function PadTwo(n: nat): (r: string)
    ensures |r| >= 2
  {
    var t := NatToString(n);
    if |t| < 2 then "0" + t else t
  }

  /** Below 100 the padded form is exactly the tens and the units digit; from 10 up nothing is added. */
  lemma PadTwoDigits(n: nat)
    ensures var r := PadTwo(n);
      && (n < 100 ==> |r| == 2 && r[0] == DigitChar(n / 10) && r[1] == DigitChar(n % 10))
      && (n >= 10 ==> r == NatToString(n))
      && (forall k :: 0 <= k < |r| ==> IsDigit(r[k]))
  {
    NatToStringDigits(n);
    assert 10 <= n < 100 ==> NatToString(n / 10) == [DigitChar(n / 10)];
  }

  lemma ParsePadTwo(n: nat)
    ensures ParseNat(PadTwo(n)) == n
  {
    PadTwoDigits(n);
    ParseNatToString(n);
    var r := PadTwo(n);
    if n < 10 {
      assert r[..1] == "0";
    }
  }
}
