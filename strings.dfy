/** The three string operations of Python that the assembler relies on:
    `str(n)` for a natural number, the substring test `sub in s`, and
    `sep.join(parts)`. Each is given an independent characterisation. */
module Strings {

  // ---------------------------------------------------------------------
  // str(n): decimal rendering of a natural number, and its inverse
  // ---------------------------------------------------------------------

  predicate IsDigit(c: char) {
    '0' <= c <= '9'
  }

  predicate AllDigits(s: string) {
    forall i :: 0 <= i < |s| ==> IsDigit(s[i])
  }

  /** A canonical decimal numeral: non-empty, digits only, no leading zero
      unless the numeral is "0" itself. This is the shape `str(n)` produces. */
  predicate IsDecimal(s: string) {
    |s| > 0 && AllDigits(s) && (s[0] == '0' ==> |s| == 1)
  }

  function DigitChar(d: nat): char
    requires d < 10
  {
    ('0' as int + d) as char
  }

  /** Python's `str(n)` for `n >= 0`. */
  function NatToDecimal(n: nat): (s: string)
    ensures IsDecimal(s)
    ensures n < 10 <==> |s| == 1
  {
    if n < 10 then [DigitChar(n)] else NatToDecimal(n / 10) + [DigitChar(n % 10)]
  }

  /** The value a string of digits denotes (the reading `int(s)` performs). */
  function DecimalValue(s: string): nat
    requires AllDigits(s)
  {
    if s == [] then 0
    else DecimalValue(s[..|s| - 1]) * 10 + (s[|s| - 1] as int - '0' as int)
  }

  /** Reading back what `str(n)` wrote gives `n`. */
  lemma {:induction false} DecimalRoundTrip(n: nat)
    ensures DecimalValue(NatToDecimal(n)) == n
  {
    var s := NatToDecimal(n);
    if n >= 10 {
      DecimalRoundTrip(n / 10);
      assert s[..|s| - 1] == NatToDecimal(n / 10);
    }
  }

  /** A numeral with a non-zero leading digit denotes a positive number. */
  lemma {:induction false} LeadingDigitPositive(s: string)
    requires IsDecimal(s) && s[0] != '0'
    ensures DecimalValue(s) > 0
  {
    if |s| > 1 {
      LeadingDigitPositive(s[..|s| - 1]);
    }
  }

  /** Every canonical numeral is what `str` writes for the value it denotes,
      so `str` is a bijection between naturals and canonical numerals. */
  lemma {:induction false} DecimalCanonical(s: string)
    requires IsDecimal(s)
    ensures NatToDecimal(DecimalValue(s)) == s
  {
    if |s| > 1 {
      var p := s[..|s| - 1];
      assert IsDecimal(p);
      LeadingDigitPositive(p);
      DecimalCanonical(p);
      var v := DecimalValue(s);
      assert v / 10 == DecimalValue(p) && v % 10 == s[|s| - 1] as int - '0' as int;
      assert s == p + [s[|s| - 1]];
    }
  }

  // ---------------------------------------------------------------------
  // `sub in s`: Python's substring test
  // ---------------------------------------------------------------------

  predicate StartsWith(s: string, prefix: string) {
    |prefix| <= |s| && s[..|prefix|] == prefix
  }

  /** `sub in s`, scanning `s` from the left. The empty string occurs in every string. */
  predicate Contains(s: string, sub: string)
    decreases |s|
  {
    StartsWith(s, sub) || (|s| > 0 && Contains(s[1..], sub))
  }

  /** `sub` occurs in `s` starting at position `i`. */
  predicate OccursAt(s: string, sub: string, i: int) {
    0 <= i && i + |sub| <= |s| && s[i..i + |sub|] == sub
  }

  /** The scan finds `sub` exactly when `sub` occurs at some position of `s`. */
  lemma {:induction false} ContainsIffOccurs(s: string, sub: string)
    ensures Contains(s, sub) <==> exists i :: OccursAt(s, sub, i)
    decreases |s|
  {
    if StartsWith(s, sub) {
      assert OccursAt(s, sub, 0);
    } else if |s| > 0 {
      ContainsIffOccurs(s[1..], sub);
      if Contains(s[1..], sub) {
        var j :| OccursAt(s[1..], sub, j);
        assert s[1..][j..j + |sub|] == s[j + 1..j + 1 + |sub|];
        assert OccursAt(s, sub, j + 1);
      }
      if i :| OccursAt(s, sub, i) {
        assert i != 0;
        assert s[1..][i - 1..i - 1 + |sub|] == s[i..i + |sub|];
        assert OccursAt(s[1..], sub, i - 1);
      }
    }
  }

  // ---------------------------------------------------------------------
  // `sep.join(parts)`
  // ---------------------------------------------------------------------

  /** Python's `sep.join(parts)`. */
  function Join(sep: string, parts: seq<string>): string
    decreases |parts|
  {
    if |parts| == 0 then ""
    else if |parts| == 1 then parts[0]
    else parts[0] + sep + Join(sep, parts[1..])
  }

  /** Where `parts[i]` starts in `sep.join(parts)`: after every earlier part
      and one separator behind each of them. */
  function Offset(sep: string, parts: seq<string>, i: nat): nat
    requires i <= |parts|
    decreases i
  {
    if i == 0 then 0 else |parts[0]| + |sep| + Offset(sep, parts[1..], i - 1)
  }

  lemma {:induction false} OffsetStep(sep: string, parts: seq<string>, i: nat)
    requires i < |parts|
    ensures Offset(sep, parts, i + 1) == Offset(sep, parts, i) + |parts[i]| + |sep|
    decreases i
  {
    if i > 0 {
      OffsetStep(sep, parts[1..], i - 1);
    }
  }

  /** The joined string is laid out as part 0, separator, part 1, separator, ...:
      each part sits at its offset, a separator follows it unless it is the
      last one, and the last part ends the string. */
  lemma {:induction false} JoinLayout(sep: string, parts: seq<string>, i: nat)
    requires i < |parts|
    ensures Offset(sep, parts, i) + |parts[i]| <= |Join(sep, parts)|
    ensures Join(sep, parts)[Offset(sep, parts, i)..Offset(sep, parts, i) + |parts[i]|] == parts[i]
    ensures i + 1 < |parts| ==> Offset(sep, parts, i) + |parts[i]| + |sep| <= |Join(sep, parts)|
    ensures i + 1 < |parts| ==>
              Join(sep, parts)[Offset(sep, parts, i) + |parts[i]|..Offset(sep, parts, i) + |parts[i]| + |sep|] == sep
    ensures i + 1 == |parts| ==> |Join(sep, parts)| == Offset(sep, parts, i) + |parts[i]|
    decreases i
  {
    var j := Join(sep, parts);
    if |parts| == 1 {
    } else if i == 0 {
      assert j == parts[0] + sep + Join(sep, parts[1..]);
      assert j[..|parts[0]|] == parts[0];
      assert j[|parts[0]|..|parts[0]| + |sep|] == sep;
    } else {
      var rest := parts[1..];
      var k := |parts[0]| + |sep|;
      JoinLayout(sep, rest, i - 1);
      assert j == parts[0] + sep + Join(sep, rest);
      assert j[k..] == Join(sep, rest);
      var o := Offset(sep, rest, i - 1) + |rest[i - 1]|;
      assert j[k + o - |parts[i]|..k + o] == Join(sep, rest)[o - |parts[i]|..o];
      if i + 1 < |parts| {
        assert j[k + o..k + o + |sep|] == Join(sep, rest)[o..o + |sep|];
      }
    }
  }

  /** A joined non-empty list begins with its first part. */
  lemma JoinStartsWithFirst(sep: string, parts: seq<string>)
    requires |parts| > 0
    ensures StartsWith(Join(sep, parts), parts[0])
  {
  }
}
