/** The string operations the source relies on: ASCII case mapping
    (`uppercase`, `contains(…, ignoreCase = true)`, `equals(…, ignoreCase = true)`),
    `contains`, `substringAfter`, `toIntOrNull`, and zero-padded decimal text. */
module Text {
  import opened Base

  const MaxInt: int := 0x7fff_ffff
  const MinInt: int := -0x8000_0000

  function LowerChar(c: char): char {
    if 'A' <= c <= 'Z' then (c as int + 32) as char else c
  }

  function UpperChar(c: char): char {
    if 'a' <= c <= 'z' then (c as int - 32) as char else c
  }

  function Lower(s: string): (r: string)
    ensures |r| == |s|
  {
    seq(|s|, i requires 0 <= i < |s| => LowerChar(s[i]))
  }

  /** `uppercase()`, restricted to the ASCII letters. */
  function Upper(s: string): (r: string)
    ensures |r| == |s|
  {
    seq(|s|, i requires 0 <= i < |s| => UpperChar(s[i]))
  }

  /** Upper-casing forgets any earlier case mapping: the upper case of a
      text's lower or upper case is the text's own upper case. */
  lemma UpperForgetsCase(s: string)
    ensures Upper(Lower(s)) == Upper(s)
    ensures Upper(Upper(s)) == Upper(s)
  {
    forall i | 0 <= i < |s|
      ensures Upper(Lower(s))[i] == Upper(s)[i] && Upper(Upper(s))[i] == Upper(s)[i]
    {
      assert Lower(s)[i] == LowerChar(s[i]);
    }
  }

  /** `sub` occurs in `s` starting at index `i`. */
  predicate OccursAt(sub: string, s: string, i: int) {
    0 <= i && i + |sub| <= |s| && s[i..i + |sub|] == sub
  }

  /** `s.contains(sub)` (case-sensitive). */
  function Contains(s: string, sub: string): (b: bool)
    ensures b <==> exists i :: OccursAt(sub, s, i)
    decreases |s|
  {
    if |sub| > |s| then
      assert forall i :: !OccursAt(sub, s, i);
      false
    else if s[..|sub|] == sub then
      assert OccursAt(sub, s, 0);
      true
    else
      var b := Contains(s[1..], sub);
      assert forall i :: 1 <= i ==> (OccursAt(sub, s, i) <==> OccursAt(sub, s[1..], i - 1)) by {
        forall i | 1 <= i ensures OccursAt(sub, s, i) <==> OccursAt(sub, s[1..], i - 1) {
          if i + |sub| <= |s| {
            var here, there := s[i..i + |sub|], s[1..][i - 1..i - 1 + |sub|];
            forall k | 0 <= k < |sub| ensures here[k] == there[k] {
              assert here[k] == s[i + k] == s[1..][i - 1 + k];
            }
            assert here == there;
          }
        }
      }
      assert !OccursAt(sub, s, 0);
      assert b ==> exists i :: OccursAt(sub, s, i) by {
        if b {
          var j :| OccursAt(sub, s[1..], j);
          assert OccursAt(sub, s, j + 1);
        }
      }
      assert (exists i :: OccursAt(sub, s, i)) ==> b by {
        if exists i :: OccursAt(sub, s, i) {
          var i :| OccursAt(sub, s, i);
          assert OccursAt(sub, s[1..], i - 1);
        }
      }
      b
  }

  /** `s.contains(sub, ignoreCase = true)`, for ASCII case folding. */
  function ContainsIgnoreCase(s: string, sub: string): bool {
    Contains(Lower(s), Lower(sub))
  }

  /** `a.equals(b, ignoreCase = true)`, for ASCII case folding. */
  function EqualsIgnoreCase(a: string, b: string): bool {
    Lower(a) == Lower(b)
  }

  /** `s.substringAfter("T")`: the text after the first `T`, or all of `s` if there is none. */
  function SubstringAfterT(s: string): (r: string)
    ensures (forall i :: 0 <= i < |s| ==> s[i] != 'T') ==> r == s
    ensures forall i :: 0 <= i < |s| && s[i] == 'T' && (forall j :: 0 <= j < i ==> s[j] != 'T') ==> r == s[i + 1..]
  {
    var i := FirstIndexWhere(s, (c: char) => c == 'T');
    if i == -1 then s else s[i + 1..]
  }

  predicate IsDigit(c: char) {
    '0' <= c <= '9'
  }

  function DigitValue(c: char): int
    requires IsDigit(c)
  {
    c as int - '0' as int
  }

  function DigitChar(n: int): (c: char)
    requires 0 <= n < 10
    ensures IsDigit(c) && DigitValue(c) == n
  {
    (n + '0' as int) as char
  }

  predicate AllDigits(s: string) {
    forall i :: 0 <= i < |s| ==> IsDigit(s[i])
  }

  /** The value of a string of decimal digits, most significant first. */
  function DigitsValue(s: string): (v: nat)
    requires AllDigits(s)
  {
    if |s| == 0 then 0 else DigitsValue(s[..|s| - 1]) * 10 + DigitValue(s[|s| - 1])
  }

  /** `toIntOrNull()`: an optional sign followed by at least one ASCII digit,
      and a value that fits a 32-bit `Int`; anything else is null. */
  function ToIntOrNull(s: string): (r: Option<int>)
    ensures r.Some? ==> MinInt <= r.value <= MaxInt
    ensures r.Some? ==> |s| >= 1 && AllDigits(s[1..]) && (IsDigit(s[0]) || s[0] == '+' || s[0] == '-')
    ensures |s| == 2 && IsDigit(s[0]) && IsDigit(s[1]) ==> r == Some(DigitValue(s[0]) * 10 + DigitValue(s[1]))
  {
    if |s| == 0 then None
    else if s[0] == '-' then
      if |s| == 1 || !AllDigits(s[1..]) then None
      else if DigitsValue(s[1..]) <= -MinInt then Some(-(DigitsValue(s[1..]) as int))
      else None
    else if s[0] == '+' then
      if |s| == 1 || !AllDigits(s[1..]) then None
      else if DigitsValue(s[1..]) <= MaxInt then Some(DigitsValue(s[1..]))
      else None
    else if AllDigits(s) then
      var v := DigitsValue(s);
      assert |s| == 2 ==> v == DigitValue(s[0]) * 10 + DigitValue(s[1]) by {
        if |s| == 2 {
          assert s[..1][..0] == [];
          assert DigitsValue(s[..1]) == DigitValue(s[0]);
        }
      }
      if v <= MaxInt then Some(v) else None
    else None
  }

  /** The value `toIntOrNull` gives a numeral: unsigned digits, or digits
      after a `+` or `-`, read as a decimal number, and null when that number
      does not fit a 32-bit `Int`. */
  lemma ToIntOrNullValue(s: string)
    ensures |s| >= 1 && AllDigits(s) ==>
      ToIntOrNull(s) == if DigitsValue(s) <= MaxInt then Some(DigitsValue(s)) else None
    ensures |s| >= 2 && s[0] == '+' && AllDigits(s[1..]) ==>
      ToIntOrNull(s) == if DigitsValue(s[1..]) <= MaxInt then Some(DigitsValue(s[1..])) else None
    ensures |s| >= 2 && s[0] == '-' && AllDigits(s[1..]) ==>
      ToIntOrNull(s) == if DigitsValue(s[1..]) <= -MinInt then Some(-(DigitsValue(s[1..]) as int)) else None
  {
    if |s| >= 1 && AllDigits(s) {
      assert IsDigit(s[0]);
    }
  }

  /** `toIntOrNull` reads back the decimal text of every `Int`, with or
      without a sign. */
  lemma ToIntOrNullReadsNatText(n: nat)
    ensures n <= MaxInt ==> ToIntOrNull(NatText(n)) == Some(n)
    ensures n <= MaxInt ==> ToIntOrNull("+" + NatText(n)) == Some(n)
    ensures n <= -MinInt ==> ToIntOrNull("-" + NatText(n)) == Some(-(n as int))
    ensures n > MaxInt ==> ToIntOrNull(NatText(n)) == None
  {
    ToIntOrNullValue(NatText(n));
    ToIntOrNullValue("+" + NatText(n));
    ToIntOrNullValue("-" + NatText(n));
    assert ("+" + NatText(n))[1..] == NatText(n);
    assert ("-" + NatText(n))[1..] == NatText(n);
  }

  /** Two characters read as a number: two digits give their value, and a
      second character that is not a digit gives null. */
  lemma ReadTwo(s: string)
    requires |s| == 2
    ensures IsDigit(s[0]) && IsDigit(s[1]) ==> ToIntOrNull(s) == Some(DigitValue(s[0]) * 10 + DigitValue(s[1]))
    ensures !IsDigit(s[1]) ==> ToIntOrNull(s) == None
  {
    assert s[1..][0] == s[1];
  }

  /** Two decimal digits, zero-padded (`%02d`). */
  function Pad2(n: int): (s: string)
    requires 0 <= n < 100
    ensures |s| == 2 && AllDigits(s)
    ensures DigitValue(s[0]) * 10 + DigitValue(s[1]) == n
  {
    [DigitChar(n / 10), DigitChar(n % 10)]
  }

  /** Three decimal digits, zero-padded. */
  function Pad3(n: int): (s: string)
    requires 0 <= n < 1000
    ensures |s| == 3 && AllDigits(s)
    ensures DigitValue(s[0]) * 100 + DigitValue(s[1]) * 10 + DigitValue(s[2]) == n
  {
    [DigitChar(n / 100)] + Pad2(n % 100)
  }

  /** Four decimal digits, zero-padded. */
  function Pad4(n: int): (s: string)
    requires 0 <= n < 10000
    ensures |s| == 4 && AllDigits(s)
    ensures DigitValue(s[0]) * 1000 + DigitValue(s[1]) * 100 + DigitValue(s[2]) * 10 + DigitValue(s[3]) == n
  {
    [DigitChar(n / 1000)] + Pad3(n % 1000)
  }

  /** The decimal text of a natural number, without padding. */
  function NatText(n: nat): (s: string)
    ensures |s| >= 1 && AllDigits(s)
    ensures DigitsValue(s) == n
  {
    if n < 10 then [DigitChar(n)]
    else
      var s := NatText(n / 10) + [DigitChar(n % 10)];
      assert s[..|s| - 1] == NatText(n / 10);
      s
  }
}
