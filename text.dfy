/** The string operations the pages use: ASCII case mapping and decimal rendering of integers. */
module Text {

  /** `toLowerCase` on one character; only the ASCII letters are mapped. */
  function LowerChar(c: char): char {
    if 'A' <= c <= 'Z' then (c as int + 32) as char else c
  }

  /** `toUpperCase` on one character; only the ASCII letters are mapped. */
  function UpperChar(c: char): char {
    if 'a' <= c <= 'z' then (c as int - 32) as char else c
  }

  function ToLower(s: string): (r: string)
    ensures |r| == |s|
    ensures forall i :: 0 <= i < |s| ==> r[i] == LowerChar(s[i])
  {
    if s == [] then [] else [LowerChar(s[0])] + ToLower(s[1..])
  }

  /** Lower-casing twice is lower-casing once. */
  lemma ToLowerIdempotent(s: string)
    ensures ToLower(ToLower(s)) == ToLower(s)
  {
    var once := ToLower(s);
    assert forall i :: 0 <= i < |s| ==> LowerChar(once[i]) == once[i];
  }

  /** Lower-casing a word with no capital after its first letter lower-cases only that letter. */
  lemma ToLowerCapitalized(s: string)
    requires |s| > 0 && forall i :: 1 <= i < |s| ==> !('A' <= s[i] <= 'Z')
    ensures ToLower(s) == [LowerChar(s[0])] + s[1..]
  {
    var r := ToLower(s);
    assert forall i :: 1 <= i < |s| ==> r[i] == s[i];
  }

  /** `charAt(0).toUpperCase() + slice(1)`: the first character upper-cased, the rest unchanged. */
  function Capitalize(s: string): (r: string)
    ensures |r| == |s|
    ensures s != [] ==> r[0] == UpperChar(s[0]) && r[1..] == s[1..]
    ensures s == [] ==> r == []
  {
    if s == [] then [] else [UpperChar(s[0])] + s[1..]
  }

  function DigitChar(d: nat): char
    requires d < 10
  {
    ('0' as int + d) as char
  }

  /** Decimal digits of a natural number, most significant first, without leading zeros. */
  function NatToString(n: nat): (r: string)
    ensures r != []
    ensures forall i :: 0 <= i < |r| ==> '0' <= r[i] <= '9'
    ensures n >= 10 ==> r[0] != '0'
  {
    if n < 10 then [DigitChar(n)] else NatToString(n / 10) + [DigitChar(n % 10)]
  }

  /** The value the digits denote. */
  function DigitsValue(s: string): int
  {
    if s == [] then 0 else DigitsValue(s[..|s| - 1]) * 10 + (s[|s| - 1] as int - '0' as int)
  }

  /** Rendering is faithful: the digits denote the number. */
  lemma {:induction false} NatToStringValue(n: nat)
    ensures DigitsValue(NatToString(n)) == n
  {
    var r := NatToString(n);
    if n >= 10 {
      NatToStringValue(n / 10);
      assert r[..|r| - 1] == NatToString(n / 10);
    }
  }

  /** `String(n)` for an integer. */
  function IntToString(n: int): (r: string)
    ensures r != []
    ensures r[0] == '-' <==> n < 0
    ensures forall i :: 1 <= i < |r| ==> '0' <= r[i] <= '9'
  {
    if n < 0 then "-" + NatToString(-n) else NatToString(n)
  }

  /** The digits after the optional minus sign denote the magnitude of the number. */
  lemma IntToStringValue(n: int)
    ensures DigitsValue(if n < 0 then IntToString(n)[1..] else IntToString(n)) == (if n < 0 then -n else n)
  {
    if n < 0 {
      NatToStringValue(-n);
      assert IntToString(n)[1..] == NatToString(-n);
    } else {
      NatToStringValue(n);
    }
  }
}
