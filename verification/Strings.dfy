/** Python's str.split(separator) and decimal numerals. */
module Strings {
  import opened JudgeTypes

  function SplitOn(c: char, s: string): (pieces: seq<string>)
    ensures |pieces| > 0
  {
    if s == [] then [[]]
    else
      var rest := SplitOn(c, s[1..]);
      if s[0] == c then [[]] + rest else [[s[0]] + rest[0]] + rest[1..]
  }

  /** Splitting at one separator splits the two sides on their own. */
  lemma {:induction false} SplitAt(c: char, s: string, t: string)
    ensures SplitOn(c, s + [c] + t) == SplitOn(c, s) + SplitOn(c, t)
  {
    if s == [] {
      assert (s + [c] + t)[1..] == t;
    } else {
      assert (s + [c] + t)[1..] == s[1..] + [c] + t;
      SplitAt(c, s[1..], t);
    }
  }

  lemma {:induction false} SplitWithout(c: char, s: string)
    requires c !in s
    ensures SplitOn(c, s) == [s]
  {
    if s != [] {
      assert s[0] in s && s == [s[0]] + s[1..];
      SplitWithout(c, s[1..]);
    }
  }

  // ----- decimal numerals -----

  predicate IsDigit(c: char) { '0' <= c <= '9' }

  predicate Digits(s: string) { s != [] && forall i | 0 <= i < |s| :: IsDigit(s[i]) }

  function DigitValue(c: char): nat
    requires IsDigit(c)
  {
    assert c as int >= '0' as int;
    c as int - '0' as int
  }

  function Value(s: string): nat
    requires forall i | 0 <= i < |s| :: IsDigit(s[i])
  {
    if s == [] then 0 else 10 * Value(s[..|s| - 1]) + DigitValue(s[|s| - 1])
  }

  function Numeral(n: nat): (s: string)
    ensures Digits(s)
  {
    if n < 10 then [('0' as nat + n) as char] else Numeral(n / 10) + [('0' as nat + n % 10) as char]
  }

  lemma {:induction false} ValueOfNumeral(n: nat)
    ensures Value(Numeral(n)) == n
  {
    if n >= 10 {
      ValueOfNumeral(n / 10);
      var s := Numeral(n);
      assert s[..|s| - 1] == Numeral(n / 10);
    } else {
      assert Numeral(n)[..0] == [];
    }
  }

  /** int(s) for a string of digits. */
  function ParseInt(s: string): Outcome<nat> {
    if Digits(s) then Returned(Value(s)) else Raised(ValueError)
  }

  /** int(float(s)) for digits with an optional fraction: the integer part. */
  function ParseSeconds(s: string): Outcome<nat> {
    var parts := SplitOn('.', s);
    if |parts| <= 2 && Digits(parts[0]) && (|parts| == 1 || forall i | 0 <= i < |parts[1]| :: IsDigit(parts[1][i]))
    then Returned(Value(parts[0])) else Raised(ValueError)
  }

  lemma ParsesNumeral(n: nat)
    ensures ParseInt(Numeral(n)) == Returned(n)
  {
    ValueOfNumeral(n);
  }

  lemma ParsesSeconds(n: nat, fraction: string)
    requires Digits(fraction)
    ensures ParseSeconds(Numeral(n) + "." + fraction) == Returned(n)
  {
    SplitAt('.', Numeral(n), fraction);
    SplitWithout('.', Numeral(n));
    SplitWithout('.', fraction);
    ValueOfNumeral(n);
  }
}
