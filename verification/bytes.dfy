/** Byte strings (C++ std::string), decimal rendering and the trailing-digit stem of a word. */
module Bytes {
  newtype byte = x: int | 0 <= x < 256

  type Text = seq<byte>

  /** The bytes of an ASCII literal. */
  function Ascii(s: string): Text
  {
    seq(|s|, i requires 0 <= i < |s| => (s[i] as int % 256) as byte)
  }

  predicate IsDigit(b: byte)
  {
    48 <= b <= 57
  }

  predicate AllDigits(s: Text)
  {
    forall i :: 0 <= i < |s| ==> IsDigit(s[i])
  }

  /** std::to_string of a non-negative integer. */
  function Decimal(n: nat): (s: Text)
    ensures |s| > 0 && AllDigits(s)
  {
    if n < 10 then [(48 + n) as byte] else Decimal(n / 10) + [(48 + n % 10) as byte]
  }

  /** std::to_string of any integer. */
  function ToString(n: int): Text
  {
    if n < 0 then [45] + Decimal(-n) else Decimal(n)
  }

  /** The value of the digits that a text starts with, continuing from acc. */
  function DigitsValue(s: Text, acc: nat): nat
  {
    if s == [] || !IsDigit(s[0]) then acc else DigitsValue(s[1..], acc * 10 + (s[0] as int - 48))
  }

  /** atoi, on text that does not start with white space or a plus sign. */
  function Atoi(s: Text): int
  {
    if s != [] && s[0] == 45 then 0 - DigitsValue(s[1..], 0) else DigitsValue(s, 0)
  }

  lemma {:induction false} DigitsValueSnoc(s: Text, d: byte, acc: nat)
    requires AllDigits(s) && IsDigit(d)
    ensures DigitsValue(s + [d], acc) == DigitsValue(s, acc) * 10 + (d as int - 48)
  {
    if s == [] {
      assert (s + [d])[1..] == [];
    } else {
      assert (s + [d])[1..] == s[1..] + [d];
      DigitsValueSnoc(s[1..], d, acc * 10 + (s[0] as int - 48));
    }
  }

  lemma {:induction false} DecimalValue(n: nat)
    ensures DigitsValue(Decimal(n), 0) == n
  {
    if n < 10 {
      assert Decimal(n)[1..] == [];
    } else {
      DecimalValue(n / 10);
      DigitsValueSnoc(Decimal(n / 10), (48 + n % 10) as byte, 0);
    }
  }

  /** atoi undoes to_string, so to_string is injective. */
  lemma AtoiToString(n: int)
    ensures Atoi(ToString(n)) == n
  {
    if n < 0 {
      DecimalValue(-n);
      assert ToString(n)[1..] == Decimal(-n);
    } else {
      DecimalValue(n);
      assert IsDigit(Decimal(n)[0]);
    }
  }

  lemma DecimalInjective(m: nat, n: nat)
    requires Decimal(m) == Decimal(n)
    ensures m == n
  {
    DecimalValue(m);
    DecimalValue(n);
  }

  /** No rendering has a leading zero, except that of zero itself. */
  lemma {:induction false} DecimalLeadingZero(n: nat)
    ensures Decimal(n)[0] == 48 <==> n == 0
  {
    if n >= 10 {
      DecimalLeadingZero(n / 10);
    }
  }

  /** A text of digits without a leading zero is the rendering of its value. */
  lemma {:induction false} DecimalOfDigits(s: Text) returns (n: nat)
    requires |s| > 0 && AllDigits(s) && s[0] != 48
    ensures Decimal(n) == s && n > 0
  {
    var last := s[|s| - 1] as int - 48;
    if |s| == 1 {
      n := last;
    } else {
      var init := s[..|s| - 1];
      var m := DecimalOfDigits(init);
      n := m * 10 + last;
      assert n / 10 == m && n % 10 == last;
      assert s == init + [s[|s| - 1]];
    }
  }

  lemma {:induction false} DecimalLength(n: nat)
    requires n < 10000000000
    ensures |Decimal(n)| <= 10
  {
    DecimalLengthBy(n, 10, 10000000000);
  }

  lemma {:induction false} DecimalLengthBy(n: nat, digits: nat, limit: nat)
    requires digits > 0 && n < limit && limit == Pow10(digits)
    ensures |Decimal(n)| <= digits
  {
    if n >= 10 {
      DecimalLengthBy(n / 10, digits - 1, limit / 10);
    }
  }

  function Pow10(k: nat): nat
  {
    if k == 0 then 1 else 10 * Pow10(k - 1)
  }

  /** What is left of a word when its trailing digits are dropped. */
  function Stem(s: Text): (r: Text)
    ensures |r| <= |s| && r == s[..|r|]
    ensures r != [] ==> !IsDigit(r[|r| - 1])
    ensures AllDigits(s[|r|..])
  {
    if s != [] && IsDigit(s[|s| - 1]) then Stem(s[..|s| - 1]) else s
  }

  lemma {:induction false} StemAppendDigits(s: Text, d: Text)
    requires AllDigits(d)
    ensures Stem(s + d) == Stem(s)
  {
    if d == [] {
      assert s + d == s;
    } else {
      assert (s + d)[..|s + d| - 1] == s + d[..|d| - 1];
      StemAppendDigits(s, d[..|d| - 1]);
    }
  }

  /** trim_trailing_null */
  function TrimNul(s: Text): (r: Text)
    ensures r <= s
    ensures r != [] ==> r[|r| - 1] != 0
    ensures forall i :: |r| <= i < |s| ==> s[i] == 0
  {
    if s != [] && s[|s| - 1] == 0 then TrimNul(s[..|s| - 1]) else s
  }

  predicate Trimmed(s: Text)
  {
    s != [] ==> s[|s| - 1] != 0
  }

  lemma TrimTrimmed(s: Text)
    requires Trimmed(s)
    ensures TrimNul(s) == s
  {
  }
}
