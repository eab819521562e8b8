/** Strings: decimal digits and the lexicographic order both languages compare strings by. */
module Strings {

  predicate IsDigit(c: char) { '0' <= c <= '9' }

  predicate AllDigits(s: string) { forall i | 0 <= i < |s| :: IsDigit(s[i]) }

  function DigitOf(n: int): char
    requires 0 <= n <= 9
  {
    (n + '0' as int) as char
  }

  function ValueOf(c: char): int
    requires IsDigit(c)
  {
    c as int - '0' as int
  }

  lemma DigitValue(n: int)
    requires 0 <= n <= 9
    ensures IsDigit(DigitOf(n)) && ValueOf(DigitOf(n)) == n
  {
  }

  lemma ValueDigit(c: char)
    requires IsDigit(c)
    ensures 0 <= ValueOf(c) <= 9 && DigitOf(ValueOf(c)) == c
  {
  }

  function Pow10(w: nat): (p: nat)
    ensures p >= 1
  {
    if w == 0 then 1 else 10 * Pow10(w - 1)
  }

  // The last `w` decimal digits of `n`, with leading zeros.
  function Fixed(n: nat, w: nat): (s: string)
    ensures |s| == w
    decreases w
  {
    if w == 0 then "" else Fixed(n / 10, w - 1) + [DigitOf(n % 10)]
  }

  function Number(s: string): nat
    requires AllDigits(s)
  {
    if s == "" then 0 else 10 * Number(s[..|s| - 1]) + ValueOf(s[|s| - 1])
  }

  lemma {:induction false} FixedRoundTrip(n: nat, w: nat)
    requires n < Pow10(w)
    ensures AllDigits(Fixed(n, w)) && Number(Fixed(n, w)) == n
    decreases w
  {
    if w > 0 {
      FixedRoundTrip(n / 10, w - 1);
      DigitValue(n % 10);
      assert Fixed(n, w)[..w - 1] == Fixed(n / 10, w - 1);
    }
  }

  lemma {:induction false} FixedCanonical(s: string)
    requires AllDigits(s)
    ensures Number(s) < Pow10(|s|) && Fixed(Number(s), |s|) == s
  {
    if s != "" {
      var most, c := s[..|s| - 1], s[|s| - 1];
      FixedCanonical(most);
      ValueDigit(c);
      LastDigit(Number(most), ValueOf(c));
      assert s == most + [c];
    }
  }

  lemma LastDigit(n: nat, d: nat)
    requires d <= 9
    ensures (10 * n + d) / 10 == n && (10 * n + d) % 10 == d
  {
  }

  // Decimal printing without leading zeros.
  function Decimal(n: nat): (s: string)
    ensures s != ""
  {
    if n < 10 then [DigitOf(n)] else Decimal(n / 10) + [DigitOf(n % 10)]
  }

  lemma {:induction false} DecimalRoundTrip(n: nat)
    ensures AllDigits(Decimal(n)) && Number(Decimal(n)) == n
    ensures Decimal(n)[0] == '0' ==> n == 0
  {
    DigitValue(n % 10);
    var s := Decimal(n);
    if n >= 10 {
      DecimalRoundTrip(n / 10);
      assert s[..|s| - 1] == Decimal(n / 10);
    } else {
      assert s[..0] == "" && Number("") == 0;
    }
  }

  // ----- lexicographic order -----

  predicate Less(s: string, t: string) {
    if t == [] then false
    else if s == [] then true
    else s[0] < t[0] || (s[0] == t[0] && Less(s[1..], t[1..]))
  }

  lemma {:induction false} LessTotal(s: string, t: string)
    ensures Less(s, t) || s == t || Less(t, s)
    ensures !(Less(s, t) && Less(t, s)) && (s == t ==> !Less(s, t))
  {
    if s != [] && t != [] {
      LessTotal(s[1..], t[1..]);
      assert s == [s[0]] + s[1..] && t == [t[0]] + t[1..];
    }
  }

  lemma {:induction false} LessTransitive(s: string, t: string, u: string)
    requires Less(s, t) && Less(t, u)
    ensures Less(s, u)
  {
    if s != [] && s[0] == t[0] == u[0] {
      LessTransitive(s[1..], t[1..], u[1..]);
    }
  }

  // Texts of equal width are compared field by field.
  lemma {:induction false} LessFields(a: string, b: string, x: string, y: string)
    requires |a| == |b|
    ensures Less(a + x, b + y) <==> Less(a, b) || (a == b && Less(x, y))
  {
    if a == [] {
      assert a + x == x && b + y == y;
    } else {
      LessFields(a[1..], b[1..], x, y);
      assert (a + x)[1..] == a[1..] + x && (b + y)[1..] == b[1..] + y;
      assert a == [a[0]] + a[1..] && b == [b[0]] + b[1..];
    }
  }

  lemma LessDigits(m: int, n: int)
    requires 0 <= m <= 9 && 0 <= n <= 9
    ensures DigitOf(m) < DigitOf(n) <==> m < n
    ensures DigitOf(m) == DigitOf(n) <==> m == n
  {
    DigitValue(m);
    DigitValue(n);
  }

  // Numbers of equal width compare as their texts do.
  lemma {:induction false} LessFixed(m: nat, n: nat, w: nat)
    requires m < Pow10(w) && n < Pow10(w)
    ensures Less(Fixed(m, w), Fixed(n, w)) <==> m < n
    ensures Fixed(m, w) == Fixed(n, w) <==> m == n
    decreases w
  {
    if w > 0 {
      LessFixed(m / 10, n / 10, w - 1);
      LessDigits(m % 10, n % 10);
      LessFields(Fixed(m / 10, w - 1), Fixed(n / 10, w - 1), [DigitOf(m % 10)], [DigitOf(n % 10)]);
      FixedRoundTrip(m, w);
      FixedRoundTrip(n, w);
    }
  }
}
