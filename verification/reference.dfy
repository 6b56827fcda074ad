/**
 * The booking reference shown in the dialog: "REF-" followed by the last six
 * characters of the decimal millisecond timestamp read when the dialog opens.
 */
module Reference {
  import opened Digits
  import opened Arithmetic

  function Pow10(k: nat): (p: nat)
    ensures p >= 1
  {
    if k == 0 then 1 else 10 * Pow10(k - 1)
  }

  function DigitChar(d: nat): (c: char)
    requires d < 10
    ensures IsDigit(c)
  {
    (48 + d) as char
  }

  function DigitValue(c: char): (d: nat)
    requires IsDigit(c)
    ensures d < 10 && DigitChar(d) == c
  {
    c as int - 48
  }

  /** `n.toString()` for a non-negative integer: its decimal digits, most significant first. */
  function Decimal(n: nat): (s: string)
    ensures 1 <= |s| && AllDigits(s)
    decreases n
  {
    if n < 10 then [DigitChar(n)] else Decimal(n / 10) + [DigitChar(n % 10)]
  }

  /** The number a string of decimal digits denotes. */
  function ValueOf(s: string): nat
    requires AllDigits(s)
    decreases |s|
  {
    if s == [] then 0 else 10 * ValueOf(s[..|s| - 1]) + DigitValue(s[|s| - 1])
  }

  /** `s.slice(-k)` for a positive `k`: the last `k` characters, or all of a shorter `s`. */
  function SliceLast(s: string, k: nat): string
    requires k > 0
  {
    if |s| <= k then s else s[|s| - k..]
  }

  const RefPrefix := "REF-"
  const RefDigits := 6

  /** `REF-${Date.now().toString().slice(-6)}` for the timestamp `now`. */
  function RefNumber(now: nat): string {
    RefPrefix + SliceLast(Decimal(now), RefDigits)
  }

  // ---------------------------------------------------------------- arithmetic helpers

  /** Appending a digit: `(10a + d) mod 10m == 10 (a mod m) + d`. */
  lemma AppendDigitMod(a: nat, d: nat, m: nat)
    requires d < 10 && m > 0
    ensures (10 * a + d) % (10 * m) == 10 * (a % m) + d
  {
    var q, r := a / m, a % m;
    assert a == m * q + r;
    assert 10 * a + d == (10 * m) * q + (10 * r + d);
    DivModUnique(10 * a + d, 10 * m, q, 10 * r + d);
  }

  lemma {:induction false} ValueOfBound(s: string)
    requires AllDigits(s)
    ensures ValueOf(s) < Pow10(|s|)
  {
    if s != [] {
      ValueOfBound(s[..|s| - 1]);
    }
  }

  lemma {:induction false} Pow10Monotone(i: nat, j: nat)
    requires i <= j
    ensures Pow10(i) <= Pow10(j)
  {
    if i < j {
      Pow10Monotone(i, j - 1);
    }
  }

  // ---------------------------------------------------------------- decimal strings

  /** `slice(-k)` keeps a suffix of `s`, of length `k` or all of `s` when it is shorter. */
  lemma SliceLastSpec(s: string, k: nat)
    requires k > 0
    ensures |SliceLast(s, k)| == if |s| < k then |s| else k
    ensures SliceLast(s, k) == s[|s| - |SliceLast(s, k)|..]
  {
  }

  /** Reading back the digits that `toString` writes gives the number again. */
  lemma {:induction false} DecimalRoundTrip(n: nat)
    ensures ValueOf(Decimal(n)) == n
    decreases n
  {
    if n >= 10 {
      var s := Decimal(n);
      assert s[..|s| - 1] == Decimal(n / 10);
      DecimalRoundTrip(n / 10);
    }
  }

  /** A number of at least `10^k` has more than `k` digits. */
  lemma {:induction false} DecimalLength(n: nat, k: nat)
    requires n >= Pow10(k)
    ensures |Decimal(n)| > k
  {
    if k > 0 {
      assert n / 10 >= Pow10(k - 1);
      DecimalLength(n / 10, k - 1);
    }
  }

  /** The last `k` digits of a digit string denote its value modulo `10^k`. */
  lemma {:induction false} SliceLastValue(s: string, k: nat)
    requires AllDigits(s) && k > 0
    ensures ValueOf(SliceLast(s, k)) == ValueOf(s) % Pow10(k)
    decreases |s|
  {
    if |s| <= k {
      ValueOfBound(s);
      Pow10Monotone(|s|, k);
      DivModUnique(ValueOf(s), Pow10(k), 0, ValueOf(s));
    } else {
      var init := s[..|s| - 1];
      var d := DigitValue(s[|s| - 1]);
      var tail := SliceLast(s, k);
      assert tail[..|tail| - 1] == s[|s| - k..|s| - 1];
      assert tail[|tail| - 1] == s[|s| - 1];
      if k == 1 {
        assert tail[..|tail| - 1] == [];
        AppendDigitMod(ValueOf(init), d, 1);
      } else {
        assert SliceLast(init, k - 1) == s[|s| - k..|s| - 1];
        SliceLastValue(init, k - 1);
        AppendDigitMod(ValueOf(init), d, Pow10(k - 1));
      }
    }
  }

  /** Dividing by ten drops the last digit; the remainder is that digit. */
  lemma LastDigit(s: string)
    requires AllDigits(s) && s != []
    ensures ValueOf(s) / 10 == ValueOf(s[..|s| - 1]) && ValueOf(s) % 10 == DigitValue(s[|s| - 1])
  {
    DivModUnique(ValueOf(s), 10, ValueOf(s[..|s| - 1]), DigitValue(s[|s| - 1]));
  }

  /** Digit strings of the same length that denote the same number are equal. */
  lemma {:induction false} ValueOfInjective(s: string, t: string)
    requires AllDigits(s) && AllDigits(t) && |s| == |t|
    requires ValueOf(s) == ValueOf(t)
    ensures s == t
    decreases |s|
  {
    if s != [] {
      var s', t' := s[..|s| - 1], t[..|t| - 1];
      LastDigit(s);
      LastDigit(t);
      ValueOfInjective(s', t');
      assert s[|s| - 1] == DigitChar(DigitValue(s[|s| - 1])) == t[|t| - 1];
      assert s == s' + [s[|s| - 1]];
      assert t == t' + [t[|t| - 1]];
    }
  }

  // ---------------------------------------------------------------- the reference number

  /** "REF-" followed by one to six decimal digits. */
  lemma RefNumberShape(now: nat)
    ensures 5 <= |RefNumber(now)| <= 10
    ensures RefNumber(now)[..4] == RefPrefix && AllDigits(RefNumber(now)[4..])
  {
    assert RefNumber(now)[4..] == SliceLast(Decimal(now), RefDigits);
  }

  /** The digits after "REF-" denote the timestamp modulo one million. */
  lemma RefNumberValue(now: nat)
    ensures AllDigits(RefNumber(now)[4..]) && ValueOf(RefNumber(now)[4..]) == now % 1000000
  {
    RefNumberShape(now);
    var r := RefNumber(now);
    assert r[4..] == SliceLast(Decimal(now), RefDigits);
    SliceLastValue(Decimal(now), RefDigits);
    DecimalRoundTrip(now);
    assert Pow10(RefDigits) == 1000000;
  }

  /** From a six-digit timestamp on, the reference always has its full ten characters. */
  lemma RefNumberWidth(now: nat)
    requires now >= 100000
    ensures |RefNumber(now)| == 10
  {
    assert Pow10(5) == 100000;
    DecimalLength(now, 5);
  }

  /**
   * Two dialog openings get the same reference exactly when their timestamps
   * agree modulo one million: references are not unique beyond that window.
   */
  lemma RefNumberEqualIff(a: nat, b: nat)
    requires a >= 100000 && b >= 100000
    ensures RefNumber(a) == RefNumber(b) <==> a % 1000000 == b % 1000000
  {
    RefNumberValue(a);
    RefNumberValue(b);
    if a % 1000000 == b % 1000000 {
      RefNumberWidth(a);
      RefNumberWidth(b);
      ValueOfInjective(RefNumber(a)[4..], RefNumber(b)[4..]);
      assert RefNumber(a) == RefNumber(a)[..4] + RefNumber(a)[4..];
      assert RefNumber(b) == RefNumber(b)[..4] + RefNumber(b)[4..];
    }
  }

  /** Openings one million milliseconds (about 16.7 minutes) apart collide. */
  lemma RefNumberRepeats(now: nat)
    requires now >= 100000
    ensures RefNumber(now) == RefNumber(now + 1000000)
  {
    RefNumberEqualIff(now, now + 1000000);
  }
}
