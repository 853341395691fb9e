/**
 Whole numbers as the runtime's double-precision values: how a decimal text is
 rounded, where the finite range ends, and how a value is printed.
 */
module JsNumber {
  import opened JsText

  function PowerOfTen(e: nat): (p: nat)
    ensures p > 0
  {
    if e == 0 then 1 else 10 * PowerOfTen(e - 1)
  }

  function Abs(n: int): nat {
    if n < 0 then -n else n
  }

  /** Below this every whole number is a double. */
  const EXACT := 0x20_0000_0000_0000

  /** The distance between neighbouring doubles at `n`: the significand has 53 bits. */
  function Gap(n: nat): (gap: nat)
    ensures gap > 0 && (n > 0 ==> gap <= n)
  {
    if n < EXACT then 1 else 2 * Gap(n / 2)
  }

  function Rest(n: nat, unit: nat): (rest: nat)
    requires unit > 0
    ensures rest <= n
  {
    n % unit
  }

  /** The nearest double; halfway, the one of even significand. */
  function Rounded(n: nat): nat {
    var gap := Gap(n);
    var rest := Rest(n, gap);
    if 2 * rest < gap || (2 * rest == gap && n / gap % 2 == 0) then n - rest else n - rest + gap
  }

  /** From here on a number rounds to infinity: half a gap above the greatest double, 2^1024 - 2^970. */
  const INFINITE := 0xFFFFFFFFFFFFFC00000000000000000000000000000000000000000000000000000000000000000000000000000000000000000000000000000000000000000000000000000000000000000000000000000000000000000000000000000000000000000000000000000000000000000000000000000000000000000000000000

  predicate Finite(n: nat) {
    n < INFINITE
  }

  predicate IsDouble(n: nat) {
    Finite(n) && Rounded(n) == n
  }

  // ----- printing -----

  /** Of the multiples of `10^e` around `n`, or else of a smaller power, the closest that rounds to `n`. */
  function Closest(n: nat, e: nat): nat {
    if e == 0 then n
    else
      var unit := PowerOfTen(e);
      var rest := Rest(n, unit);
      var lower := 2 * rest < unit || (2 * rest == unit && n / unit % 2 == 0);
      if Rounded(n - rest) == n && (lower || Rounded(n - rest + unit) != n) then n - rest
      else if Rounded(n - rest + unit) == n then n - rest + unit
      else Closest(n, e - 1)
  }

  /** The number with the fewest digits that rounds to `n`. */
  function Shortest(n: nat): nat {
    Closest(n, |ShowNat(n)|)
  }

  lemma {:induction false} ClosestRounds(n: nat, e: nat)
    requires Rounded(n) == n
    ensures Rounded(Closest(n, e)) == n
    decreases e
  {
    hide Rounded, Rest, PowerOfTen;
    if e > 0 {
      ClosestRounds(n, e - 1);
    }
  }

  function WithoutZeros(digits: string): string {
    if |digits| > 1 && digits[|digits| - 1] == '0' then WithoutZeros(digits[..|digits| - 1]) else digits
  }

  /** One digit, the others as a fraction, and the exponent. */
  function Exponential(digits: string): string
    requires digits != ""
  {
    var significant := WithoutZeros(digits);
    [digits[0]] + (if |significant| > 1 then "." + significant[1..] else "") + "e+" + ShowNat(|digits| - 1)
  }

  /** From here on a number is printed with an exponent. */
  const EXPONENTIAL: nat := 1_000_000_000_000_000_000_000

  predicate Large(n: int) {
    Abs(n) >= EXPONENTIAL
  }

  function ShowInt(n: int): string {
    var digits := ShowNat(Shortest(Abs(n)));
    (if n < 0 then "-" else "") + (if Large(n) then Exponential(digits) else digits)
  }

  // ----- what a printed number reads as -----

  /** Rounding at most halves a number. */
  lemma RoundedAtLeastHalf(n: nat)
    ensures n <= 2 * Rounded(n)
  {
    if n > 0 {
      RestBelowHalf(n, Gap(n));
    }
  }

  lemma RestBelowHalf(n: nat, gap: nat)
    requires 0 < gap <= n
    ensures 2 * (n % gap) <= n
  {
    assert n == n / gap * gap + n % gap;
    assert n / gap >= 1;
    assert n / gap * gap >= gap;
  }

  lemma {:induction false} GapBelow(n: nat)
    requires n >= EXACT
    ensures Gap(n) >= 2 && 0x10_0000_0000_0000 * Gap(n) <= n
    decreases n
  {
    if n / 2 >= EXACT {
      GapBelow(n / 2);
    }
  }

  /** Rounding takes nothing into the exact range. */
  lemma RoundedStaysOut(n: nat)
    requires n >= EXACT
    ensures Rounded(n) >= EXACT
  {
    GapBelow(n);
    QuotientAtLeast(n, Gap(n), 0x10_0000_0000_0000);
    hide Gap;
  }

  lemma QuotientAtLeast(n: nat, gap: nat, q: nat)
    requires gap > 0 && q * gap <= n
    ensures n - n % gap >= q * gap
  {
    assert n == n / gap * gap + n % gap;
    TimesGrows(n / gap + 1, q, gap);
    TimesGrows(q, n / gap, gap);
  }

  lemma TimesGrows(a: nat, b: nat, c: nat)
    ensures a <= b ==> a * c <= b * c
  {
  }

  /** In the exact range the shortest decimal is the number itself. */
  lemma {:induction false} ClosestIsExact(n: nat, e: nat)
    requires n < EXACT
    ensures Closest(n, e) == n
    decreases e
  {
    if e > 0 {
      ClosestIsExact(n, e - 1);
      var unit := PowerOfTen(e);
      var low := n - Rest(n, unit);
      if low + unit >= EXACT {
        RoundedStaysOut(low + unit);
      }
      hide PowerOfTen, Rest;
    }
  }

  lemma SafeIsExact(n: int)
    requires Abs(n) < EXACT
    ensures IsDouble(Abs(n)) && ShowInt(n) == (if n < 0 then "-" else "") + ShowNat(Abs(n))
  {
    hide Closest, Exponential, ShowNat;
    ClosestIsExact(Abs(n), |ShowNat(Abs(n))|);
  }

  lemma ShownIsFinite(n: nat)
    requires Rounded(n) == n && n < EXPONENTIAL
    ensures Finite(Shortest(n)) && Rounded(Shortest(n)) == n
  {
    hide Rounded, Closest;
    ClosestRounds(n, |ShowNat(n)|);
    RoundedAtLeastHalf(Shortest(n));
  }

  lemma {:induction false} WithoutZerosShape(digits: string)
    requires Digits(digits)
    ensures Digits(WithoutZeros(digits)) && WithoutZeros(digits)[0] == digits[0]
    decreases |digits|
  {
    if |digits| > 1 && digits[|digits| - 1] == '0' {
      WithoutZerosShape(digits[..|digits| - 1]);
    }
  }

  /** An exponential text: its characters, and where its leading digits end. */
  lemma ExponentialShape(digits: string)
    requires Digits(digits)
    ensures var s := Exponential(digits);
      && |s| > 3 && s[0] == digits[0] && (s[1] == 'e' || (s[1] == '.' && 'e' in s[2..]))
      && IsDigit(s[|s| - 1]) && forall i :: 0 <= i < |s| ==> IsDigit(s[i]) || s[i] in {'.', 'e', '+'}
  {
    WithoutZerosShape(digits);
    var significant := WithoutZeros(digits);
    var s := Exponential(digits);
    var middle := if |significant| > 1 then "." + significant[1..] else "";
    var exponent := ShowNat(|digits| - 1);
    hide WithoutZeros, ShowNat;
    assert s == [digits[0]] + middle + "e+" + exponent;
    var at := 1 + |middle|;
    assert s[at] == 'e' && s[at + 1] == '+' && |s| == at + 2 + |exponent|;
    assert at >= 2 ==> s[2..][at - 2] == 'e';
    forall i | 0 <= i < |s| ensures IsDigit(s[i]) || s[i] in {'.', 'e', '+'} {
      if 1 < i < at {
        assert s[i] == significant[i - 1];
      } else if i >= at + 2 {
        assert s[i] == exponent[i - at - 2];
      }
    }
    assert s[|s| - 1] == exponent[|exponent| - 1];
  }
}
