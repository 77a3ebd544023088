/** Reading a duration from JSON: a quoted Go duration, or a number of nanoseconds. */
module Durations {
  import opened Wrappers
  import opened Basics

  const TWO_63: int := 0x8000_0000_0000_0000
  const TWO_64: int := 0x1_0000_0000_0000_0000
  const MAX: int := TWO_63 - 1
  const MAX_DIGITS: int := 19

  /** The 64-bit two's complement value of an exact result. */
  function Wrap(x: int): int {
    (x + TWO_63) % TWO_64 - TWO_63
  }

  datatype Error = BadText | Negative | Empty | NotNumber | Overflow

  predicate IsDigit(c: Byte) {
    48 <= c <= 57
  }

  predicate AllDigits(b: seq<Byte>) {
    forall i :: 0 <= i < |b| ==> IsDigit(b[i])
  }

  /** The number that digits read as, exactly. */
  function Value(b: seq<Byte>): nat
    requires AllDigits(b)
  {
    if b == [] then 0 else Value(b[..|b| - 1]) * 10 + (b[|b| - 1] as int - 48)
  }

  /** The loop over the digits, in wrapping arithmetic, with its own overflow test. */
  function Accumulate(b: seq<Byte>): Result<int, Error> {
    if b == [] then Ok(0)
    else
      var before, c := Accumulate(b[..|b| - 1]), b[|b| - 1];
      if before.Err? then before
      else if !IsDigit(c) then Err(NotNumber)
      else
        var next := Wrap(Wrap(before.value * 10) + (c as int - 48));
        if next < before.value then Err(Overflow) else Ok(next)
  }

  class Duration {
    var ns: int

    constructor ()
      ensures ns == 0
    {
      ns := 0;
    }

    /** A number is taken exactly when it is 1 to 19 digits and fits, and then with its value;
        whatever is refused leaves the duration as it was.  `parse` reads Go's duration syntax. */
    method UnmarshalJSON(b: seq<Byte>, parse: seq<Byte> -> Option<int>) returns (error: Option<Error>)
      modifies this
      ensures error.Some? ==> ns == old(ns)
      ensures |b| >= 2 && b[0] == 34 ==>
        match parse(b[1..|b| - 1])
        case None => error == Some(BadText)
        case Some(v) => if v < 0 then error == Some(Negative) else error == None && ns == v
      ensures !(|b| >= 2 && b[0] == 34) ==>
        && (error.None? <==> 1 <= |b| <= 19 && AllDigits(b) && Value(b) <= 9_223_372_036_854_775_807)
        && (error.None? ==> ns == Value(b))
        && (error == Some(Empty) <==> |b| == 0)
        && (error == Some(NotNumber) <==> 1 <= |b| <= 19 && !AllDigits(b))
        && (error.Some? ==> error.value in {Empty, NotNumber, Overflow})
    {
      if |b| >= 2 && b[0] == 34 {
        var v := parse(b[1..|b| - 1]);
        if v.None? {
          return Some(BadText);
        }
        if v.value < 0 {
          return Some(Negative);
        }
        ns := v.value;
        return None;
      }
      if |b| == 0 {
        return Some(Empty);
      }
      if |b| > 19 {
        return Some(Overflow);
      }
      var sum := 0;
      for i := 0 to |b|
        invariant Accumulate(b[..i]) == Ok(sum)
      {
        assert b[..i + 1][..i] == b[..i];
        var c := b[i];
        if !IsDigit(c) {
          assert !AllDigits(b);
          return Some(NotNumber);
        }
        var next := Wrap(Wrap(sum * 10) + (c as int - 48));
        if next < sum {
          OverflowsAtTheEnd(b, i);
          return Some(Overflow);
        }
        sum := next;
      }
      assert b[..|b|] == b;
      AccumulateExact(b);
      ns := sum;
      error := None;
    }
  }

  function Pow10(n: nat): nat {
    if n == 0 then 1 else 10 * Pow10(n - 1)
  }

  lemma {:induction false} ValueBound(b: seq<Byte>)
    requires AllDigits(b)
    ensures Value(b) < Pow10(|b|)
  {
    if b != [] {
      ValueBound(b[..|b| - 1]);
    }
  }

  lemma {:induction false} PowGrows(m: nat, n: nat)
    requires m <= n
    ensures Pow10(m) <= Pow10(n)
  {
    if m < n {
      PowGrows(m, n - 1);
    }
  }

  lemma PowersOfTen()
    ensures Pow10(17) == 100_000_000_000_000_000 && Pow10(18) == 1_000_000_000_000_000_000
  {
    assert Pow10(3) == 1_000;
    assert Pow10(6) == 1_000_000;
    assert Pow10(9) == 1_000_000_000;
    assert Pow10(12) == 1_000_000_000_000;
    assert Pow10(15) == 1_000_000_000_000_000;
  }

  /** One digit more, while the result has at most 19: the test fires exactly when the sum does not fit. */
  lemma StepExact(ns: int, d: int)
    requires 0 <= ns < 1_000_000_000_000_000_000 && 0 <= d <= 9
    ensures Wrap(Wrap(ns * 10) + d) < ns <==> ns * 10 + d > MAX
    ensures ns * 10 + d <= MAX ==> Wrap(Wrap(ns * 10) + d) == ns * 10 + d
  {
  }

  /** Up to 19 digits the loop is exact. */
  lemma {:induction false} AccumulateExact(b: seq<Byte>)
    requires |b| <= MAX_DIGITS
    ensures Accumulate(b).Ok? <==> AllDigits(b) && Value(b) <= MAX
    ensures Accumulate(b).Ok? ==> Accumulate(b).value == Value(b)
  {
    hide Wrap, Pow10;
    if b != [] {
      var front, c := b[..|b| - 1], b[|b| - 1];
      AccumulateExact(front);
      assert AllDigits(b) <==> AllDigits(front) && IsDigit(c);
      if AllDigits(b) {
        ValueBound(front);
        PowGrows(|front|, 18);
        PowersOfTen();
        StepExact(Value(front), c as int - 48);
      }
    }
  }

  /** When the test fires on at most 19 bytes, it fires on the last of 19 digits, and they do not fit. */
  lemma OverflowsAtTheEnd(b: seq<Byte>, i: nat)
    requires i < |b| <= MAX_DIGITS && Accumulate(b[..i]).Ok? && Accumulate(b[..i + 1]) == Err(Overflow)
    ensures AllDigits(b) && Value(b) > MAX
  {
    hide Accumulate, Wrap, Value, Pow10;
    assert b[..i + 1][..i] == b[..i];
    AccumulateExact(b[..i + 1]);
    LastDigit(b[..i + 1]);
    ValueBound(b[..i + 1]);
    PowersOfTen();
    if i + 1 <= 18 {
      PowGrows(i + 1, 18);
    }
    assert b[..|b|] == b;
  }

  lemma LastDigit(b: seq<Byte>)
    requires b != [] && |b| <= MAX_DIGITS && Accumulate(b[..|b| - 1]).Ok? && Accumulate(b) == Err(Overflow)
    ensures AllDigits(b)
  {
    hide Accumulate, Value;
    AccumulateExact(b[..|b| - 1]);
    OverflowNeedsDigit(b);
  }

  lemma OverflowNeedsDigit(b: seq<Byte>)
    requires b != [] && Accumulate(b[..|b| - 1]).Ok? && Accumulate(b) == Err(Overflow)
    ensures IsDigit(b[|b| - 1])
  {
    hide Wrap, Value;
  }

  /** Without the cap the test is not enough: after 19 digits that fit, a twentieth can wrap
      all the way round to a larger number, which is then taken for the sum. */
  lemma CapIsNeeded(b: seq<Byte>, c: Byte)
    requires |b| == MAX_DIGITS && AllDigits(b) && IsDigit(c)
    requires 2_049_638_230_412_172_402 <= Value(b) <= 2_767_011_611_056_432_741
    ensures AllDigits(b + [c]) && Value(b + [c]) > MAX
    ensures Accumulate(b + [c]) == Ok(Value(b + [c]) - TWO_64)
  {
    hide Wrap;
    AccumulateExact(b);
    assert (b + [c])[..|b|] == b;
    WrapsRound(Value(b), c as int - 48);
  }

  lemma WrapsRound(ns: int, d: int)
    requires 2_049_638_230_412_172_402 <= ns <= 2_767_011_611_056_432_741 && 0 <= d <= 9
    ensures Wrap(Wrap(ns * 10) + d) == ns * 10 + d - TWO_64 && ns * 10 + d - TWO_64 >= ns
  {
  }

  function Zeros(n: nat): seq<Byte> {
    seq(n, i => 48 as Byte)
  }

  lemma OneMoreZero(b: seq<Byte>, n: nat)
    requires n > 0 && AllDigits(b + Zeros(n - 1))
    ensures AllDigits(b + Zeros(n)) && Value(b + Zeros(n)) == 10 * Value(b + Zeros(n - 1))
  {
    assert (b + Zeros(n))[..|b| + n - 1] == b + Zeros(n - 1);
  }

  lemma {:induction false} TrailingZeros(b: seq<Byte>, n: nat)
    requires AllDigits(b) && Value(b) == 25
    ensures AllDigits(b + Zeros(n)) && Value(b + Zeros(n)) == 25 * Pow10(n)
  {
    if n == 0 {
      assert b + Zeros(0) == b;
    } else {
      hide Value;
      TrailingZeros(b, n - 1);
      OneMoreZero(b, n);
    }
  }

  /** Such digits exist: 2500000000000000000, and a further 0. */
  lemma CapMatters() returns (b: seq<Byte>)
    ensures |b| == 19 && AllDigits(b) && Value(b) == 2_500_000_000_000_000_000
    ensures Accumulate(b + [48]) == Ok(6_553_255_926_290_448_384)
  {
    hide Accumulate, Wrap;
    var two: seq<Byte> := [50, 53];
    assert two[..1] == [50] && [50][..0] == [] && Value([50]) == 2 && Value(two) == 25;
    TrailingZeros(two, 17);
    PowersOfTen();
    b := two + Zeros(17);
    CapIsNeeded(b, 48);
    assert (b + [48])[..|b|] == b && Value(b + [48]) == 25_000_000_000_000_000_000;
  }
}
