/** Python's round(x, digits) on reals: to the nearest multiple of 1/unit, ties to the even one. */
module Rounding {

  function RoundTo(x: real, unit: nat): real
    requires unit > 0
  {
    RoundEven(x * unit as real) as real / unit as real
  }

  function RoundEven(x: real): int {
    var low := x.Floor;
    if x - low as real < 0.5 then low
    else if x - low as real > 0.5 then low + 1
    else if low % 2 == 0 then low
    else low + 1
  }

  // No integer is nearer, and of two that are as near it is the even one.
  lemma RoundEvenIsNearest(x: real, n: int)
    ensures -0.5 <= x - RoundEven(x) as real <= 0.5
    ensures (x - RoundEven(x) as real == 0.5 || x - RoundEven(x) as real == -0.5) ==> RoundEven(x) % 2 == 0
    ensures -0.5 < x - n as real < 0.5 ==> RoundEven(x) == n
  {
  }

  // An even number is exceeded once its upper half is.
  lemma ExceedsEven(x: real, n: int)
    requires n % 2 == 0
    ensures RoundEven(x) > n <==> x > n as real + 0.5
  {
  }

  lemma RoundEvenMonotone(x: real, y: real)
    requires x <= y
    ensures RoundEven(x) <= RoundEven(y)
  {
  }

  // Rounding to thousandths keeps order.
  lemma ThousandthsMonotone(x: real, y: real)
    requires x <= y
    ensures RoundTo(x, 1000) <= RoundTo(y, 1000)
  {
    RoundEvenMonotone(x * 1000.0, y * 1000.0);
  }
}
