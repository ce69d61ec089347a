/**
 * Temperature arithmetic: Python's built-in round() and the Celsius to
 * Fahrenheit conversion `round(c * 9/5 + 32)`, applied to the already
 * rounded integer Celsius reading.
 */
module Conversion {

  /** Python's round(x) with no digits: the nearest integer, a tie going to the even one. */
  function RoundHalfEven(x: real): (r: int)
    ensures -0.5 <= x - r as real <= 0.5
    ensures (x - r as real == 0.5 || r as real - x == 0.5) ==> r % 2 == 0
  {
    var below := x.Floor;
    var frac := x - below as real;
    if frac < 0.5 then below
    else if frac > 0.5 then below + 1
    else if below % 2 == 0 then below
    else below + 1
  }

  /** An integer closer than one half to x is what round(x) returns. */
  lemma RoundNearest(x: real, k: int)
    requires -0.5 < x - k as real < 0.5
    ensures RoundHalfEven(x) == k
  {
  }

  /** `round(c * 9/5 + 32)`: the integer Fahrenheit value shown for c degrees Celsius. */
  function Fahrenheit(c: int): (f: int)
    ensures -2 <= 5 * f - (9 * c + 160) <= 2
  {
    var x := c as real * 9.0 / 5.0 + 32.0;
    var f := RoundHalfEven(x);
    assert 5.0 * x == (9 * c + 160) as real;
    f
  }

  /** 9c/5 + 32 is never halfway between two integers, so the tie rule of round() never applies. */
  lemma FahrenheitNeverTie(c: int)
    ensures var x := c as real * 9.0 / 5.0 + 32.0; x - x.Floor as real != 0.5
  {
  }

  /** The conversion agrees with the integer-only reference floor((9c + 162) / 5). */
  lemma FahrenheitByIntegers(c: int)
    ensures Fahrenheit(c) == (9 * c + 162) / 5
  {
  }

  /** f is the only integer within 2/5 of 9c/5 + 32. */
  lemma FahrenheitUnique(c: int, g: int)
    requires -2 <= 5 * g - (9 * c + 160) <= 2
    ensures g == Fahrenheit(c)
  {
    var f := Fahrenheit(c);
    assert -4 <= 5 * (f - g) <= 4;
  }

  /** A warmer Celsius reading never shows a colder Fahrenheit one. */
  lemma FahrenheitMonotone(c: int, d: int)
    requires c <= d
    ensures Fahrenheit(c) <= Fahrenheit(d)
  {
  }

  /** The reference values: freezing, boiling, the crossover point, and 21 degrees. */
  lemma FahrenheitExamples()
    ensures Fahrenheit(0) == 32 && Fahrenheit(100) == 212 && Fahrenheit(-40) == -40 && Fahrenheit(21) == 70
  {
  }
}
