/** The arithmetic of real bounds, with products kept behind a name. */
module Reals {

  function Min(a: real, b: real): real {
    if a <= b then a else b
  }

  function Max(a: real, b: real): real {
    if a >= b then a else b
  }

  /** A product of two variables, named so that a proof can use its laws and not its body. */
  function Times(x: real, y: real): real {
    x * y
  }

  lemma TimesNonNegative(x: real, y: real)
    requires x >= 0.0 && y >= 0.0
    ensures Times(x, y) >= 0.0
  {
  }

  lemma TimesSum(x: real, y: real, z: real)
    ensures Times(x, y + z) == Times(x, y) + Times(x, z)
    ensures Times(y + z, x) == Times(y, x) + Times(z, x)
  {
  }

  lemma TimesOne(x: real)
    ensures Times(x, 1.0) == x && Times(x, 0.0) == 0.0 && Times(x, 1.0 / 3.0) == x / 3.0
  {
  }

  lemma TimesGrows(x: real, y: real, z: real)
    requires x >= 0.0 && y <= z
    ensures Times(x, y) <= Times(x, z)
  {
    hide Times;
    TimesNonNegative(x, z - y);
    TimesSum(x, y, z - y);
  }

  lemma TimesPositive(x: real, y: real)
    requires x > 0.0 && y > 0.0
    ensures Times(x, y) > 0.0
  {
  }
}
