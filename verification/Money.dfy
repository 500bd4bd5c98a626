/**
 * Amounts in hundredths, and the one rounding rule the billing code uses:
 * two decimals, halves away from zero (all amounts here are non-negative).
 */
module Money {

  /** num/den rounded to the nearest whole number, ties upwards. */
  function HalfUp(num: nat, den: nat): (r: nat)
    requires den > 0
    ensures 2 * den * r <= 2 * num + den < 2 * den * r + 2 * den
  {
    var a, b := 2 * num + den, 2 * den;
    assert a == b * (a / b) + a % b;
    a / b
  }

  /** Exactly when the rounded quotient stays at or below a whole number k. */
  lemma HalfUpAtMost(num: nat, den: nat, k: nat)
    requires den > 0
    ensures HalfUp(num, den) <= k <==> 2 * num < 2 * (den * k) + den
  {
    var r := HalfUp(num, den);
    Regroup(den, r);
    Next(den, k);
    if r <= k {
      MulAtMost(r, k, den);
    } else {
      MulAtMost(k + 1, r, den);
    }
  }

  lemma Regroup(den: nat, r: nat)
    ensures 2 * den * r == 2 * (den * r)
  {
  }

  lemma Next(den: nat, k: nat)
    ensures den * (k + 1) == den * k + den
  {
  }

  lemma MulAtMost(a: int, b: int, k: nat)
    requires a <= b
    ensures a * k <= b * k && k * a <= k * b
  {
  }

  lemma Cancel(w: nat, y: int)
    requires 2 * (w * y) < w
    ensures y <= 0
  {
    assert y >= 1 ==> w * y >= w * 1;
  }

  lemma Distribute(a: int, b: int, c: int)
    ensures a * (b + c) == a * b + a * c && a * (b - c) == a * b - a * c
  {
  }

  /** Rounding the quotient up or down never leaves more of `rest` than of `whole`. */
  lemma ProRataLeft(rest: nat, part: nat, whole: nat, share: nat)
    requires 0 < whole && part <= whole && rest <= whole
    requires 2 * (rest * part) + whole < 2 * (whole * share) + 2 * whole
    ensures rest - share <= whole - part
  {
    var left := whole - part;
    Distribute(rest, part, left);
    Commute(rest, whole);
    MulAtMost(rest, whole, left);
    Distribute(whole, rest, left + share);
    Distribute(whole, left, share);
    LeftInFigures(whole, rest * part, rest * left, whole * rest, whole * left, whole * share,
                  whole * (rest - (left + share)));
    Cancel(whole, rest - (left + share));
  }

  lemma Commute(a: int, b: int)
    ensures a * b == b * a
  {
  }

  /** The same with every product a number of its own. */
  lemma LeftInFigures(w: int, rp: int, rl: int, wr: int, wl: int, ws: int, wy: int)
    requires rp + rl == wr && rl <= wl && wy == wr - (wl + ws) && 2 * rp + w < 2 * ws + 2 * w
    ensures 2 * wy < w
  {
  }

  /**
   * A pro-rata share of `rest` for `part` out of `whole` never exceeds `rest`, never exceeds
   * `part` when `rest <= whole`, and what is left of `rest` never exceeds what is left of `whole`.
   */
  lemma ProRataShare(rest: nat, part: nat, whole: nat)
    requires 0 < whole && part <= whole
    ensures HalfUp(rest * part, whole) <= rest
    ensures rest <= whole ==> HalfUp(rest * part, whole) <= part
    ensures rest <= whole ==> rest - HalfUp(rest * part, whole) <= whole - part
  {
    var n := rest * part;
    MulAtMost(part, whole, rest);
    Commute(whole, rest);
    HalfUpAtMost(n, whole, rest);
    if rest <= whole {
      MulAtMost(rest, whole, part);
      HalfUpAtMost(n, whole, part);
      ShareLeft(n, rest, part, whole);
    }
  }

  lemma ShareLeft(n: nat, rest: nat, part: nat, whole: nat)
    requires 0 < whole && part <= whole && rest <= whole && n == rest * part
    ensures rest - HalfUp(n, whole) <= whole - part
  {
    var share := HalfUp(n, whole);
    assert 2 * whole * share == 2 * (whole * share);
    ProRataLeft(rest, part, whole, share);
  }

  /**
   * The exact condition under which a share may exceed what is left of the discount:
   * more is being paid than the remainder the share is computed against.
   */
  lemma ShareWithin(rest: nat, part: nat, whole: nat)
    requires 0 < whole
    ensures HalfUp(rest * part, whole) <= rest <==> 2 * (rest * (part - whole)) < whole
  {
    HalfUpAtMost(rest * part, whole, rest);
    assert rest * (part - whole) == rest * part - rest * whole;
    assert whole * rest == rest * whole;
  }
}
