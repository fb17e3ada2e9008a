/** The arithmetic of the load averages: fixed-point powers, and n periods of decay at once.

    Errors are measured in reals.  Products are written with `Mul` where a proof is to treat them as mere
    terms; the laws it needs of them are stated one by one.
  */
module LoadDecay {

  const FSHIFT: nat := 11
  const FIXED_1: nat := 2048

  /** 1UL << bits. */
  function One(bits: nat): (r: nat)
    ensures r > 0 && (bits > 0 ==> r % 2 == 0)
  {
    if bits == 0 then 1 else 2 * One(bits - 1)
  }

  // ---------------------------------------------------------------- products

  ghost function Mul(x: real, y: real): real {
    x * y
  }

  function Times(a: nat, b: nat): (r: nat)
    ensures r as real == Mul(a as real, b as real)
  {
    a * b
  }

  lemma Positive(x: real, y: real)
    requires x >= 0.0 && y >= 0.0
    ensures Mul(x, y) >= 0.0
  {
  }

  lemma Commute(x: real, y: real)
    ensures Mul(x, y) == Mul(y, x)
  {
  }

  lemma Associate(x: real, y: real, z: real)
    ensures Mul(x, Mul(y, z)) == Mul(Mul(x, y), z)
  {
  }

  lemma Subtract(x: real, y: real, z: real)
    ensures Mul(x, y - z) == Mul(x, y) - Mul(x, z)
  {
  }

  lemma UnitProduct(a: real, b: real)
    requires 0.0 <= a <= 1.0 && 0.0 <= b <= 1.0
    ensures 0.0 <= Mul(a, b) <= 1.0
  {
    Positive(a, b);
    Positive(a, 1.0 - b);
    Subtract(a, 1.0, b);
  }

  lemma Cancel(a: real, b: real, p: real)
    requires p > 0.0 && Mul(a, p) <= Mul(b, p)
    ensures a <= b
  {
    assert a > b ==> (a - b) * p > 0.0;
  }

  ghost predicate Within(a: real, b: real, e: real) {
    -e <= a - b <= e
  }

  lemma Scale(u: real, t: real, e: real)
    requires 0.0 <= t <= 1.0 && -e <= u <= e
    ensures -e <= Mul(u, t) <= e
  {
    Positive(e - u, t);
    Positive(e + u, t);
    Positive(e, 1.0 - t);
  }

  /** x / s, for x up to s. */
  ghost function Fraction(x: nat, s: nat): (q: real)
    requires s > 0 && x <= s
    ensures 0.0 <= q <= 1.0 && Mul(s as real, q) == x as real
  {
    var q := x as real / s as real;
    assert Mul(q, s as real) == x as real;
    Cancel(0.0, q, s as real);
    Cancel(q, 1.0, s as real);
    q
  }

  // ---------------------------------------------------------------- rounding

  /** Add half a unit, then shift the fraction out. */
  function Round(num: nat, one: nat): nat
    requires one > 0
  {
    (num + one / 2) / one
  }

  /** Rounding is off by half a unit at most. */
  lemma RoundNear(num: nat, one: nat)
    requires one > 0 && one % 2 == 0
    ensures Within(Mul(Round(num, one) as real, one as real), num as real, one as real / 2.0)
  {
    Divide(num + one / 2, one);
    assert (Round(num, one) * one) as real == Mul(Round(num, one) as real, one as real);
  }

  lemma Divide(a: nat, b: nat)
    requires b > 0
    ensures a / b * b <= a < a / b * b + b
  {
  }

  lemma CancelNat(p: nat, a: int, b: int)
    requires p * a < p * b
    ensures a < b
  {
    assert a >= b ==> p * (a - b) >= 0;
  }

  lemma DivideBelow(num: nat, one: nat, bound: nat)
    requires one > 0 && num < bound * one
    ensures num / one < bound
  {
    Divide(num, one);
    CancelNat(one, num / one, bound);
  }

  lemma DivideExact(b: nat, one: nat, rest: nat)
    requires rest < one
    ensures (one * b + rest) / one == b
  {
    var d := (one * b + rest) / one;
    Divide(one * b + rest, one);
    assert one * (d + 1) == d * one + one && one * (b + 1) == one * b + one;
    CancelNat(one, b, d + 1);
    CancelNat(one, d, b + 1);
  }

  lemma RoundedProduct(a: nat, b: nat, one: nat)
    requires one > 0 && one % 2 == 0 && a <= one && b <= one
    ensures Round(Times(a, b), one) <= one && (a == one ==> Round(Times(a, b), one) == b)
  {
    assert (one - a) * one >= 0 && a * (one - b) >= 0;
    DivideBelow(a * b + one / 2, one, one + 1);
    if a == one {
      DivideExact(b, one, one / 2);
    }
  }

  // ---------------------------------------------------------------- powers

  ghost function Pow(q: real, n: nat): (r: real)
    ensures 0.0 <= q <= 1.0 ==> 0.0 <= r <= 1.0
  {
    if n == 0 then 1.0
    else
      var r := Pow(q, n - 1);
      if 0.0 <= q <= 1.0 then UnitProduct(r, q); Mul(r, q) else Mul(r, q)
  }

  lemma {:induction false} PowAdd(q: real, m: nat, n: nat)
    ensures Pow(q, m + n) == Mul(Pow(q, m), Pow(q, n))
  {
    if n > 0 {
      PowAdd(q, m, n - 1);
      hide Mul;
      assert Pow(q, m + n) == Mul(Pow(q, m + (n - 1)), q);
      Associate(Pow(q, m), Pow(q, n - 1), q);
    } else {
      assert Mul(Pow(q, m), 1.0) == Pow(q, m);
    }
  }

  /** The c-th power of q, in units of 1 / one. */
  ghost function Ideal(one: nat, q: real, c: nat): real {
    Mul(one as real, Pow(q, c))
  }

  /** `r` stands for the c-th power of q, with c - 1 roundings behind it. */
  ghost predicate Stands(r: nat, one: nat, q: real, c: nat) {
    r <= one && if c == 0 then r == one else Within(r as real, Ideal(one, q, c), (c - 1) as real / 2.0)
  }

  /** a * b, as what should be there and what the errors of the factors make of it. */
  lemma Expand(a: real, b: real, s: real, x: real, y: real)
    ensures Mul(a, b) - Mul(Mul(s, Mul(x, y)), s) == Mul(a - Mul(s, x), b) + Mul(Mul(b - Mul(s, y), x), s)
  {
  }

  lemma Distribute(a: real, b: real, p: real)
    ensures Mul(a + b, p) == Mul(a, p) + Mul(b, p)
  {
  }

  /** u * b, for b up to s. */
  lemma ScaleTo(u: real, b: real, s: real, e: real)
    requires s > 0.0 && 0.0 <= b <= s && -e <= u <= e
    ensures -Mul(e, s) <= Mul(u, b) <= Mul(e, s)
  {
    Positive(e - u, b);
    Positive(e + u, b);
    Positive(e, s - b);
  }

  lemma ScaleUp(w: real, s: real, e: real)
    requires s > 0.0 && -e <= w <= e
    ensures -Mul(e, s) <= Mul(w, s) <= Mul(e, s)
  {
    Positive(e - w, s);
    Positive(e + w, s);
  }

  lemma ProductError(r: real, a: real, b: real, s: real, x: real, y: real, ea: real, eb: real)
    requires s > 0.0 && 0.0 <= b <= s && 0.0 <= x <= 1.0
    requires Within(Mul(r, s), Mul(a, b), s / 2.0)
    requires Within(a, Mul(s, x), ea) && Within(b, Mul(s, y), eb)
    ensures Within(r, Mul(s, Mul(x, y)), ea + eb + 0.5)
  {
    assert Mul(0.5, s) == s / 2.0;
    hide Mul;
    var u, v := a - Mul(s, x), b - Mul(s, y);
    var ideal, e := Mul(s, Mul(x, y)), ea + eb + 0.5;
    Expand(a, b, s, x, y);
    ScaleTo(u, b, s, ea);
    Scale(v, x, eb);
    ScaleUp(Mul(v, x), s, eb);
    Distribute(ea, eb, s);
    Distribute(ea + eb, 0.5, s);
    Distribute(ideal, e, s);
    Cancel(r, ideal + e, s);
    Distribute(r, e, s);
    Cancel(ideal, r + e, s);
  }

  /** One multiplication of the loop adds the exponents and one more rounding. */
  lemma ProductStands(a: nat, b: nat, one: nat, q: real, c: nat, m: nat)
    requires one > 0 && one % 2 == 0 && 0.0 <= q <= 1.0 && m > 0
    requires Stands(a, one, q, c) && Stands(b, one, q, m)
    ensures Stands(Round(Times(a, b), one), one, q, c + m)
  {
    hide Round;
    hide Times;
    hide Mul;
    hide Pow;
    RoundedProduct(a, b, one);
    if c > 0 {
      RoundNear(Times(a, b), one);
      ProductError(Round(Times(a, b), one) as real, a as real, b as real, one as real, Pow(q, c), Pow(q, m),
                   (c - 1) as real / 2.0, (m - 1) as real / 2.0);
      PowAdd(q, c, m);
    }
  }

  /** What the loop of fixed_power_int still makes of result, base and exponent. */
  function Power(result: nat, x: nat, one: nat, n: nat): nat
    requires one > 0
    decreases n
  {
    if n == 0 then result
    else Power(if n % 2 == 1 then Round(Times(result, x), one) else result, Round(Times(x, x), one), one, n / 2)
  }

  function Bits(n: nat): nat {
    if n == 0 then 0 else 1 + Bits(n / 2)
  }

  /** fixed_power_int, in one round of the loop for each bit of n. */
  method FixedPowerInt(x0: nat, fracBits: nat, n0: nat) returns (result: nat, ghost rounds: nat)
    requires fracBits > 0
    ensures result == Power(One(fracBits), x0, One(fracBits), n0)
    ensures rounds == Bits(n0)
  {
    var x, n := x0, n0;
    var one := One(fracBits);
    result, rounds := one, 0;
    if n != 0 {
      while true
        invariant n > 0 && rounds + Bits(n) == Bits(n0)
        invariant Power(result, x, one, n) == Power(one, x0, one, n0)
        decreases n
      {
        rounds := rounds + 1;
        if n % 2 == 1 {
          result := Times(result, x);
          result := result + one / 2;
          result := result / one;
        }
        n := n / 2;
        if n == 0 {
          break;
        }
        x := Times(x, x);
        x := x + one / 2;
        x := x / one;
      }
    }
  }

  /** The roundings of the loop: result and base keep standing for powers of q. */
  lemma {:induction false} PowerStands(result: nat, x: nat, one: nat, q: real, c: nat, m: nat, n: nat)
    requires one > 0 && one % 2 == 0 && 0.0 <= q <= 1.0 && m > 0
    requires Stands(result, one, q, c) && Stands(x, one, q, m)
    ensures Stands(Power(result, x, one, n), one, q, c + Times(m, n))
    decreases n
  {
    hide Stands;
    hide Round;
    hide Times;
    TimesHalf(m, n);
    if n > 0 {
      ProductStands(x, x, one, q, m, m);
      if n % 2 == 1 {
        ProductStands(result, x, one, q, c, m);
        PowerStands(Round(Times(result, x), one), Round(Times(x, x), one), one, q, c + m, 2 * m, n / 2);
      } else {
        PowerStands(result, Round(Times(x, x), one), one, q, c, 2 * m, n / 2);
      }
    }
  }

  lemma TimesHalf(m: nat, n: nat)
    ensures n == 0 ==> Times(m, n) == 0
    ensures n > 0 ==> Times(m, n) == Times(2 * m, n / 2) + if n % 2 == 1 then m else 0
    ensures Times(1, n) == n
  {
    if n > 0 {
      var h, b := n / 2, n % 2;
      assert n == 2 * h + b;
      assert m * n == m * (2 * h) + m * b;
      assert m * (2 * h) == 2 * m * h;
    }
  }

  lemma FirstPower(x: nat, s: nat)
    requires s > 0 && x <= s
    ensures Stands(x, s, Fraction(x, s), 1) && Stands(s, s, Fraction(x, s), 0)
  {
    var q := Fraction(x, s);
    assert Pow(q, 1) == Mul(Pow(q, 0), q) == q;
  }

  /** fixed_power_int is off the true power by half a unit for each of the n - 1 multiplications it stands
      for, and never exceeds one. */
  lemma {:induction false} PowerNear(x: nat, bits: nat, n: nat)
    requires bits > 0 && x <= One(bits) && n > 0
    ensures var s := One(bits);
            && Power(s, x, s, n) <= s
            && Within(Power(s, x, s, n) as real, Ideal(s, Fraction(x, s), n), (n - 1) as real / 2.0)
  {
    hide One;
    hide Ideal;
    hide Power;
    hide Fraction;
    hide Times;
    var s := One(bits);
    FirstPower(x, s);
    PowerStands(s, x, s, Fraction(x, s), 0, 1, n);
    TimesHalf(1, n);
  }

  /** In the original's own terms: the true power is x^n / s^(n - 1). */
  lemma {:induction false} IdealIsQuotient(x: nat, s: nat, n: nat)
    requires s > 0 && x <= s && n > 0
    ensures Mul(Ideal(s, Fraction(x, s), n), Pow(s as real, n - 1)) == Pow(x as real, n)
  {
    hide Fraction;
    var q := Fraction(x, s);
    if n == 1 {
      assert Pow(q, 1) == Mul(Pow(q, 0), q) == q;
      assert Pow(x as real, 1) == Mul(Pow(x as real, 0), x as real) == x as real;
    } else {
      IdealIsQuotient(x, s, n - 1);
      Regroup(s as real, Pow(q, n - 1), Pow(s as real, n - 2), q);
    }
  }

  lemma Regroup(s: real, p: real, r: real, q: real)
    ensures Mul(Mul(s, Mul(p, q)), Mul(r, s)) == Mul(Mul(Mul(s, p), r), Mul(s, q))
  {
  }

  // ---------------------------------------------------------------- decay

  /** calc_load. */
  function CalcLoad(load: nat, exp: nat, active: nat): nat
    requires exp <= FIXED_1
  {
    Round(Times(load, exp) + Times(active, FIXED_1 - exp), FIXED_1)
  }

  /** n periods one after the other. */
  function Iterate(load: nat, exp: nat, active: nat, n: nat): nat
    requires exp <= FIXED_1
  {
    if n == 0 then load else CalcLoad(Iterate(load, exp, active, n - 1), exp, active)
  }

  function CalcLoadN(load: nat, exp: nat, active: nat, n: nat): nat
    requires exp <= FIXED_1
  {
    PowerBelow(exp, n);
    CalcLoad(load, Power(FIXED_1, exp, FIXED_1, n), active)
  }

  lemma FixedOne()
    ensures One(FSHIFT) == FIXED_1
  {
    assert One(4) == 16 && One(8) == 16 * One(4) && One(11) == 8 * One(8);
  }

  lemma {:induction false} PowerBelow(x: nat, n: nat)
    requires x <= FIXED_1
    ensures Power(FIXED_1, x, FIXED_1, n) <= FIXED_1
  {
    FixedOne();
    if n > 0 {
      PowerNear(x, FSHIFT, n);
    }
  }

  /** calc_load_n. */
  method CalcLoadNow(load: nat, exp: nat, active: nat, n: nat) returns (r: nat)
    requires exp <= FIXED_1
    ensures r == CalcLoadN(load, exp, active, n)
  {
    FixedOne();
    PowerBelow(exp, n);
    var e, _ := FixedPowerInt(exp, FSHIFT, n);
    r := CalcLoad(load, e, active);
  }

  /** The load, mixed with the active count in the proportion t. */
  ghost function Mix(load: real, active: real, t: real): real {
    active + Mul(load - active, t)
  }

  lemma MixOf(l: real, a: real, e: real, s: real, t: real)
    requires Mul(s, t) == e
    ensures Mul(l, e) + Mul(a, s - e) == Mul(Mix(l, a, t), s)
  {
    assert Mul(l, e) == l * (s * t) && Mul(a, s - e) == a * s - a * (s * t);
    assert Mul(Mix(l, a, t), s) == a * s + ((l - a) * t) * s;
    assert ((l - a) * t) * s == (l - a) * (s * t);
    assert (l - a) * (s * t) == l * (s * t) - a * (s * t);
  }

  lemma Unscale(r: real, m: real, s: real)
    requires s > 0.0 && Within(Mul(r, s), Mul(m, s), s / 2.0)
    ensures Within(r, m, 0.5)
  {
    assert Mul(0.5, s) == s / 2.0;
    hide Mul;
    Distribute(m, 0.5, s);
    Cancel(r, m + 0.5, s);
    Distribute(r, 0.5, s);
    Cancel(m, r + 0.5, s);
  }

  /** calc_load rounds the mixture. */
  lemma CalcLoadNear(load: nat, exp: nat, active: nat)
    requires exp <= FIXED_1
    ensures Within(CalcLoad(load, exp, active) as real,
                   Mix(load as real, active as real, Fraction(exp, FIXED_1)), 0.5)
  {
    hide Round;
    hide Times;
    hide Mix;
    hide Mul;
    hide Fraction;
    RoundNear(Times(load, exp) + Times(active, FIXED_1 - exp), FIXED_1);
    MixOf(load as real, active as real, exp as real, FIXED_1 as real, Fraction(exp, FIXED_1));
    Unscale(CalcLoad(load, exp, active) as real, Mix(load as real, active as real, Fraction(exp, FIXED_1)),
            FIXED_1 as real);
  }

  /** The load after n periods of true decay. */
  ghost function Decayed(load: nat, exp: nat, active: nat, n: nat): real
    requires exp <= FIXED_1
  {
    Mix(load as real, active as real, Pow(Fraction(exp, FIXED_1), n))
  }

  lemma MixStep(x: real, ideal: real, l: real, a: real, p: real, q: real, e: real)
    requires ideal == Mix(l, a, p) && 0.0 <= q <= 1.0 && Within(x, ideal, e)
    ensures Within(Mix(x, a, q), Mix(l, a, Mul(p, q)), e)
  {
    assert Mul(x - a, q) - Mul(ideal - a, q) == Mul(x - ideal, q);
    hide Mul;
    Associate(l - a, p, q);
    Scale(x - ideal, q, e);
  }

  /** Each period adds half a unit of error. */
  lemma {:induction false} IterateNear(load: nat, exp: nat, active: nat, n: nat)
    requires exp <= FIXED_1
    ensures Within(Iterate(load, exp, active, n) as real, Decayed(load, exp, active, n), n as real / 2.0)
  {
    var q, l, a := Fraction(exp, FIXED_1), load as real, active as real;
    if n > 0 {
      hide Mix;
      hide Mul;
      hide Fraction;
      hide CalcLoad;
      var x := Iterate(load, exp, active, n - 1);
      IterateNear(load, exp, active, n - 1);
      CalcLoadNear(x, exp, active);
      MixStep(x as real, Decayed(load, exp, active, n - 1), l, a, Pow(q, n - 1), q, (n - 1) as real / 2.0);
    } else {
      assert Mul(l - a, 1.0) == l - a;
    }
  }

  ghost function Abs(x: real): real {
    if x < 0.0 then -x else x
  }

  lemma ScaleBoth(v: real, d: real, e: real)
    requires -e <= v <= e
    ensures -Mul(Abs(d), e) <= Mul(d, v) <= Mul(Abs(d), e)
  {
    if d >= 0.0 {
      Positive(d, e - v);
      Positive(d, e + v);
    } else {
      Positive(-d, e - v);
      Positive(-d, e + v);
    }
  }

  lemma Shrink(t: real, p: real, s: real, k: real)
    requires s > 0.0 && Within(Mul(s, t), Mul(s, p), Mul(k, s))
    ensures Within(t, p, k)
  {
    hide Mul;
    Commute(s, t);
    Commute(s, p);
    Distribute(p, k, s);
    Cancel(t, p + k, s);
    Distribute(t, k, s);
    Cancel(p, t + k, s);
  }

  /** How far a power that is k half units off moves the mixture. */
  lemma PowerError(load: nat, e: nat, active: nat, p: real, k: real)
    requires e <= FIXED_1 && Within(e as real, Mul(FIXED_1 as real, p), k / 2.0)
    ensures Within(Mix(load as real, active as real, Fraction(e, FIXED_1)), Mix(load as real, active as real, p),
                   Mul(Abs(load as real - active as real), k) / 4096.0)
  {
    var l, a := load as real, active as real;
    var t, d := Fraction(e, FIXED_1), Abs(l - a);
    assert Mul(k / 4096.0, FIXED_1 as real) == k / 2.0;
    assert Mul(d, k / 4096.0) == Mul(d, k) / 4096.0;
    hide Mul;
    hide Fraction;
    hide Abs;
    Shrink(t, p, FIXED_1 as real, k / 4096.0);
    Subtract(l - a, t, p);
    ScaleBoth(t - p, l - a, k / 4096.0);
  }

  /** The fast form is near the true decay: one rounding, and what the power is off. */
  lemma {:induction false} FastNear(load: nat, exp: nat, active: nat, n: nat)
    requires exp <= FIXED_1 && n > 0
    ensures Within(CalcLoadN(load, exp, active, n) as real, Decayed(load, exp, active, n),
                   0.5 + Mul(Abs(load as real - active as real), (n - 1) as real) / 4096.0)
  {
    FixedOne();
    PowerBelow(exp, n);
    PowerNear(exp, FSHIFT, n);
    hide Mul;
    hide Power;
    hide Fraction;
    hide Pow;
    hide CalcLoad;
    hide Mix;
    hide Abs;
    var e, q := Power(FIXED_1, exp, FIXED_1, n), Fraction(exp, FIXED_1);
    CalcLoadNear(load, e, active);
    PowerError(load, e, active, Pow(q, n), (n - 1) as real);
  }

  /** n periods of decay at once differ from n periods one by one by at most
      (n + 1) / 2 + (n - 1) * |load - active| / 4096. */
  lemma {:induction false} FastMeetsSlow(load: nat, exp: nat, active: nat, n: nat)
    requires exp <= FIXED_1 && n > 0
    ensures Within(CalcLoadN(load, exp, active, n) as real, Iterate(load, exp, active, n) as real,
                   (n + 1) as real / 2.0 + Mul(Abs(load as real - active as real), (n - 1) as real) / 4096.0)
  {
    hide CalcLoadN;
    hide Iterate;
    hide Decayed;
    hide Abs;
    hide Mul;
    FastNear(load, exp, active, n);
    IterateNear(load, exp, active, n);
  }
}
