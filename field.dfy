/** Small failure-compatible wrappers used by the verifier and the index assembler. */
module Results {
  datatype Option<T> = None | Some(value: T)

  datatype Result<T, E> = Ok(value: T) | Err(error: E)
}

/**
 * The scalar field F_P of the pairing engine. The verifier is generic over the engine;
 * the model fixes one prime modulus, the scalar-field order of BLS12-381, as a concrete
 * representative. Elements are the canonical representatives 0 <= x < P.
 *
 * Division is multiplication by an inverse computed with the extended Euclidean
 * algorithm. That every non-zero element has an inverse rests on P being prime, which
 * Dafny cannot check for a 255-bit number: lemmas that need it take IsPrime(P) as a
 * hypothesis.
 */
module Field {
  const P: int := 0x73eda753299d7d483339d80809a1d80553bda402fffe5bfeffffffff00000001

  type Fr = x: int | 0 <= x < P

  function Add(a: Fr, b: Fr): Fr { (a + b) % P }

  function Sub(a: Fr, b: Fr): Fr { (a - b) % P }

  function Mul(a: Fr, b: Fr): Fr { (a * b) % P }

  /** x^k, by repeated multiplication (the source's `pow` with a one-limb exponent). */
  function Pow(x: Fr, k: nat): Fr
  {
    if k == 0 then 1 else Mul(x, Pow(x, k - 1))
  }

  /** d divides n */
  predicate Divides(d: int, n: int)
  {
    d > 0 && n % d == 0
  }

  ghost predicate IsPrime(n: int)
  {
    n > 1 && forall d :: 1 < d < n ==> !Divides(d, n)
  }

  /**
   * Extended Euclid: the greatest common divisor g of a and b together with
   * Bezout coefficients s and t, as the triple (g, s, t).
   */
  function ExtGcd(a: nat, b: nat): (int, int, int)
    decreases b
  {
    if b == 0 then
      (a, 1, 0)
    else
      var (g, s, t) := ExtGcd(b, a % b);
      (g, t, s - (a / b) * t)
  }

  /** The triple of ExtGcd satisfies Bezout's identity a*s + b*t == g, and g divides a and b. */
  lemma {:induction false} ExtGcdBezout(a: nat, b: nat)
    requires a > 0 || b > 0
    ensures var (g, s, t) := ExtGcd(a, b);
      a * s + b * t == g && Divides(g, a) && Divides(g, b)
    decreases b
  {
    if b == 0 {
      assert a % a == 0;
    } else {
      ExtGcdBezout(b, a % b);
      var (g, s, t) := ExtGcd(b, a % b);
      ExtGcdStep(a, b, g, s, t);
    }
  }

  /** One Euclidean step carries the Bezout identity and the common divisor back up. */
  lemma ExtGcdStep(a: nat, b: nat, g: int, s: int, t: int)
    requires b > 0
    requires b * s + (a % b) * t == g
    requires Divides(g, b) && Divides(g, a % b)
    ensures a * t + b * (s - (a / b) * t) == g
    ensures Divides(g, a)
  {
    var q, m := a / b, a % b;
    assert a == q * b + m;
    BezoutStep(a, b, q, m, g, s, t);
    DividesCombination(g, b, m, q);
  }

  lemma BezoutStep(a: int, b: int, q: int, m: int, g: int, s: int, t: int)
    requires a == q * b + m
    requires b * s + m * t == g
    ensures a * t + b * (s - q * t) == g
  {
    calc {
      a * t + b * (s - q * t);
      (q * b + m) * t + b * s - b * (q * t);
      { assert (q * b) * t == b * (q * t); }
      m * t + b * s;
    }
  }

  /** A common divisor of b and m divides q*b + m. */
  lemma DividesCombination(g: int, b: int, m: int, q: int)
    requires Divides(g, b) && Divides(g, m)
    ensures Divides(g, q * b + m)
  {
    var kb, km := b / g, m / g;
    assert b == g * kb;
    assert m == g * km;
    assert q * b + m == g * (q * kb + km) by {
      assert q * (g * kb) == g * (q * kb);
    }
    MultipleMod(g, q * kb + km);
  }

  lemma MultipleMod(g: int, k: int)
    requires g > 0
    ensures (g * k) % g == 0
  {
    var x := g * k;
    var q, r := x / g, x % g;
    var e := k - q;
    assert x == g * q + r && 0 <= r < g;
    assert g * e == r by {
      assert g * k - g * q == g * (k - q);
    }
    if e > 0 {
      MulAtLeast(g, e);
    } else if e < 0 {
      MulAtLeast(g, -e);
    }
  }

  lemma MulAtLeast(g: int, e: int)
    requires g > 0 && e > 0
    ensures g * e >= g
  {
    assert g * e == g * (e - 1) + g;
  }

  /** A positive divisor of a positive number is at most that number. */
  lemma DivisorBound(d: int, n: int)
    requires n > 0 && Divides(d, n)
    ensures d <= n
  {
  }

  /** Multiplicative inverse; Inv(0) is 0, a value no lemma relies on. */
  function Inv(x: Fr): Fr
  {
    var (g, s, t) := ExtGcd(x, P);
    s % P
  }

  /** Field division as the source writes it with `/`. */
  function Div(a: Fr, b: Fr): Fr
  {
    Mul(a, Inv(b))
  }

  lemma ModAddMultiple(a: int, k: int)
    ensures (a + k * P) % P == a % P
  {
  }

  lemma ModSmall(x: int)
    requires 0 <= x < P
    ensures x % P == x
  {
  }

  /** Distinct elements have a non-zero difference. */
  lemma SubNonZero(a: Fr, b: Fr)
    requires a != b
    ensures Sub(a, b) != 0
  {
  }

  lemma ModAddLeft(x: int, y: int)
    ensures ((x % P) + y) % P == (x + y) % P
  {
    var q := x / P;
    assert x == q * P + x % P;
    ModAddMultiple((x % P) + y, q);
  }

  lemma AddAssoc(a: Fr, b: Fr, c: Fr)
    ensures Add(Add(a, b), c) == Add(a, Add(b, c))
  {
    calc {
      Add(Add(a, b), c);
      ((a + b) % P + c) % P;
      { ModAddLeft(a + b, c); }
      (a + b + c) % P;
      { ModAddLeft(b + c, a); }
      ((b + c) % P + a) % P;
      Add(a, Add(b, c));
    }
  }

  lemma ModMulLeft(x: int, y: int)
    ensures ((x % P) * y) % P == (x * y) % P
  {
    var q := x / P;
    assert x == q * P + x % P;
    assert x * y == (x % P) * y + (q * y) * P by {
      assert (q * P + x % P) * y == (x % P) * y + (q * y) * P;
    }
    ModAddMultiple((x % P) * y, q * y);
  }

  lemma ModMulRight(x: int, y: int)
    ensures (x * (y % P)) % P == (x * y) % P
  {
    ModMulLeft(y, x);
    assert x * (y % P) == (y % P) * x;
    assert x * y == y * x;
  }

  lemma MulAssoc(a: Fr, b: Fr, c: Fr)
    ensures Mul(Mul(a, b), c) == Mul(a, Mul(b, c))
  {
    ModMulLeft(a * b, c);
    ModMulRight(a, b * c);
    assert (a * b) * c == a * (b * c);
  }

  lemma Units(a: Fr)
    ensures Add(a, 0) == a && Add(0, a) == a
    ensures Mul(1, a) == a && Mul(a, 1) == a
    ensures Mul(0, a) == 0 && Mul(a, 0) == 0
  {
  }

  lemma MulComm(a: Fr, b: Fr)
    ensures Mul(a, b) == Mul(b, a)
  {
    assert a * b == b * a;
  }

  /** In a prime field, a non-zero x and Inv(x) multiply to one. */
  lemma {:induction false} InvIsInverse(x: Fr)
    requires IsPrime(P)
    requires x != 0
    ensures Mul(x, Inv(x)) == 1
  {
    ExtGcdBezout(x, P);
    var (g, s, t) := ExtGcd(x, P);
    DivisorBound(g, x);
    assert g == 1;
    assert x * s + P * t == 1;
    ModMulRight(x, s);
    assert x * s == 1 + (-t) * P;
    ModAddMultiple(1, -t);
  }

  /** Dividing by a non-zero d and multiplying back by d gives the dividend. */
  lemma {:induction false} DivMulCancel(a: Fr, d: Fr)
    requires IsPrime(P)
    requires d != 0
    ensures Mul(Div(a, d), d) == a
  {
    var i := Inv(d);
    calc {
      Mul(Div(a, d), d);
      Mul(Mul(a, i), d);
      { MulAssoc(a, i, d); }
      Mul(a, Mul(i, d));
      { MulComm(i, d); InvIsInverse(d); }
      Mul(a, 1);
      { Units(a); }
      a;
    }
  }

  /** Multiplying by a non-zero d and dividing by d again gives the original value. */
  lemma {:induction false} DivOfMul(x: Fr, d: Fr)
    requires IsPrime(P)
    requires d != 0
    ensures Div(Mul(x, d), d) == x
  {
    var i := Inv(d);
    calc {
      Div(Mul(x, d), d);
      Mul(Mul(x, d), i);
      { MulAssoc(x, d, i); }
      Mul(x, Mul(d, i));
      { InvIsInverse(d); }
      Mul(x, 1);
      { Units(x); }
      x;
    }
  }

  lemma {:induction false} PowAdd(x: Fr, a: nat, b: nat)
    ensures Pow(x, a + b) == Mul(Pow(x, a), Pow(x, b))
    decreases a
  {
    if a == 0 {
      assert Mul(1, Pow(x, b)) == Pow(x, b);
    } else {
      calc {
        Pow(x, a + b);
        Mul(x, Pow(x, (a - 1) + b));
        { PowAdd(x, a - 1, b); }
        Mul(x, Mul(Pow(x, a - 1), Pow(x, b)));
        { MulAssoc(x, Pow(x, a - 1), Pow(x, b)); }
        Mul(Mul(x, Pow(x, a - 1)), Pow(x, b));
        Mul(Pow(x, a), Pow(x, b));
      }
    }
  }

  /** (x^a)^b == x^(a*b) */
  lemma {:induction false} PowMul(x: Fr, a: nat, b: nat)
    ensures Pow(Pow(x, a), b) == Pow(x, a * b)
    decreases b
  {
    if b != 0 {
      calc {
        Pow(Pow(x, a), b);
        Mul(Pow(x, a), Pow(Pow(x, a), b - 1));
        { PowMul(x, a, b - 1); }
        Mul(Pow(x, a), Pow(x, a * (b - 1)));
        { PowAdd(x, a, a * (b - 1)); }
        Pow(x, a + a * (b - 1));
        { assert a + a * (b - 1) == a * b; }
        Pow(x, a * b);
      }
    }
  }
}
