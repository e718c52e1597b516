/**
 * The evaluation-domain facts the verifier consumes: a multiplicative subgroup of F_P
 * of a given size with a generator, evaluation of a polynomial given by coefficients
 * (`l1.evaluate`), and the value at a point of the polynomial interpolating given
 * values over the domain (`Evaluations::from_vec_and_domain(..).interpolate().evaluate`).
 * The FFT that the library uses for interpolation is not modelled: the interpolant is
 * evaluated directly with the Lagrange basis.
 */
module Evaluation {
  import opened Field

  datatype Domain = Domain(size: nat, groupGen: Fr)

  /** Value at x of the polynomial with coefficients `coeffs`, lowest degree first. */
  function Horner(coeffs: seq<Fr>, x: Fr): Fr
  {
    if coeffs == [] then 0 else Add(coeffs[0], Mul(x, Horner(coeffs[1..], x)))
  }

  /** The factor (x - w^j) / (w^i - w^j) of the i-th Lagrange basis polynomial (1 when j == i). */
  function LagrangeFactor(dom: Domain, i: nat, x: Fr, j: nat): Fr
  {
    if j == i then 1
    else Div(Sub(x, Pow(dom.groupGen, j)), Sub(Pow(dom.groupGen, i), Pow(dom.groupGen, j)))
  }

  /** Product of the first k factors of the i-th Lagrange basis polynomial at x. */
  function LagrangePartial(dom: Domain, i: nat, x: Fr, k: nat): Fr
  {
    if k == 0 then 1 else Mul(LagrangePartial(dom, i, x, k - 1), LagrangeFactor(dom, i, x, k - 1))
  }

  /** The i-th Lagrange basis polynomial of the domain, at x. */
  function Lagrange(dom: Domain, i: nat, x: Fr): Fr
  {
    LagrangePartial(dom, i, x, dom.size)
  }

  /** Value at x of the polynomial that takes values[i] at w^i. */
  function InterpolateAt(values: seq<Fr>, dom: Domain, x: Fr): Fr
  {
    if values == [] then 0
    else
      var k := |values| - 1;
      Add(InterpolateAt(values[..k], dom, x), Mul(values[k], Lagrange(dom, k, x)))
  }
}
