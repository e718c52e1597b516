/**
 * Points of G1 modelled "in the exponent": a point is represented by its discrete
 * logarithm to a fixed generator, so the group law is addition in F_P and a
 * multi-scalar multiplication is a linear combination of logarithms. Curve
 * arithmetic itself is not part of this model.
 */
module Curve {
  import opened Field

  datatype G1 = G1(dlog: Fr)

  const Identity: G1 := G1(0)

  function Plus(p: G1, q: G1): G1 { G1(Add(p.dlog, q.dlog)) }

  function Scale(s: Fr, p: G1): G1 { G1(Mul(s, p.dlog)) }

  /** `VariableBaseMSM::multi_scalar_mul`: the sum of scalars[i] * points[i]. */
  function Msm(points: seq<G1>, scalars: seq<Fr>): G1
    requires |points| == |scalars|
  {
    if points == [] then Identity
    else Plus(Scale(scalars[0], points[0]), Msm(points[1..], scalars[1..]))
  }

  /** A multi-scalar multiplication splits over a concatenation of its inputs. */
  lemma {:induction false} MsmConcat(ps: seq<G1>, ss: seq<Fr>, qs: seq<G1>, ts: seq<Fr>)
    requires |ps| == |ss| && |qs| == |ts|
    ensures Msm(ps + qs, ss + ts) == Plus(Msm(ps, ss), Msm(qs, ts))
    decreases |ps|
  {
    if ps == [] {
      assert ps + qs == qs && ss + ts == ts;
    } else {
      assert (ps + qs)[1..] == ps[1..] + qs;
      assert (ss + ts)[1..] == ss[1..] + ts;
      MsmConcat(ps[1..], ss[1..], qs, ts);
      AddAssoc(Mul(ss[0], ps[0].dlog), Msm(ps[1..], ss[1..]).dlog, Msm(qs, ts).dlog);
    }
  }

  /** Peeling off the first term of a multi-scalar multiplication. */
  lemma MsmCons(p: G1, s: Fr, ps: seq<G1>, ss: seq<Fr>)
    requires |ps| == |ss|
    ensures Msm([p] + ps, [s] + ss) == Plus(Scale(s, p), Msm(ps, ss))
  {
    assert ([p] + ps)[1..] == ps;
    assert ([s] + ss)[1..] == ss;
  }

  /** A single term: scalar times point. */
  lemma MsmSingle(p: G1, s: Fr)
    ensures Msm([p], [s]) == Scale(s, p)
  {
    assert [p][1..] == [] && [s][1..] == [];
  }
}
