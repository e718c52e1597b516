/**
 * The polynomial-commitment side of the verifier: the opening obligations it builds
 * and the batched check `urs.verify(&batch, rng)` that consumes them.
 *
 * The check is modelled in the exponent. A commitment to f is the point whose
 * logarithm is f(tau) for the reference string's secret tau, so the pairing equation
 * of one entry becomes a field equation:
 *
 *     sum_k v^k * (C_k - y_k)  ==  pi * (tau - zeta)
 *
 * and the batched check weighs the residual of every entry with an independent
 * random scalar drawn from the caller's randomness source and accepts when the
 * weighted sum vanishes. Pairings and curve arithmetic are not part of this model.
 */
module Commitment {
  import opened Results
  import opened Field
  import opened Curve

  /** The reference string, represented by its secret evaluation point. */
  datatype Urs = Urs(tau: Fr)

  /** A shifted commitment with its degree bound (the optional third component). */
  datatype ShiftedComm = ShiftedComm(comm: G1, degreeBound: nat)

  /** (commitment, claimed evaluation, optional degree bound) */
  datatype Opening = Opening(comm: G1, eval: Fr, bound: Option<ShiftedComm>)

  /** (evaluation point, combination challenge v, openings, opening proof) */
  datatype BatchEntry = BatchEntry(point: Fr, challenge: Fr, openings: seq<Opening>, proof: G1)

  /** sum over k of v^k * (C_k - y_k), by Horner's rule in v. */
  function Combined(openings: seq<Opening>, v: Fr): Fr
  {
    if openings == [] then 0
    else Add(Sub(openings[0].comm.dlog, openings[0].eval), Mul(v, Combined(openings[1..], v)))
  }

  /** How far one entry is from satisfying its opening equation. */
  function Residual(urs: Urs, e: BatchEntry): Fr
  {
    Sub(Combined(e.openings, e.challenge), Mul(e.proof.dlog, Sub(urs.tau, e.point)))
  }

  /** The entry's opening proof is valid on its own. */
  predicate Opens(urs: Urs, e: BatchEntry)
  {
    Residual(urs, e) == 0
  }

  /** sum over j of rng(j) * Residual(batch[j]) */
  function WeightedSum(urs: Urs, batch: seq<BatchEntry>, rng: nat -> Fr): Fr
  {
    if batch == [] then 0
    else
      var k := |batch| - 1;
      Add(WeightedSum(urs, batch[..k], rng), Mul(rng(k), Residual(urs, batch[k])))
  }

  /** `urs.verify(&batch, rng)`, with rng(j) the random weight drawn for entry j. */
  predicate Verify(urs: Urs, batch: seq<BatchEntry>, rng: nat -> Fr)
  {
    WeightedSum(urs, batch, rng) == 0
  }

  /**
   * Completeness of one opening: a proof computed honestly as the combined
   * difference divided by (tau - zeta) satisfies the opening equation.
   */
  lemma {:induction false} HonestProofOpens(urs: Urs, e: BatchEntry)
    requires IsPrime(P)
    requires urs.tau != e.point
    requires e.proof.dlog == Div(Combined(e.openings, e.challenge), Sub(urs.tau, e.point))
    ensures Opens(urs, e)
  {
    var c, d := Combined(e.openings, e.challenge), Sub(urs.tau, e.point);
    SubNonZero(urs.tau, e.point);
    DivMulCancel(c, d);
    assert Residual(urs, e) == Sub(c, c);
  }

  /** Completeness of the batch: when every entry opens, every choice of weights accepts. */
  lemma {:induction false} VerifyComplete(urs: Urs, batch: seq<BatchEntry>, rng: nat -> Fr)
    requires forall j :: 0 <= j < |batch| ==> Opens(urs, batch[j])
    ensures Verify(urs, batch, rng)
  {
    if batch != [] {
      var k := |batch| - 1;
      var init := batch[..k];
      assert forall j :: 0 <= j < |init| ==> init[j] == batch[j];
      VerifyComplete(urs, init, rng);
      assert Residual(urs, batch[k]) == 0;
      Units(rng(k));
    }
  }

  /** The weights that select entry j alone. */
  function Indicator(j: nat): nat -> Fr
  {
    k => if k == j then 1 else 0
  }

  lemma {:induction false} WeightedSumIndicator(urs: Urs, batch: seq<BatchEntry>, j: nat)
    ensures WeightedSum(urs, batch, Indicator(j)) == if j < |batch| then Residual(urs, batch[j]) else 0
  {
    if batch != [] {
      var k := |batch| - 1;
      var init := batch[..k];
      WeightedSumIndicator(urs, init, j);
      var w, res := Indicator(j)(k), Residual(urs, batch[k]);
      assert WeightedSum(urs, batch, Indicator(j)) == Add(WeightedSum(urs, init, Indicator(j)), Mul(w, res));
      Units(res);
      Units(WeightedSum(urs, init, Indicator(j)));
      if j < k {
        assert init[j] == batch[j];
      }
    }
  }

  /**
   * No entry of a batch is ignored: when entry j does not open, there are weights
   * for which the batched check rejects.
   */
  lemma {:induction false} VerifyDetects(urs: Urs, batch: seq<BatchEntry>, j: nat)
    requires j < |batch|
    requires !Opens(urs, batch[j])
    ensures !Verify(urs, batch, Indicator(j))
  {
    WeightedSumIndicator(urs, batch, j);
  }
}
