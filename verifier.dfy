/**
 * The batch verifier of the pairing-based PLONK prover (pairing/plonk/src/verifier.rs):
 * `oracles` replays the Fiat-Shamir transcript of one proof on a fresh sponge, and
 * `verify` turns every proof into two opening obligations and hands the whole batch
 * to one batched opening check.
 */
module PlonkVerifier {
  import opened Results
  import opened Field
  import opened Curve
  import opened Evaluation
  import opened Sponge
  import Commitment

  /** Claimed evaluations of a proof: witness columns, two permutation polynomials,
      the linearisation polynomial at zeta and the accumulator z at zeta*w. */
  datatype ProofEvaluations = ProofEvaluations(a: Fr, b: Fr, c: Fr, sigma1: Fr, sigma2: Fr, r: Fr, z: Fr)

  datatype ProverProof = ProverProof(
    aComm: G1, bComm: G1, cComm: G1,
    zComm: G1,
    tlowComm: G1, tmidComm: G1, thghComm: G1,
    proof1: G1, proof2: G1,
    evals: ProofEvaluations,
    public: seq<Fr>)

  /** The verifier's index: domain, reference string, selector and permutation
      commitments, the coset shifts r and o, the first Lagrange polynomial and the
      sponge parameters. */
  datatype VerifierIndex = VerifierIndex(
    domain: Domain,
    urs: Commitment.Urs,
    qmComm: G1, qlComm: G1, qrComm: G1, qoComm: G1, qcComm: G1,
    sigmaComm: (G1, G1, G1),
    r: Fr, o: Fr,
    l1: seq<Fr>,
    fqSpongeParams: SpongeParams)

  datatype RandomOracles = RandomOracles(beta: Fr, gamma: Fr, alpha: Fr, zeta: Fr, v: Fr)

  datatype ProofError = OpenProof

  // ---------------------------------------------------------------------------
  // Transcript

  /** The operations `oracles` performs on its sponge, in order. */
  function Transcript(p: ProverProof): seq<Event>
  {
    [ AbsorbFr(p.public), AbsorbG([p.aComm, p.bComm, p.cComm]), Squeeze, Squeeze,
      AbsorbG([p.zComm]), Squeeze,
      AbsorbG([p.tlowComm, p.tmidComm, p.thghComm]), Squeeze, Squeeze ]
  }

  /**
   * The challenges of one proof, each the sponge output on exactly the proof data
   * absorbed before it: beta after the public inputs and a, b, c; gamma one squeeze
   * later; alpha after z; zeta after the three quotient chunks; v one squeeze later.
   */
  function DeriveOracles(impl: SpongeImpl, p: ProverProof, params: SpongeParams): RandomOracles
  {
    var e1 := AbsorbFr(p.public);
    var e2 := AbsorbG([p.aComm, p.bComm, p.cComm]);
    var e3 := AbsorbG([p.zComm]);
    var e4 := AbsorbG([p.tlowComm, p.tmidComm, p.thghComm]);
    RandomOracles(
      Digest(impl, params, [e1, e2]),
      Digest(impl, params, [e1, e2, Squeeze]),
      Digest(impl, params, [e1, e2, Squeeze, Squeeze, e3]),
      Digest(impl, params, [e1, e2, Squeeze, Squeeze, e3, Squeeze, e4]),
      Digest(impl, params, [e1, e2, Squeeze, Squeeze, e3, Squeeze, e4, Squeeze]))
  }

  /**
   * A fresh sponge driven through the transcript returns exactly five challenges,
   * and they are beta, gamma, alpha, zeta and v of DeriveOracles, in that order.
   */
  lemma {:induction false} TranscriptChallenges(impl: SpongeImpl, p: ProverProof, params: SpongeParams)
    ensures var o := DeriveOracles(impl, p, params);
      Replay(impl, params, Transcript(p)) == [o.beta, o.gamma, o.alpha, o.zeta, o.v]
  {
    var e1 := AbsorbFr(p.public);
    var e2 := AbsorbG([p.aComm, p.bComm, p.cComm]);
    var e3 := AbsorbG([p.zComm]);
    var e4 := AbsorbG([p.tlowComm, p.tmidComm, p.thghComm]);
    var l8 := [e1, e2, Squeeze, Squeeze, e3, Squeeze, e4, Squeeze];
    var o := DeriveOracles(impl, p, params);
    TranscriptUpToZeta(impl, p, params);
    ReplaySnoc(impl, params, l8, Squeeze);
    assert l8 + [Squeeze] == Transcript(p);
  }

  /** The first two squeezes of the transcript give beta and gamma. */
  lemma TranscriptUpToGamma(impl: SpongeImpl, p: ProverProof, params: SpongeParams)
    ensures var o := DeriveOracles(impl, p, params);
      Replay(impl, params, [AbsorbFr(p.public), AbsorbG([p.aComm, p.bComm, p.cComm]), Squeeze, Squeeze])
        == [o.beta, o.gamma]
  {
    var e1 := AbsorbFr(p.public);
    var e2 := AbsorbG([p.aComm, p.bComm, p.cComm]);
    ReplaySnoc(impl, params, [], e1);
    assert [] + [e1] == [e1];
    ReplaySnoc(impl, params, [e1], e2);
    assert [e1] + [e2] == [e1, e2];
    ReplaySnoc(impl, params, [e1, e2], Squeeze);
    assert [e1, e2] + [Squeeze] == [e1, e2, Squeeze];
    ReplaySnoc(impl, params, [e1, e2, Squeeze], Squeeze);
    assert [e1, e2, Squeeze] + [Squeeze] == [e1, e2, Squeeze, Squeeze];
  }

  /** The third squeeze, after z, gives alpha. */
  lemma TranscriptUpToAlpha(impl: SpongeImpl, p: ProverProof, params: SpongeParams)
    ensures var o := DeriveOracles(impl, p, params);
      Replay(impl, params, [AbsorbFr(p.public), AbsorbG([p.aComm, p.bComm, p.cComm]), Squeeze, Squeeze,
                            AbsorbG([p.zComm]), Squeeze])
        == [o.beta, o.gamma, o.alpha]
  {
    var l4 := [AbsorbFr(p.public), AbsorbG([p.aComm, p.bComm, p.cComm]), Squeeze, Squeeze];
    var e3 := AbsorbG([p.zComm]);
    TranscriptUpToGamma(impl, p, params);
    ReplaySnoc(impl, params, l4, e3);
    var l5 := [AbsorbFr(p.public), AbsorbG([p.aComm, p.bComm, p.cComm]), Squeeze, Squeeze, e3];
    assert l4 + [e3] == l5;
    ReplaySnoc(impl, params, l5, Squeeze);
    assert l5 + [Squeeze] == [AbsorbFr(p.public), AbsorbG([p.aComm, p.bComm, p.cComm]), Squeeze, Squeeze, e3, Squeeze];
  }

  /** The fourth squeeze, after the quotient chunks, gives zeta. */
  lemma TranscriptUpToZeta(impl: SpongeImpl, p: ProverProof, params: SpongeParams)
    ensures var o := DeriveOracles(impl, p, params);
      Replay(impl, params, [AbsorbFr(p.public), AbsorbG([p.aComm, p.bComm, p.cComm]), Squeeze, Squeeze,
                            AbsorbG([p.zComm]), Squeeze, AbsorbG([p.tlowComm, p.tmidComm, p.thghComm]), Squeeze])
        == [o.beta, o.gamma, o.alpha, o.zeta]
  {
    var l6 := [AbsorbFr(p.public), AbsorbG([p.aComm, p.bComm, p.cComm]), Squeeze, Squeeze,
               AbsorbG([p.zComm]), Squeeze];
    var e4 := AbsorbG([p.tlowComm, p.tmidComm, p.thghComm]);
    TranscriptUpToAlpha(impl, p, params);
    ReplaySnoc(impl, params, l6, e4);
    var l7 := [AbsorbFr(p.public), AbsorbG([p.aComm, p.bComm, p.cComm]), Squeeze, Squeeze,
               AbsorbG([p.zComm]), Squeeze, e4];
    assert l6 + [e4] == l7;
    ReplaySnoc(impl, params, l7, Squeeze);
    assert l7 + [Squeeze] == [AbsorbFr(p.public), AbsorbG([p.aComm, p.bComm, p.cComm]), Squeeze, Squeeze,
                              AbsorbG([p.zComm]), Squeeze, e4, Squeeze];
  }

  /**
   * `oracles`: a fresh sponge built from the index's parameters absorbs the public
   * inputs and the a, b, c commitments, squeezes beta and gamma, absorbs z, squeezes
   * alpha, absorbs the quotient chunks and squeezes zeta and v. Nothing outside the
   * method is modified, and the result depends on the proof and the parameters only.
   */
  method Oracles(impl: SpongeImpl, p: ProverProof, index: VerifierIndex) returns (r: Result<RandomOracles, ProofError>)
    ensures r == Ok(DeriveOracles(impl, p, index.fqSpongeParams))
  {
    var oracles := RandomOracles(0, 0, 0, 0, 0);
    var sponge := new FqSponge(impl, index.fqSpongeParams);
    ghost var e1, e2 := AbsorbFr(p.public), AbsorbG([p.aComm, p.bComm, p.cComm]);
    ghost var e3, e4 := AbsorbG([p.zComm]), AbsorbG([p.tlowComm, p.tmidComm, p.thghComm]);

    sponge.AbsorbFr(p.public);
    sponge.AbsorbG([p.aComm, p.bComm, p.cComm]);
    assert sponge.log == [e1, e2];
    var beta := sponge.Challenge();
    oracles := oracles.(beta := beta);
    assert sponge.log == [e1, e2, Squeeze];
    var gamma := sponge.Challenge();
    oracles := oracles.(gamma := gamma);

    sponge.AbsorbG([p.zComm]);
    assert sponge.log == [e1, e2, Squeeze, Squeeze, e3];
    var alpha := sponge.Challenge();
    oracles := oracles.(alpha := alpha);

    sponge.AbsorbG([p.tlowComm, p.tmidComm, p.thghComm]);
    assert sponge.log == [e1, e2, Squeeze, Squeeze, e3, Squeeze, e4];
    var zeta := sponge.Challenge();
    oracles := oracles.(zeta := zeta);
    assert sponge.log == [e1, e2, Squeeze, Squeeze, e3, Squeeze, e4, Squeeze];
    var v := sponge.Challenge();
    oracles := oracles.(v := v);

    r := Ok(oracles);
  }

  /**
   * Challenges squeezed early do not see data absorbed later: beta and gamma depend
   * only on the public inputs and the a, b, c commitments, alpha additionally on z;
   * the quotient chunks, evaluations and opening proofs influence none of them.
   */
  lemma {:induction false} EarlyOraclesIgnoreLaterData(impl: SpongeImpl, p: ProverProof, q: ProverProof, params: SpongeParams)
    requires p.public == q.public
    requires p.aComm == q.aComm && p.bComm == q.bComm && p.cComm == q.cComm
    ensures DeriveOracles(impl, p, params).beta == DeriveOracles(impl, q, params).beta
    ensures DeriveOracles(impl, p, params).gamma == DeriveOracles(impl, q, params).gamma
    ensures p.zComm == q.zComm ==> DeriveOracles(impl, p, params).alpha == DeriveOracles(impl, q, params).alpha
  {
  }

  // ---------------------------------------------------------------------------
  // Per-proof arithmetic

  /** The multi-scalar multiplication of three points, as a linear combination of logarithms. */
  lemma Msm3(p0: G1, p1: G1, p2: G1, s0: Fr, s1: Fr, s2: Fr)
    ensures Msm([p0, p1, p2], [s0, s1, s2]).dlog
      == Add(Mul(s0, p0.dlog), Add(Mul(s1, p1.dlog), Mul(s2, p2.dlog)))
  {
    assert [p0, p1, p2][1..] == [p1, p2] && [s0, s1, s2][1..] == [s1, s2];
    MsmSingle(p2, s2);
    Units(Mul(s2, p2.dlog));
  }

  /** The multi-scalar multiplication of seven points, as a linear combination of logarithms. */
  lemma Msm7(p0: G1, p1: G1, p2: G1, p3: G1, p4: G1, p5: G1, p6: G1,
             s0: Fr, s1: Fr, s2: Fr, s3: Fr, s4: Fr, s5: Fr, s6: Fr)
    ensures Msm([p0, p1, p2, p3, p4, p5, p6], [s0, s1, s2, s3, s4, s5, s6]).dlog
      == Add(Mul(s0, p0.dlog), Add(Mul(s1, p1.dlog), Add(Mul(s2, p2.dlog), Add(Mul(s3, p3.dlog),
         Add(Mul(s4, p4.dlog), Add(Mul(s5, p5.dlog), Mul(s6, p6.dlog)))))))
  {
    var q3, t3 := [p3, p4, p5, p6], [s3, s4, s5, s6];
    var q2, t2 := [p2] + q3, [s2] + t3;
    var q1, t1 := [p1] + q2, [s1] + t2;
    assert [p0] + q1 == [p0, p1, p2, p3, p4, p5, p6] && [s0] + t1 == [s0, s1, s2, s3, s4, s5, s6];
    MsmCons(p0, s0, q1, t1);
    MsmCons(p1, s1, q2, t2);
    MsmCons(p2, s2, q3, t3);
    assert Msm(q3, t3) == Plus(Scale(s3, p3), Msm([p4, p5, p6], [s4, s5, s6])) by {
      MsmCons(p3, s3, [p4, p5, p6], [s4, s5, s6]);
      assert [p3] + [p4, p5, p6] == q3 && [s3] + [s4, s5, s6] == t3;
    }
    Msm3(p4, p5, p6, s4, s5, s6);
  }

  /** Line 39 as written: the weight of the high chunk is zeta2^n. */
  function TCommAsWritten(p: ProverProof, zeta2: Fr, n: nat): G1
  {
    Msm([p.tlowComm, p.tmidComm, p.thghComm], [1, zeta2, Pow(zeta2, n)])
  }

  /**
   * As written, the high quotient chunk is weighted by zeta^(n*n) rather than
   * zeta^(2n).
   */
  lemma TCommAsWrittenWeights(p: ProverProof, zeta: Fr, n: nat)
    ensures TCommAsWritten(p, Pow(zeta, n), n).dlog
      == Add(p.tlowComm.dlog, Add(Mul(Pow(zeta, n), p.tmidComm.dlog), Mul(Pow(zeta, n * n), p.thghComm.dlog)))
  {
    Msm3(p.tlowComm, p.tmidComm, p.thghComm, 1, Pow(zeta, n), Pow(Pow(zeta, n), n));
    PowMul(zeta, n, n);
    Units(p.tlowComm.dlog);
  }

  /**
   * The two weights differ: for a domain of size 4 and zeta = 2, a high chunk
   * committing to 1 contributes 2^16 as written and 2^8 as intended.
   */
  lemma TCommAsWrittenCounterexample(p: ProverProof)
    requires p.tlowComm == G1(0) && p.tmidComm == G1(0) && p.thghComm == G1(1)
    ensures Pow(2, 4) == 16
    ensures TCommAsWritten(p, 16, 4).dlog == 65536
    ensures TComm(p, 16).dlog == 256
  {
    ModSmall(2 * 2);
    ModSmall(4 * 2);
    ModSmall(8 * 2);
    assert Pow(2, 4) == 16 by {
      Units(2);
      assert Pow(2, 1) == 2;
      assert Pow(2, 2) == 4;
      assert Pow(2, 3) == 8;
    }
    ModSmall(16 * 16);
    ModSmall(256 * 16);
    ModSmall(4096 * 16);
    assert Pow(16, 4) == 65536 by {
      Units(16);
      assert Pow(16, 1) == 16;
      assert Pow(16, 2) == 256;
      assert Pow(16, 3) == 4096;
    }
    Units(1);
    Units(16);
    Units(65536);
    Units(256);
    Msm3(G1(0), G1(0), G1(1), 1, 16, 65536);
    Msm3(G1(0), G1(0), G1(1), 1, 16, 256);
  }

  /** The quotient commitment with weights 1, zeta^n and zeta^(2n) = (zeta^n)^2. */
  function TComm(p: ProverProof, zeta2: Fr): G1
  {
    Msm([p.tlowComm, p.tmidComm, p.thghComm], [1, zeta2, Mul(zeta2, zeta2)])
  }

  /** t_comm = tlow_comm + zeta^n * tmid_comm + zeta^(2n) * thgh_comm. */
  lemma TCommWeights(p: ProverProof, zeta: Fr, n: nat)
    ensures TComm(p, Pow(zeta, n)).dlog
      == Add(p.tlowComm.dlog, Add(Mul(Pow(zeta, n), p.tmidComm.dlog), Mul(Pow(zeta, 2 * n), p.thghComm.dlog)))
  {
    var zn := Pow(zeta, n);
    Msm3(p.tlowComm, p.tmidComm, p.thghComm, 1, zn, Mul(zn, zn));
    PowAdd(zeta, n, n);
    assert n + n == 2 * n;
    Units(p.tlowComm.dlog);
  }

  /** ab = (a + beta*sigma1 + gamma) * (b + beta*sigma2 + gamma) * alpha */
  function Ab(e: ProofEvaluations, o: RandomOracles): Fr
  {
    Mul(Mul(Add(Add(e.a, Mul(o.beta, e.sigma1)), o.gamma),
            Add(Add(e.b, Mul(o.beta, e.sigma2)), o.gamma)),
        o.alpha)
  }

  /** Value at zeta of the polynomial interpolating the public inputs over the domain. */
  function PublicEval(p: ProverProof, index: VerifierIndex, zeta: Fr): Fr
  {
    InterpolateAt(p.public, index.domain, zeta)
  }

  /** `index.l1.evaluate(zeta)` */
  function L1Eval(index: VerifierIndex, zeta: Fr): Fr
  {
    Horner(index.l1, zeta)
  }

  /** r + PI(zeta) - ab*(c + gamma)*z - L1(zeta): the dividend at line 50-54. */
  function QuotientNumerator(p: ProverProof, index: VerifierIndex, o: RandomOracles): Fr
  {
    var e := p.evals;
    Sub(Sub(Add(e.r, PublicEval(p, index, o.zeta)), Mul(Mul(Ab(e, o), Add(e.c, o.gamma)), e.z)),
        L1Eval(index, o.zeta))
  }

  /** The claimed quotient evaluation t, the numerator divided by zeta^n - 1. */
  function QuotientEval(p: ProverProof, index: VerifierIndex, o: RandomOracles, zeta2: Fr): Fr
  {
    Div(QuotientNumerator(p, index, o), Sub(zeta2, 1))
  }

  /**
   * The public identity: when zeta^n != 1,
   *   t * (zeta^n - 1) == r + PI(zeta) - ab*(c + gamma)*z - L1(zeta)
   * with ab = (a + beta*sigma1 + gamma) * (b + beta*sigma2 + gamma) * alpha.
   */
  lemma {:induction false} QuotientIdentity(p: ProverProof, index: VerifierIndex, o: RandomOracles)
    requires IsPrime(P)
    requires Pow(o.zeta, index.domain.size) != 1
    ensures var e := p.evals;
      var zn := Pow(o.zeta, index.domain.size);
      var ab := Mul(Mul(Add(Add(e.a, Mul(o.beta, e.sigma1)), o.gamma),
                        Add(Add(e.b, Mul(o.beta, e.sigma2)), o.gamma)), o.alpha);
      Mul(QuotientEval(p, index, o, zn), Sub(zn, 1))
        == Sub(Sub(Add(e.r, InterpolateAt(p.public, index.domain, o.zeta)),
                   Mul(Mul(ab, Add(e.c, o.gamma)), e.z)),
               Horner(index.l1, o.zeta))
  {
    var zn := Pow(o.zeta, index.domain.size);
    assert Sub(zn, 1) != 0;
    DivMulCancel(QuotientNumerator(p, index, o), Sub(zn, 1));
  }

  /** Conversely, t is the only value satisfying the public identity. */
  lemma {:induction false} QuotientEvalUnique(p: ProverProof, index: VerifierIndex, o: RandomOracles, x: Fr)
    requires IsPrime(P)
    requires Pow(o.zeta, index.domain.size) != 1
    requires Mul(x, Sub(Pow(o.zeta, index.domain.size), 1)) == QuotientNumerator(p, index, o)
    ensures x == QuotientEval(p, index, o, Pow(o.zeta, index.domain.size))
  {
    var zn := Pow(o.zeta, index.domain.size);
    var d := Sub(zn, 1);
    assert d != 0;
    calc {
      QuotientEval(p, index, o, zn);
      Div(QuotientNumerator(p, index, o), d);
      Div(Mul(x, d), d);
      { DivOfMul(x, d); }
      x;
    }
  }

  /** Scalar of z_comm in r_comm (lines 62-67): the permutation product times alpha plus
      L1(zeta) * alpha^2. */
  function ZScalar(p: ProverProof, index: VerifierIndex, o: RandomOracles): Fr
  {
    var e := p.evals;
    Add(Mul(Mul(Mul(Mul(Add(Add(e.a, Mul(o.beta, o.zeta)), o.gamma),
                        Add(Add(e.b, Mul(Mul(o.beta, index.r), o.zeta)), o.gamma)),
                    Add(Add(e.c, Mul(Mul(o.beta, index.o), o.zeta)), o.gamma)),
                e.z),
            o.alpha),
        Mul(L1Eval(index, o.zeta), Mul(o.alpha, o.alpha)))
  }

  /** Scalar of sigma_comm[2] in r_comm (line 68): ab * beta * z. */
  function Sigma3Scalar(p: ProverProof, o: RandomOracles, ab: Fr): Fr
  {
    Mul(Mul(ab, o.beta), p.evals.z)
  }

  /** The linearisation commitment (lines 56-70): the selector commitments, z_comm and
      sigma_comm[2] under one multi-scalar multiplication. */
  function RComm(p: ProverProof, index: VerifierIndex, o: RandomOracles, ab: Fr): G1
  {
    var e := p.evals;
    Msm(
      [index.qmComm, index.qlComm, index.qrComm, index.qoComm, index.qcComm, p.zComm, index.sigmaComm.2],
      [Mul(e.a, e.b), e.a, e.b, e.c, 1, ZScalar(p, index, o), Sigma3Scalar(p, o, ab)])
  }

  /**
   * In the exponent, r_comm is the linearisation polynomial's commitment:
   *   a*b*q_M + a*q_L + b*q_R + c*q_O + q_C + zscalar*z + sigma3scalar*sigma_3.
   */
  lemma RCommLinear(p: ProverProof, index: VerifierIndex, o: RandomOracles, ab: Fr)
    ensures var e := p.evals;
      RComm(p, index, o, ab).dlog ==
      Add(Mul(Mul(e.a, e.b), index.qmComm.dlog),
      Add(Mul(e.a, index.qlComm.dlog),
      Add(Mul(e.b, index.qrComm.dlog),
      Add(Mul(e.c, index.qoComm.dlog),
      Add(index.qcComm.dlog,
      Add(Mul(ZScalar(p, index, o), p.zComm.dlog),
          Mul(Sigma3Scalar(p, o, ab), index.sigmaComm.2.dlog)))))))
  {
    var e := p.evals;
    Msm7(index.qmComm, index.qlComm, index.qrComm, index.qoComm, index.qcComm, p.zComm, index.sigmaComm.2,
         Mul(e.a, e.b), e.a, e.b, e.c, 1, ZScalar(p, index, o), Sigma3Scalar(p, o, ab));
    Units(index.qcComm.dlog);
  }

  // ---------------------------------------------------------------------------
  // Batch assembly

  /** The obligation at zeta: t, r, a, b, c, sigma1, sigma2, opened with proof1. */
  function ZetaEntry(p: ProverProof, index: VerifierIndex, o: RandomOracles): Commitment.BatchEntry
  {
    var e := p.evals;
    var zeta2 := Pow(o.zeta, index.domain.size);
    Commitment.BatchEntry(
      o.zeta, o.v,
      [ Commitment.Opening(TComm(p, zeta2), QuotientEval(p, index, o, zeta2), None),
        Commitment.Opening(RComm(p, index, o, Ab(e, o)), e.r, None),
        Commitment.Opening(p.aComm, e.a, None),
        Commitment.Opening(p.bComm, e.b, None),
        Commitment.Opening(p.cComm, e.c, None),
        Commitment.Opening(index.sigmaComm.0, e.sigma1, None),
        Commitment.Opening(index.sigmaComm.1, e.sigma2, None) ],
      p.proof1)
  }

  /** The obligation at zeta * w: the accumulator z, opened with proof2. */
  function ShiftedEntry(p: ProverProof, index: VerifierIndex, o: RandomOracles): Commitment.BatchEntry
  {
    Commitment.BatchEntry(
      Mul(o.zeta, index.domain.groupGen), o.v,
      [Commitment.Opening(p.zComm, p.evals.z, None)],
      p.proof2)
  }

  /** The batch `verify` builds: for every proof in order, its zeta entry and then its
      shifted entry. */
  function BatchOf(impl: SpongeImpl, proofs: seq<ProverProof>, index: VerifierIndex): seq<Commitment.BatchEntry>
  {
    if proofs == [] then []
    else
      var p := proofs[|proofs| - 1];
      var o := DeriveOracles(impl, p, index.fqSpongeParams);
      BatchOf(impl, proofs[..|proofs| - 1], index) + [ZetaEntry(p, index, o)] + [ShiftedEntry(p, index, o)]
  }

  /**
   * The batch has exactly two entries per proof, in proof order: proof i contributes
   * its zeta entry at position 2i and its shifted entry at position 2i + 1, both built
   * from the oracles of that proof alone.
   */
  lemma {:induction false} BatchLayout(impl: SpongeImpl, proofs: seq<ProverProof>, index: VerifierIndex, i: nat)
    requires i < |proofs|
    ensures |BatchOf(impl, proofs, index)| == 2 * |proofs|
    ensures var o := DeriveOracles(impl, proofs[i], index.fqSpongeParams);
      && BatchOf(impl, proofs, index)[2 * i] == ZetaEntry(proofs[i], index, o)
      && BatchOf(impl, proofs, index)[2 * i + 1] == ShiftedEntry(proofs[i], index, o)
  {
    var k := |proofs| - 1;
    var init := proofs[..k];
    BatchLength(impl, init, index);
    if i == k {
    } else {
      BatchLayout(impl, init, index, i);
      assert init[i] == proofs[i];
      assert BatchOf(impl, proofs, index)[2 * i] == BatchOf(impl, init, index)[2 * i];
      assert BatchOf(impl, proofs, index)[2 * i + 1] == BatchOf(impl, init, index)[2 * i + 1];
    }
  }

  /** Extending the list of proofs by one appends that proof's two entries. */
  lemma BatchOfPrefix(impl: SpongeImpl, proofs: seq<ProverProof>, index: VerifierIndex, i: nat)
    requires i < |proofs|
    ensures var o := DeriveOracles(impl, proofs[i], index.fqSpongeParams);
      BatchOf(impl, proofs[..i + 1], index)
        == BatchOf(impl, proofs[..i], index) + [ZetaEntry(proofs[i], index, o)] + [ShiftedEntry(proofs[i], index, o)]
  {
    assert proofs[..i + 1][..i] == proofs[..i];
  }

  lemma {:induction false} BatchLength(impl: SpongeImpl, proofs: seq<ProverProof>, index: VerifierIndex)
    ensures |BatchOf(impl, proofs, index)| == 2 * |proofs|
  {
    if proofs != [] {
      BatchLength(impl, proofs[..|proofs| - 1], index);
    }
  }

  /**
   * One iteration of `verify`'s loop (lines 36-94): derive the proof's oracles, compute
   * t_comm, t and r_comm, and build the proof's two opening obligations.
   */
  method ProofObligations(impl: SpongeImpl, proof: ProverProof, index: VerifierIndex)
    returns (first: Commitment.BatchEntry, second: Commitment.BatchEntry)
    ensures var o := DeriveOracles(impl, proof, index.fqSpongeParams);
      first == ZetaEntry(proof, index, o) && second == ShiftedEntry(proof, index, o)
  {
    // `oracles` never fails, so the `?` that would propagate its error does not fire.
    var res := Oracles(impl, proof, index);
    var oracles := res.value;
    var zeta2 := Pow(oracles.zeta, index.domain.size);

    var tComm := TComm(proof, zeta2);
    var ab := Ab(proof.evals, oracles);
    var t := QuotientEval(proof, index, oracles, zeta2);
    var rComm := RComm(proof, index, oracles, ab);

    first := Commitment.BatchEntry(
      oracles.zeta, oracles.v,
      [ Commitment.Opening(tComm, t, None),
        Commitment.Opening(rComm, proof.evals.r, None),
        Commitment.Opening(proof.aComm, proof.evals.a, None),
        Commitment.Opening(proof.bComm, proof.evals.b, None),
        Commitment.Opening(proof.cComm, proof.evals.c, None),
        Commitment.Opening(index.sigmaComm.0, proof.evals.sigma1, None),
        Commitment.Opening(index.sigmaComm.1, proof.evals.sigma2, None) ],
      proof.proof1);
    second := Commitment.BatchEntry(
      Mul(oracles.zeta, index.domain.groupGen), oracles.v,
      [Commitment.Opening(proof.zComm, proof.evals.z, None)],
      proof.proof2);
  }

  /**
   * `verify`: for each proof in order, derive its oracles and compute t_comm, t and
   * r_comm; push the two obligations of the proof; then run the batched opening
   * check once on the whole batch. The result is Ok(true) exactly when that check
   * accepts and Err(OpenProof) otherwise; it is never Ok(false).
   */
  method Verify(impl: SpongeImpl, proofs: seq<ProverProof>, index: VerifierIndex, rng: nat -> Fr)
    returns (r: Result<bool, ProofError>)
    ensures r == if Commitment.Verify(index.urs, BatchOf(impl, proofs, index), rng) then Ok(true) else Err(OpenProof)
    ensures r != Ok(false)
  {
    var batch: seq<Commitment.BatchEntry> := [];
    for i := 0 to |proofs|
      invariant batch == BatchOf(impl, proofs[..i], index)
    {
      var proof := proofs[i];
      var first, second := ProofObligations(impl, proof, index);
      BatchOfPrefix(impl, proofs, index, i);
      batch := batch + [first];
      batch := batch + [second];
    }
    assert proofs[..|proofs|] == proofs;
    match Commitment.Verify(index.urs, batch, rng)
    case false => r := Err(OpenProof);
    case true => r := Ok(true);
  }

  /**
   * A bad proof is never dropped from the batch: if the zeta obligation of proof i
   * does not open, the batched check rejects for some choice of random weights.
   */
  lemma {:induction false} BadProofDetectable(impl: SpongeImpl, proofs: seq<ProverProof>, index: VerifierIndex, i: nat)
    requires i < |proofs|
    requires !Commitment.Opens(index.urs, ZetaEntry(proofs[i], index, DeriveOracles(impl, proofs[i], index.fqSpongeParams)))
    ensures !Commitment.Verify(index.urs, BatchOf(impl, proofs, index), Commitment.Indicator(2 * i))
  {
    BatchLayout(impl, proofs, index, i);
    assert BatchOf(impl, proofs, index)[2 * i] == ZetaEntry(proofs[i], index, DeriveOracles(impl, proofs[i], index.fqSpongeParams));
    Commitment.VerifyDetects(index.urs, BatchOf(impl, proofs, index), 2 * i);
  }

  /** Completeness: when every obligation of every proof opens, the batch is accepted
      whatever weights the randomness source supplies. */
  lemma {:induction false} OpeningBatchAccepted(impl: SpongeImpl, proofs: seq<ProverProof>, index: VerifierIndex, rng: nat -> Fr)
    requires forall i :: 0 <= i < |proofs| ==>
      var o := DeriveOracles(impl, proofs[i], index.fqSpongeParams);
      Commitment.Opens(index.urs, ZetaEntry(proofs[i], index, o))
      && Commitment.Opens(index.urs, ShiftedEntry(proofs[i], index, o))
    ensures Commitment.Verify(index.urs, BatchOf(impl, proofs, index), rng)
  {
    var batch := BatchOf(impl, proofs, index);
    BatchLength(impl, proofs, index);
    forall j | 0 <= j < |batch|
      ensures Commitment.Opens(index.urs, batch[j])
    {
      BatchEntryOpens(impl, proofs, index, j);
    }
    Commitment.VerifyComplete(index.urs, batch, rng);
  }

  /** Entry j of the batch is an obligation of proof j / 2, so it opens when that proof's do. */
  lemma BatchEntryOpens(impl: SpongeImpl, proofs: seq<ProverProof>, index: VerifierIndex, j: nat)
    requires j < 2 * |proofs|
    requires var o := DeriveOracles(impl, proofs[j / 2], index.fqSpongeParams);
      Commitment.Opens(index.urs, ZetaEntry(proofs[j / 2], index, o))
      && Commitment.Opens(index.urs, ShiftedEntry(proofs[j / 2], index, o))
    ensures |BatchOf(impl, proofs, index)| == 2 * |proofs|
    ensures Commitment.Opens(index.urs, BatchOf(impl, proofs, index)[j])
  {
    var i := j / 2;
    BatchLayout(impl, proofs, index, i);
    if j % 2 == 0 {
      assert j == 2 * i;
    } else {
      assert j == 2 * i + 1;
    }
  }
}
