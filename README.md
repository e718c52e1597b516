# PLONK batch verifier and kimchi prover index, modelled in Dafny

This project models two pieces of protocol logic of a PLONK-family proof system:

- the pairing-based **batch verifier** (`ProverProof::verify`) and its **transcript
  deriver** (`ProverProof::oracles`): a fresh Fiat–Shamir sponge absorbs the public
  inputs and the proof's commitments and squeezes the five challenges beta, gamma,
  alpha, zeta and v in a fixed order. The verifier reconstructs the quotient
  commitment, the claimed quotient evaluation and the linearisation commitment of
  every proof. It pushes two opening obligations per proof and submits the whole
  batch to one batched opening check;
- kimchi's **index assembler** (`ProverIndex::create`). It takes `max_poly_size` from
  the reference string. It refuses a basis smaller than the domain when there are
  public inputs. It injects the endomorphism scalar, computes
  `max_quot_size = PERMUTS * domain size` and assembles the index record.

Files:

- `field.dfy`: `Results` (Option/Result) and `Field`. `Field` is the scalar field as
  integers modulo a fixed prime, with the inverse computed by extended Euclid, and the
  laws of powers.
- `curve.dfy`: `Curve`. Group elements are kept "in the exponent", so a multi-scalar
  multiplication is a linear combination.
- `evaluation.dfy`: `Evaluation`. It covers polynomial evaluation and the value of the
  interpolant of the public inputs.
- `sponge.dfy`: `Sponge`. The sponge is a class whose state is its event log, and a
  challenge is a function of the parameters and the log before it.
- `commitment.dfy`: `Commitment`. It holds the opening obligations and the batched
  check `urs.verify`, modelled in the exponent.
- `verifier.dfy`: `PlonkVerifier`. It holds `oracles`, the per-proof arithmetic, the
  batch layout and `verify`.
- `prover_index.dfy`: `KimchiIndex`. It holds `create`, the persisted form and the
  test helper.

## Model

| member | source | states |
|---|---|---|
| `Field.InvIsInverse` | pairing/plonk/src/verifier.rs:50-54 | in the prime field, a non-zero element times its inverse is 1, so the division in t is exact |
| `Field.PowAdd` | pairing/plonk/src/verifier.rs:38-45 | x^(a+b) = x^a · x^b: the weight zeta2·zeta2 of the high quotient chunk is zeta^(2n) |
| `Field.PowMul` | pairing/plonk/src/verifier.rs:38-39 | (x^a)^b = x^(a·b): `zeta2.pow(n)` is zeta^(n·n) |
| `Curve.MsmConcat` | pairing/plonk/src/verifier.rs:41-45 | a multi-scalar multiplication splits over a concatenation of points and scalars, so it is a linear combination |
| `Sponge.ReplayLength` | pairing/plonk/src/verifier.rs:118-132 | a sponge returns exactly one challenge per squeeze |
| `Sponge.ReplayPrefix` | pairing/plonk/src/verifier.rs:118-132 | operations performed after a squeeze never change the challenges already squeezed |
| `Sponge.FqSponge.constructor` | pairing/plonk/src/verifier.rs:115 | a new sponge holds the given parameters and has seen nothing |
| `Sponge.FqSponge.AbsorbFr` | pairing/plonk/src/verifier.rs:118 | absorbing scalars appends one event and squeezes nothing |
| `Sponge.FqSponge.AbsorbG` | pairing/plonk/src/verifier.rs:119 | absorbing points appends one event and squeezes nothing |
| `Sponge.FqSponge.Challenge` | pairing/plonk/src/verifier.rs:121-122 | a squeeze returns the sponge implementation's output on the parameters and every earlier event, and appends exactly that one output |
| `Sponge.ReplaySnoc` | pairing/plonk/src/verifier.rs:118-132 | performing one more operation adds a challenge only if it is a squeeze, and that challenge is the output on everything before it |
| `Commitment.HonestProofOpens` | pairing/plonk/src/verifier.rs:72-94 | an opening proof computed honestly as the combined difference divided by (tau − point) satisfies the entry's opening equation |
| `Commitment.VerifyComplete` | pairing/plonk/src/verifier.rs:96-100 | when every entry opens, the batched check accepts for every choice of random weights |
| `Commitment.VerifyDetects` | pairing/plonk/src/verifier.rs:96-100 | when one entry does not open, some choice of weights makes the batched check reject |
| `PlonkVerifier.TranscriptChallenges` | pairing/plonk/src/verifier.rs:114-134 | a fresh sponge driven through the transcript yields exactly five challenges, beta, gamma, alpha, zeta and v in that order. beta follows AbsorbFr(public) and AbsorbG([a,b,c]); gamma one more squeeze; alpha AbsorbG([z]); zeta AbsorbG([tlow,tmid,thgh]); v one more squeeze |
| `PlonkVerifier.Oracles` | pairing/plonk/src/verifier.rs:105-135 | driving a fresh sponge built from the index's parameters returns Ok of the transcript's challenges; the result depends only on the proof and the parameters, and nothing outside the method changes |
| `PlonkVerifier.EarlyOraclesIgnoreLaterData` | pairing/plonk/src/verifier.rs:117-126 | beta and gamma depend only on the public inputs and a, b, c; alpha additionally on z |
| `PlonkVerifier.TCommAsWrittenWeights` | pairing/plonk/src/verifier.rs:38-45 | as written, t_comm = tlow + zeta^n·tmid + zeta^(n·n)·thgh |
| `PlonkVerifier.TCommAsWrittenCounterexample` | pairing/plonk/src/verifier.rs:39-45 | for n = 4, zeta = 2 and thgh committing to 1 (the other chunks to 0): zeta^n = 16, the as-written t_comm is 65536 = 2^16, the corrected one 256 = 2^8 |
| `PlonkVerifier.TCommWeights` | pairing/plonk/src/verifier.rs:38-45 | t_comm = 1·tlow + zeta^n·tmid + zeta^(2n)·thgh (corrected weight) |
| `PlonkVerifier.QuotientIdentity` | pairing/plonk/src/verifier.rs:47-54 | when zeta^n ≠ 1: t·(zeta^n − 1) = r + PI(zeta) − ab·(c+gamma)·z − L1(zeta), with ab = (a+beta·sigma1+gamma)·(b+beta·sigma2+gamma)·alpha |
| `Field.DivOfMul` | pairing/plonk/src/verifier.rs:50-54 | multiplying by a non-zero d and dividing by d gives back the original value |
| `PlonkVerifier.QuotientEvalUnique` | pairing/plonk/src/verifier.rs:50-54 | conversely, any x with x·(zeta^n − 1) equal to that numerator is t |
| `PlonkVerifier.RCommLinear` | pairing/plonk/src/verifier.rs:56-70 | r_comm is a·b·qm + a·ql + b·qr + c·qo + qc + (permutation scalar)·z + (ab·beta·z)·sigma_comm[2] |
| `PlonkVerifier.ProofObligations` | pairing/plonk/src/verifier.rs:36-94 | the two obligations pushed for one proof are exactly the zeta entry and the shifted entry built from that proof's derived challenges |
| `PlonkVerifier.BatchLength` | pairing/plonk/src/verifier.rs:33-95 | the batch has exactly 2·\|proofs\| entries |
| `PlonkVerifier.BatchLayout` | pairing/plonk/src/verifier.rs:33-95 | proof i owns entries 2i and 2i+1. Entry 2i is at zeta with v and proof1, holding (t_comm,t), (r_comm,r), (a_comm,a), (b_comm,b), (c_comm,c), (sigma_comm[0],sigma1), (sigma_comm[1],sigma2), all with no bound. Entry 2i+1 is at zeta·group_gen with v and proof2, holding (z_comm,z) alone |
| `PlonkVerifier.Verify` | pairing/plonk/src/verifier.rs:23-101 | builds exactly the batch above in proof order. It returns Ok(true) exactly when the batched check accepts it and Err(OpenProof) otherwise. It never returns Ok(false) |
| `PlonkVerifier.BadProofDetectable` | pairing/plonk/src/verifier.rs:72-100 | a proof whose zeta obligation does not open is never ignored: some random weights make the whole batch reject |
| `PlonkVerifier.OpeningBatchAccepted` | pairing/plonk/src/verifier.rs:72-100 | when both obligations of every proof open, the batch is accepted whatever weights the randomness source supplies |
| `KimchiIndex.Create` | kimchi/src/prover_index.rs:61-98 | fails exactly when public > 0 and the basis is shorter than the domain. On success: max_poly_size = \|srs.g\|; max_quot_size = PERMUTS·domain size; cs with only endo replaced; linearisation and alpha map are the linearizer's result on (d1, chacha8 present, lookup system); srs and sponge parameters unchanged |
| `KimchiIndex.CapacityExample` | kimchi/src/prover_index.rs:67-73 | domain 16, basis 8, one public input: creation fails |
| `KimchiIndex.NoPublicNoCheck` | kimchi/src/prover_index.rs:68-73 | without public inputs creation never fails, whatever the basis size |
| `KimchiIndex.QuotSizeExample` | kimchi/src/prover_index.rs:83-87 | domain 8 with 7 permuted wires gives max_quot_size 56 |
| `KimchiIndex.CreateIgnoresPreviousEndo` | kimchi/src/prover_index.rs:74-90 | two constraint systems that differ only in endo give the same index |
| `KimchiIndex.LinearizationReproducible` | kimchi/src/prover_index.rs:77-81 | equal domain, ChaCha presence and lookup system give equal linearisation and alpha map |
| `KimchiIndex.PersistedFormOfCreate` | kimchi/src/prover_index.rs:26-53 | only max_poly_size and max_quot_size are persisted, and for a created index they are \|srs.g\| and PERMUTS·domain size |
| `KimchiIndex.SrsCreate` | kimchi/src/prover_index.rs:117 | a reference string created with depth d has a basis of d points |
| `KimchiIndex.AddLagrangeBasis` | kimchi/src/prover_index.rs:118 | adding a Lagrange basis keeps the basis and records one for the domain size |
| `KimchiIndex.NewIndexForTest` | kimchi/src/prover_index.rs:107-124 | the test index never fails the capacity check, and its max_poly_size is the domain size |

## Findings

| source | as written | input that shows it | evidently intended | confidence | as-written member | corrected member |
|---|---|---|---|---|---|---|
| pairing/plonk/src/verifier.rs:39 | `zeta3 = zeta2.pow(n)`, so the high quotient chunk is weighted by zeta^(n·n) | domain size n = 4, zeta = 2, thgh_comm committing to 1 and the other chunks to 0: t_comm is 2^16 as written, 2^8 with weight zeta^(2n) | weights 1, zeta^n, zeta^(2n) (zeta3 = zeta2 · zeta2), as the quotient is split into chunks of n coefficients | medium (the prover is not part of this model), not executed | `PlonkVerifier.TCommAsWritten`, shown by `PlonkVerifier.TCommAsWrittenWeights` and `PlonkVerifier.TCommAsWrittenCounterexample` | `PlonkVerifier.TComm`, proved in `PlonkVerifier.TCommWeights`; `PlonkVerifier.Verify` uses it |

Where the design description and the code disagree, the model follows the code, except for the finding above:

- The design description lists a "malformed proof" error detected before the batched
  check. The verifier has no such check: commitments and evaluations are fixed fields
  of the proof, and `sigma_comm` has fixed length. So no such error exists in the model.
- The claimed quotient evaluation subtracts L1(zeta) with no alpha² factor (line 54).
  The linearisation scalar of z_comm does multiply L1(zeta) by alpha² (line 66).
  `QuotientNumerator` follows the code. The prover that fixes the convention is not
  part of this model, so no finding is claimed.
- The scalar of sigma_comm[2] is +ab·beta·z (line 68), and the model keeps that sign.

## Left out

- Field, curve and pairing arithmetic. Group elements are their discrete logarithms
  (`Curve.G1`). Commitments to f are f(tau) for the reference string's secret tau
  (`Commitment.Urs`). The pairing check is the corresponding field equation.
- The field modulus. The verifier is generic over the pairing engine. The model fixes
  the BLS12-381 scalar-field order. That it is prime is the hypothesis `IsPrime(P)` of
  the lemmas that divide, because Dafny cannot check primality of a 255-bit number.
- Division by zero at line 54. `QuotientEval` is total, and `Inv(0)` is 0. The t
  identity is stated only for zeta^n ≠ 1. What the field library does on a zero
  divisor is not modelled.
- The Poseidon permutation. A sponge implementation (`Sponge.SpongeImpl`) is the
  function from the parameters and the operations performed so far to the challenge
  squeezed next. It is a parameter of `oracles` and `verify`, so every result holds for
  every implementation. Only the order of events and the dependence of each challenge on
  what precedes it are claimed.
- Transcript order sensitivity, soundness and batch integrity "with overwhelming
  probability". These are probabilistic. The model proves the deterministic parts:
  completeness of the batched check, and that each bad entry is caught by some weights.
- The randomness source. `rng` is the function giving the random weight of each batch
  entry. How the stream is drawn is not modelled.
- Degree bounds in openings. The third component of every opening is `None` in this
  verifier. `Commitment.Verify` ignores that component.
- FFT interpolation and `l1.evaluate`. The public-input term is the interpolant
  evaluated with the Lagrange basis (`Evaluation.InterpolateAt`). `l1` is a coefficient
  list evaluated by Horner's rule. More public values than domain points is not
  modelled.
- Verify: the `?` after `oracles` at line 37 can never fire, because `oracles` always
  returns `Ok`. The model extracts the value.
- `proof.clone()`, `Arc` sharing of the reference string, and serde mechanics. These
  are plumbing. The persisted form is modelled only as the record of the two
  non-skipped fields (`KimchiIndex.Persist`).
- `expr_linearization`, `Alphas` and the alpha allocation. These are passed to
  `KimchiIndex.Create` as a function (`Linearizer`), so `create` is modelled for every
  deterministic linearisation. `ConstraintSystem::create` and `endos` are not part of
  this model: `NewIndexForTest` takes the constraint system and the endomorphism
  scalar as inputs.
- Create: the usize multiplication `PERMUTS * size` is not modelled with overflow.
  Domain sizes are powers of two far below 2^61, so the product fits.
- SrsCreate and AddLagrangeBasis: the points come from hashing to the curve and from an
  FFT. Here they are placeholders; only the basis length and the recorded domain size
  are modelled.
- Concurrency. Verification is synchronous, and nothing in the model is shared or
  mutated across calls.
