/**
 * The kimchi prover index (kimchi/src/prover_index.rs): `ProverIndex::create`
 * assembles the index from a finalised constraint system, the sponge parameters,
 * the endomorphism scalar and a shared reference string, after checking that the
 * reference string is large enough for the circuit's public inputs.
 *
 * The constraint system, the reference string, the linearisation and the alpha
 * allocation are kept as records whose contents `create` only moves around; the
 * linearisation routine `expr_linearization` is not part of this model and is passed
 * in as a function, so `create` is modelled for every deterministic linearisation.
 */
module KimchiIndex {
  import opened Results

  /** Number of permuted wires per row (`PERMUTS`). */
  const PERMUTS: nat := 7

  /** An element of the circuit's scalar field; `create` does no arithmetic on it. */
  type Scalar = int

  /** A point of the commitment curve; `create` does no arithmetic on it. */
  datatype Point = Point(x: int, y: int)

  /** A radix-2 evaluation domain. */
  datatype Domain = Domain(size: nat, groupGen: Scalar)

  /** The domains of the constraint system: the base domain and its 4x and 8x extensions. */
  datatype EvaluationDomains = EvaluationDomains(d1: Domain, d4: Domain, d8: Domain)

  datatype CircuitGate = CircuitGate(typ: nat, wires: seq<(nat, nat)>, coeffs: seq<Scalar>)

  datatype LookupConstraintSystem = LookupConstraintSystem(tables: seq<seq<seq<Scalar>>>)

  /** The constraint system; `endo` is the one field `create` sets. */
  datatype ConstraintSystem = ConstraintSystem(
    public: nat,
    domain: EvaluationDomains,
    gates: seq<CircuitGate>,
    endo: Scalar,
    chacha8: Option<seq<seq<Scalar>>>,
    lookupConstraintSystem: Option<LookupConstraintSystem>)

  /** The commitment key: the basis g, the blinding point h and precomputed Lagrange bases. */
  datatype Srs = Srs(g: seq<Point>, h: Point, lagrangeBases: map<nat, seq<Point>>)

  datatype SpongeParams = SpongeParams(mds: seq<seq<Scalar>>, roundConstants: seq<seq<Scalar>>)

  /** A token of the linearisation's stack-machine program. */
  datatype PolishToken = Literal(value: Scalar) | Cell(column: nat, row: int) | Challenge(index: nat)
                       | AddOp | SubOp | MulOp | Dup | Pow(exponent: nat)

  datatype Linearization = Linearization(constantTerm: seq<PolishToken>, indexTerms: seq<(nat, seq<PolishToken>)>)

  /** The assignment of powers of alpha to constraint families: family -> [start, end). */
  datatype Alphas = Alphas(next: nat, mapping: map<nat, (nat, nat)>)

  /** `expr_linearization(domain, chacha_enabled, lookup_constraint_system)` */
  type Linearizer = (Domain, bool, Option<LookupConstraintSystem>) -> (Linearization, Alphas)

  datatype ProverIndex = ProverIndex(
    cs: ConstraintSystem,
    linearization: Linearization,
    powersOfAlpha: Alphas,
    srs: Srs,
    maxPolySize: nat,
    maxQuotSize: nat,
    fqSpongeParams: SpongeParams)

  /** The failed capacity assertion. */
  datatype IndexError = PolySegmentTooSmall

  /**
   * `ProverIndex::create`. max_poly_size is the size of the reference string's basis.
   * When the circuit has public inputs, a basis smaller than the domain is refused
   * (the source's assertion); without public inputs no size check is made. Otherwise
   * the index holds the constraint system with only `endo` replaced, the linearisation
   * and alpha map computed from the domain, the presence of the ChaCha tables and the
   * lookup system, the reference string and sponge parameters unchanged, and
   * max_quot_size = PERMUTS * domain size.
   */
  function Create(cs: ConstraintSystem, fqSpongeParams: SpongeParams, endoQ: Scalar, srs: Srs,
                  linearize: Linearizer): (r: Result<ProverIndex, IndexError>)
    ensures r.Err? <==> cs.public > 0 && |srs.g| < cs.domain.d1.size
    ensures r.Err? ==> r.error == PolySegmentTooSmall
    ensures r.Ok? ==>
      && r.value.maxPolySize == |srs.g|
      && r.value.maxQuotSize == PERMUTS * cs.domain.d1.size
      && r.value.cs == cs.(endo := endoQ)
      && (r.value.linearization, r.value.powersOfAlpha)
           == linearize(cs.domain.d1, cs.chacha8.Some?, cs.lookupConstraintSystem)
      && r.value.srs == srs
      && r.value.fqSpongeParams == fqSpongeParams
  {
    var maxPolySize := |srs.g|;
    if cs.public > 0 && maxPolySize < cs.domain.d1.size then
      Err(PolySegmentTooSmall)
    else
      var cs' := cs.(endo := endoQ);
      var (linearization, powersOfAlpha) :=
        linearize(cs'.domain.d1, cs'.chacha8.Some?, cs'.lookupConstraintSystem);
      var maxQuotSize := PERMUTS * cs'.domain.d1.size;
      Ok(ProverIndex(cs', linearization, powersOfAlpha, srs, maxPolySize, maxQuotSize, fqSpongeParams))
  }

  /** The public-input capacity check: a domain of 16 with a basis of 8 and one public
      input is refused. */
  lemma CapacityExample(cs: ConstraintSystem, params: SpongeParams, endoQ: Scalar, srs: Srs,
                        linearize: Linearizer)
    requires cs.domain.d1.size == 16 && |srs.g| == 8 && cs.public == 1
    ensures Create(cs, params, endoQ, srs, linearize) == Err(PolySegmentTooSmall)
  {
  }

  /** A circuit without public inputs is accepted whatever the size of the basis. */
  lemma NoPublicNoCheck(cs: ConstraintSystem, params: SpongeParams, endoQ: Scalar, srs: Srs,
                        linearize: Linearizer)
    requires cs.public == 0
    ensures Create(cs, params, endoQ, srs, linearize).Ok?
  {
  }

  /** The quotient bound for a domain of 8 and 7 permuted wires is 56. */
  lemma QuotSizeExample(cs: ConstraintSystem, params: SpongeParams, endoQ: Scalar, srs: Srs,
                        linearize: Linearizer)
    requires cs.domain.d1.size == 8 && |srs.g| >= 8
    ensures Create(cs, params, endoQ, srs, linearize).Ok?
    ensures Create(cs, params, endoQ, srs, linearize).value.maxQuotSize == 56
  {
  }

  /**
   * Nothing but `endo` is taken from outside the constraint system: two indices built
   * from constraint systems that differ only in `endo` are identical, and so the
   * linearisation is reproduced whenever domain, ChaCha presence and lookup system agree.
   */
  lemma CreateIgnoresPreviousEndo(cs1: ConstraintSystem, cs2: ConstraintSystem, params: SpongeParams,
                                  endoQ: Scalar, srs: Srs, linearize: Linearizer)
    requires cs1.(endo := 0) == cs2.(endo := 0)
    ensures Create(cs1, params, endoQ, srs, linearize) == Create(cs2, params, endoQ, srs, linearize)
  {
    assert cs1.(endo := endoQ) == cs1.(endo := 0).(endo := endoQ);
    assert cs2.(endo := endoQ) == cs2.(endo := 0).(endo := endoQ);
  }

  /** Equal linearisation inputs give equal linearisations and alpha maps. */
  lemma LinearizationReproducible(cs1: ConstraintSystem, cs2: ConstraintSystem,
                                  p1: SpongeParams, p2: SpongeParams, e1: Scalar, e2: Scalar,
                                  s1: Srs, s2: Srs, linearize: Linearizer)
    requires Create(cs1, p1, e1, s1, linearize).Ok? && Create(cs2, p2, e2, s2, linearize).Ok?
    requires cs1.domain.d1 == cs2.domain.d1
    requires cs1.chacha8.Some? == cs2.chacha8.Some?
    requires cs1.lookupConstraintSystem == cs2.lookupConstraintSystem
    ensures Create(cs1, p1, e1, s1, linearize).value.linearization
         == Create(cs2, p2, e2, s2, linearize).value.linearization
    ensures Create(cs1, p1, e1, s1, linearize).value.powersOfAlpha
         == Create(cs2, p2, e2, s2, linearize).value.powersOfAlpha
  {
  }

  /** The serialised form: every field but the two sizes is skipped. */
  datatype PersistedIndex = PersistedIndex(maxPolySize: nat, maxQuotSize: nat)

  function Persist(idx: ProverIndex): (p: PersistedIndex)
  {
    PersistedIndex(idx.maxPolySize, idx.maxQuotSize)
  }

  /**
   * Only the two sizes are persisted, and for an index built by `create` they are
   * determined by the basis length and the domain size: the persisted form of two
   * indices built from the same basis length and domain size is the same, whatever
   * their constraint systems, linearisations and sponge parameters.
   */
  lemma PersistedFormOfCreate(cs1: ConstraintSystem, cs2: ConstraintSystem,
                              p1: SpongeParams, p2: SpongeParams, e1: Scalar, e2: Scalar,
                              s1: Srs, s2: Srs, l1: Linearizer, l2: Linearizer)
    requires Create(cs1, p1, e1, s1, l1).Ok? && Create(cs2, p2, e2, s2, l2).Ok?
    requires |s1.g| == |s2.g| && cs1.domain.d1.size == cs2.domain.d1.size
    ensures Persist(Create(cs1, p1, e1, s1, l1).value) == Persist(Create(cs2, p2, e2, s2, l2).value)
    ensures Persist(Create(cs1, p1, e1, s1, l1).value) == PersistedIndex(|s1.g|, PERMUTS * cs1.domain.d1.size)
  {
  }

  /**
   * `SRS::create(depth)`: a reference string with a basis of `depth` points. The
   * points themselves come from hashing to the curve, which is not part of this
   * model: point i is represented by a placeholder.
   */
  function SrsCreate(depth: nat): (s: Srs)
    ensures |s.g| == depth && s.lagrangeBases == map[]
  {
    Srs(seq(depth, i => Point(i, 0)), Point(depth, 1), map[])
  }

  /** `add_lagrange_basis(domain)`: records the Lagrange basis for the domain's size. */
  function AddLagrangeBasis(srs: Srs, d: Domain): (s: Srs)
    ensures s.g == srs.g && s.h == srs.h && d.size in s.lagrangeBases
  {
    srs.(lagrangeBases := srs.lagrangeBases[d.size := seq(d.size, i => Point(i, d.size))])
  }

  /**
   * `testing::new_index_for_test`: the reference string is created with exactly the
   * domain size, so the capacity check always passes and max_poly_size is the domain
   * size. `cs` stands for the constraint system `ConstraintSystem::create` builds
   * from the gates, which is not part of this model.
   */
  function NewIndexForTest(cs: ConstraintSystem, fqSpongeParams: SpongeParams, endoQ: Scalar,
                           linearize: Linearizer): (r: Result<ProverIndex, IndexError>)
    ensures r.Ok?
    ensures r.value.maxPolySize == cs.domain.d1.size
    ensures r.value.maxQuotSize == PERMUTS * cs.domain.d1.size
    ensures r.value.cs.public == cs.public
  {
    var srs := AddLagrangeBasis(SrsCreate(cs.domain.d1.size), cs.domain.d1);
    Create(cs, fqSpongeParams, endoQ, srs, linearize)
  }
}
