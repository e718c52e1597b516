/**
 * The Fiat-Shamir sponge over the base field (`FqSponge`), reduced to what the
 * verifier relies on: a sponge is created from fixed parameters, absorbs scalars and
 * group elements, and squeezes challenges, and every challenge is a function of the
 * parameters and of the exact sequence of operations performed before it.
 *
 * The verifier is generic over the sponge type; here a sponge implementation is the
 * function giving the challenge it squeezes after a sequence of operations. The
 * Poseidon permutation itself is not part of this model, and everything proved here
 * holds for every implementation.
 */
module Sponge {
  import opened Field
  import opened Curve

  /** Round constants and MDS matrix of the permutation (`ArithmeticSpongeParams`). */
  datatype SpongeParams = SpongeParams(mds: seq<seq<int>>, roundConstants: seq<seq<int>>)

  /** One operation on a sponge. */
  datatype Event = AbsorbFr(scalars: seq<Fr>) | AbsorbG(points: seq<G1>) | Squeeze

  /** A sponge implementation: the challenge squeezed after the given operations on a
      sponge created with the given parameters. */
  type SpongeImpl = (SpongeParams, seq<Event>) -> Fr

  /** The challenge `impl` squeezes after the operations in `log`. */
  function Digest(impl: SpongeImpl, params: SpongeParams, log: seq<Event>): Fr
  {
    impl(params, log)
  }

  /** Number of squeezes in a log. */
  function SqueezeCount(log: seq<Event>): nat
  {
    if log == [] then 0
    else SqueezeCount(log[..|log| - 1]) + (if log[|log| - 1].Squeeze? then 1 else 0)
  }

  /**
   * The challenges a fresh sponge of implementation `impl` built from `params` returns when the operations in
   * `log` are performed on it in order: each Squeeze yields the digest of everything
   * before it.
   */
  function Replay(impl: SpongeImpl, params: SpongeParams, log: seq<Event>): seq<Fr>
  {
    if log == [] then []
    else
      var k := |log| - 1;
      Replay(impl, params, log[..k]) + (if log[k].Squeeze? then [Digest(impl, params, log[..k])] else [])
  }

  /** Performing one more operation: only a squeeze adds a challenge, the digest of
      everything before it. */
  lemma ReplaySnoc(impl: SpongeImpl, params: SpongeParams, log: seq<Event>, e: Event)
    ensures Replay(impl, params, log + [e])
      == Replay(impl, params, log) + (if e.Squeeze? then [Digest(impl, params, log)] else [])
  {
    assert (log + [e])[..|log|] == log;
  }

  /** One challenge per squeeze. */
  lemma {:induction false} ReplayLength(impl: SpongeImpl, params: SpongeParams, log: seq<Event>)
    ensures |Replay(impl, params, log)| == SqueezeCount(log)
  {
    if log != [] {
      ReplayLength(impl, params, log[..|log| - 1]);
    }
  }

  /**
   * Operations performed after a challenge was squeezed cannot change it: the
   * challenges of a log are a prefix of the challenges of any extension of it.
   */
  lemma {:induction false} ReplayPrefix(impl: SpongeImpl, params: SpongeParams, log: seq<Event>, more: seq<Event>)
    ensures |Replay(impl, params, log)| <= |Replay(impl, params, log + more)|
    ensures Replay(impl, params, log) == Replay(impl, params, log + more)[..|Replay(impl, params, log)|]
    decreases |more|
  {
    if more == [] {
      assert log + more == log;
    } else {
      var k := |more| - 1;
      assert (log + more)[..|log| + k] == log + more[..k];
      ReplayPrefix(impl, params, log, more[..k]);
    }
  }

  /** The sponge object the verifier creates and drives. */
  class FqSponge {
    const impl: SpongeImpl
    const params: SpongeParams
    var log: seq<Event>

    /** The challenges squeezed so far, in order. */
    ghost function Outputs(): seq<Fr>
      reads this
    {
      Replay(impl, params, log)
    }

    /** `EFqSponge::new(params)`: a sponge that has seen nothing. */
    constructor (impl: SpongeImpl, params: SpongeParams)
      ensures this.impl == impl && this.params == params && log == []
    {
      this.impl := impl;
      this.params := params;
      log := [];
    }

    /** `absorb_fr` */
    method AbsorbFr(xs: seq<Fr>)
      modifies this
      ensures log == old(log) + [Event.AbsorbFr(xs)]
      ensures Outputs() == old(Outputs())
    {
      log := log + [Event.AbsorbFr(xs)];
      assert log[..|log| - 1] == old(log);
    }

    /** `absorb_g` */
    method AbsorbG(gs: seq<G1>)
      modifies this
      ensures log == old(log) + [Event.AbsorbG(gs)]
      ensures Outputs() == old(Outputs())
    {
      log := log + [Event.AbsorbG(gs)];
      assert log[..|log| - 1] == old(log);
    }

    /** `challenge`: squeeze the next challenge. */
    method Challenge() returns (c: Fr)
      modifies this
      ensures c == Digest(impl, params, old(log))
      ensures log == old(log) + [Squeeze]
      ensures Outputs() == old(Outputs()) + [c]
    {
      c := Digest(impl, params, log);
      log := log + [Squeeze];
      assert log[..|log| - 1] == old(log);
    }
  }
}
