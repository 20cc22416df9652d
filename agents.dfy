/**
 Per-agent state at time 0: deltas, activations (with the scenario's
 override of belief 11) and the activation row fed to the choice of the
 initial action.
 */
module Agents {
  import opened Collections
  import opened Sampling
  import opened Catalogue

  /** Activations of one agent, by time step; the generator fills step 0 only. */
  type Timeline = map<nat, map<Uuid, real>>

  /**
   An agent's deltas: one entry per included belief, keyed by its
   identifier, holding the delta transform of the agent's normal draw `x`
   for that belief.
   */
  function DeltaMap(mask: seq<bool>, x: seq<real>): (m: map<Uuid, real>)
    requires |mask| == N_BELIEFS && |x| == N_BELIEFS
    ensures m.Keys == Elems(IncludedBeliefUuids(mask))
    ensures forall k :: 0 <= k < |IncludedIndices(mask)| ==>
              m[BeliefUuid(IncludedIndices(mask)[k])] == Delta(x[IncludedIndices(mask)[k]])
    ensures forall b :: b in m ==> m[b] >= DELTA_FLOOR
  {
    var vals := DeltaRow(mask, x);
    var m := BeliefMap(mask, vals);
    forall b | b in m ensures m[b] >= DELTA_FLOOR {
      var k := BeliefMapValue(mask, vals, b);
    }
    m
  }

  /** The deltas of the included beliefs, in belief order. */
  function DeltaRow(mask: seq<bool>, x: seq<real>): (vals: seq<real>)
    requires |mask| == N_BELIEFS && |x| == N_BELIEFS
    ensures |vals| == |IncludedIndices(mask)|
    ensures forall k :: 0 <= k < |vals| ==> vals[k] == Delta(x[IncludedIndices(mask)[k]])
    ensures forall k :: 0 <= k < |vals| ==> vals[k] >= DELTA_FLOOR
  {
    var idx := IncludedIndices(mask);
    seq(|idx|, k requires 0 <= k < |idx| => Delta(x[idx[k]]))
  }

  /**
   The draws consumed by `random_activation` for `n` beliefs: a uniform
   `u[k]` each, and a standardised normal `z[k]` that matters only when
   `u[k]` exceeds 0.5.
   */
  predicate ActivationDraws(n: nat, u: seq<real>, z: seq<real>) {
    && |u| == n && |z| == n
    && forall k :: 0 <= k < n ==> (u[k] > ZERO_ACTIVATION_PROBABILITY ==> ActivationDist().InSupport(z[k]))
  }

  /** One `random_activation()` per pair of draws, each in [-1, 1]. */
  function RandomActivations(u: seq<real>, z: seq<real>): (vals: seq<real>)
    requires ActivationDraws(|u|, u, z)
    ensures |vals| == |u|
    ensures forall k :: 0 <= k < |u| ==> vals[k] == RandomActivation(u[k], z[k])
    ensures forall k :: 0 <= k < |vals| ==> -1.0 <= vals[k] <= 1.0
  {
    seq(|u|, k requires 0 <= k < |u| => RandomActivation(u[k], z[k]))
  }

  /** An agent's time-0 activations: one `random_activation` per included belief, keyed by its identifier. */
  function InitialActivations(mask: seq<bool>, u: seq<real>, z: seq<real>): (m: map<Uuid, real>)
    requires |mask| == N_BELIEFS && ActivationDraws(|IncludedIndices(mask)|, u, z)
    ensures m.Keys == Elems(IncludedBeliefUuids(mask))
    ensures forall k :: 0 <= k < |IncludedIndices(mask)| ==>
              m[BeliefUuid(IncludedIndices(mask)[k])] == RandomActivation(u[k], z[k])
    ensures forall b :: b in m ==> -1.0 <= m[b] <= 1.0
  {
    var vals := RandomActivations(u, z);
    var m := BeliefMap(mask, vals);
    forall b | b in m ensures -1.0 <= m[b] <= 1.0 {
      var k := BeliefMapValue(mask, vals, b);
    }
    m
  }

  // ---------------------------------------------------------------------
  // The scenario's override of belief 11 ("Cycling is dangerous")

  const OVERRIDE_BELIEF: nat := 11
  const OVERRIDE_PROBABILITY: real := 0.4

  /** The distribution of an overridden activation: `truncn_at_m1_1` at location -0.5, scale 0.15. */
  function OverrideDist(): (d: TruncNorm)
    ensures d.Valid() && d.Lower() == -1.0 && d.Upper() == 1.0
  {
    TruncnAtM11(-0.5, 0.15)
  }

  /** A uniform draw `u` and, used only when `u` is at most 0.4, a standardised draw `z`. */
  predicate OverrideDraw(u: real, z: real) {
    u <= OVERRIDE_PROBABILITY ==> OverrideDist().InSupport(z)
  }

  /**
   The activation map at time 0 after the override: with probability 0.4
   the value of belief 11 is replaced by a fresh draw; nothing else changes.
   */
  function Overridden(m: map<Uuid, real>, u: real, z: real): (r: map<Uuid, real>)
    requires OverrideDraw(u, z)
    ensures r.Keys == if u <= OVERRIDE_PROBABILITY then m.Keys + {BeliefUuid(OVERRIDE_BELIEF)} else m.Keys
    ensures forall b :: b in m && b != BeliefUuid(OVERRIDE_BELIEF) ==> r[b] == m[b]
    ensures u <= OVERRIDE_PROBABILITY ==> r[BeliefUuid(OVERRIDE_BELIEF)] == OverrideDist().Sample(z)
    ensures u > OVERRIDE_PROBABILITY ==> r == m
    ensures (forall b :: b in m ==> -1.0 <= m[b] <= 1.0) ==> forall b :: b in r ==> -1.0 <= r[b] <= 1.0
  {
    if u <= OVERRIDE_PROBABILITY then m[BeliefUuid(OVERRIDE_BELIEF) := OverrideDist().Sample(z)] else m
  }

  /**
   When belief 11 is included (as with the all-ones mask) the override
   only rewrites an existing key: the key set is still exactly the
   included belief identifiers.
   */
  lemma OverrideKeepsKeys(mask: seq<bool>, m: map<Uuid, real>, u: real, z: real)
    requires |mask| == N_BELIEFS && mask[OVERRIDE_BELIEF]
    requires m.Keys == Elems(IncludedBeliefUuids(mask)) && OverrideDraw(u, z)
    ensures Overridden(m, u, z).Keys == Elems(IncludedBeliefUuids(mask))
  {
    IncludedBeliefUuidsMembership(mask, OVERRIDE_BELIEF);
  }

  /**
   When belief 11 is excluded, an override adds it as a key that no other
   table of the scenario knows.
   */
  lemma OverrideAddsExcludedKey(mask: seq<bool>, m: map<Uuid, real>, u: real, z: real)
    requires |mask| == N_BELIEFS && !mask[OVERRIDE_BELIEF]
    requires m.Keys == Elems(IncludedBeliefUuids(mask)) && OverrideDraw(u, z)
    requires u <= OVERRIDE_PROBABILITY
    ensures BeliefUuid(OVERRIDE_BELIEF) in Overridden(m, u, z)
    ensures BeliefUuid(OVERRIDE_BELIEF) !in IncludedBeliefUuids(mask)
  {
    IncludedBeliefUuidsMembership(mask, OVERRIDE_BELIEF);
  }

  /**
   The override loop: agent by agent, the time-0 activation of belief 11
   is rewritten in place when the agent's uniform draw is at most 0.4.
   */
  method OverrideBelief11(acts: array<Timeline>, u: seq<real>, z: seq<real>)
    requires |u| == acts.Length && |z| == acts.Length
    requires forall a :: 0 <= a < acts.Length ==> OverrideDraw(u[a], z[a]) && 0 in acts[a]
    modifies acts
    ensures forall a :: 0 <= a < acts.Length ==>
              acts[a] == old(acts[a])[0 := Overridden(old(acts[a])[0], u[a], z[a])]
  {
    var a := 0;
    while a < acts.Length
      invariant 0 <= a <= acts.Length
      invariant forall b :: 0 <= b < a ==> acts[b] == old(acts[b])[0 := Overridden(old(acts[b])[0], u[b], z[b])]
      invariant forall b :: a <= b < acts.Length ==> acts[b] == old(acts[b])
    {
      if u[a] <= OVERRIDE_PROBABILITY {
        acts[a] := acts[a][0 := acts[a][0][BeliefUuid(OVERRIDE_BELIEF) := OverrideDist().Sample(z[a])]];
      }
      a := a + 1;
    }
  }

  /**
   The agent's row of the activation matrix: its time-0 activations, in
   included-belief order.
   */
  function ActivationRow(mask: seq<bool>, m: map<Uuid, real>): (row: seq<real>)
    requires |mask| == N_BELIEFS
    requires forall b :: b in IncludedBeliefUuids(mask) ==> b in m
    ensures |row| == |IncludedIndices(mask)|
    ensures forall k :: 0 <= k < |row| ==> row[k] == m[BeliefUuid(IncludedIndices(mask)[k])]
  {
    var ids := IncludedBeliefUuids(mask);
    seq(|ids|, k requires 0 <= k < |ids| => m[ids[k]])
  }
}
