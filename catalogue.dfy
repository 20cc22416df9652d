/**
 The fixed catalogues of the generator (4 behaviours, 20 candidate
 beliefs), the identifiers derived from names, and the belief inclusion
 mask.

 `uuid5(namespace, name)` is a SHA-1 based hash; it is modelled as the
 free constructor `Uuid5(namespace, name)`, so two identifiers are equal
 exactly when namespace and name are equal (hash collisions are ignored).
 */
module Catalogue {
  import opened Collections

  datatype Uuid = Uuid5(namespace: string, name: string)

  const BEHAVIOUR_NAMESPACE: string := "24875ff2-c3ee-449a-85ad-c271bd369caf"
  const BELIEF_NAMESPACE: string := "034d3135-f1f0-441b-a476-9fac37cafc92"
  const AGENT_NAMESPACE: string := "1a9e3ee9-a068-41f8-9f46-a5f684f0101e"

  const BEHAVIOURS: seq<string> := ["Walk", "Cycle", "PT", "Drive"]

  /** The catalogue of candidate beliefs: the name of belief `i`. */
  function BeliefName(i: nat): string
    requires i < N_BELIEFS
  {
    match i
    case 0 => "I care about the environment"
    case 1 => "I want to get to work quickly"
    case 2 => "I care about the social importance of the car"
    case 3 => "I want to keep fit"
    case 4 => "I do not want to perform exercise on my commute"
    case 5 => "Cycling is hard work"
    case 6 => "I'm not fit enough to walk"
    case 7 => "I don't think cycling is cool / fun"
    case 8 => "Car driving is more convenient"
    case 9 => "I'm scared of getting hit by a car"
    case 10 => "My bike might get stolen"
    case 11 => "Cycling is dangerous"
    case 12 => "I get to see the environment when I cycle"
    case 13 => "Walking allows me to experience the environment"
    case 14 => "I feel unsafe walking"
    case 15 => "Driving / PT allows me to get to work not sweaty"
    case 16 => "The traffic is too bad to drive"
    case 17 => "Driving lets me get to work on time"
    case 18 => "PT is unreliable"
    case 19 => "My car is bad"
  }

  const N_BEHAVIOURS: nat := 4
  const N_BELIEFS: nat := 20

  /** The identifier of behaviour `j` of the catalogue. */
  function BehaviourUuid(j: nat): Uuid
    requires j < N_BEHAVIOURS
  {
    Uuid5(BEHAVIOUR_NAMESPACE, BEHAVIOURS[j])
  }

  /** The identifier of belief `i` of the catalogue. */
  function BeliefUuid(i: nat): Uuid
    requires i < N_BELIEFS
  {
    Uuid5(BELIEF_NAMESPACE, BeliefName(i))
  }

  /** `behaviour_uuids`, in catalogue order. */
  function BehaviourUuids(): (ids: seq<Uuid>)
    ensures |ids| == N_BEHAVIOURS
    ensures forall j :: 0 <= j < N_BEHAVIOURS ==> ids[j] == BehaviourUuid(j)
  {
    seq(N_BEHAVIOURS, j requires 0 <= j < N_BEHAVIOURS => BehaviourUuid(j))
  }

  /** `belief_uuids`, in catalogue order. */
  function BeliefUuids(): (ids: seq<Uuid>)
    ensures |ids| == N_BELIEFS
    ensures forall i :: 0 <= i < N_BELIEFS ==> ids[i] == BeliefUuid(i)
  {
    seq(N_BELIEFS, i requires 0 <= i < N_BELIEFS => BeliefUuid(i))
  }

  /** Different catalogue behaviours have different identifiers. */
  lemma BehaviourUuidsDistinct()
    ensures Distinct(BehaviourUuids())
  {
    assert |BEHAVIOURS[0]| == 4 && |BEHAVIOURS[1]| == 5 && |BEHAVIOURS[2]| == 2 && |BEHAVIOURS[3]| == 5;
    assert BEHAVIOURS[1][0] == 'C' && BEHAVIOURS[3][0] == 'D';
  }

  /** Lengths of the belief names, which tell most of them apart. */
  const BELIEF_NAME_LENGTHS: seq<nat> :=
    [28, 29, 45, 18, 47, 20, 26, 35, 30, 34, 24, 20, 41, 47, 21, 48, 31, 35, 16, 13]

  /** The lengths of the first ten belief names. */
  lemma BeliefNameLengthLow(i: nat)
    requires i < 10
    ensures |BeliefName(i)| == BELIEF_NAME_LENGTHS[i]
  {
  }

  /** The lengths of the last ten belief names. */
  lemma BeliefNameLengthHigh(i: nat)
    requires 10 <= i < N_BELIEFS
    ensures |BeliefName(i)| == BELIEF_NAME_LENGTHS[i]
  {
  }

  /** Only three pairs of belief names have the same length. */
  lemma LengthCollisions(i: nat, j: nat)
    requires i < j < N_BELIEFS && BELIEF_NAME_LENGTHS[i] == BELIEF_NAME_LENGTHS[j]
    ensures (i == 4 && j == 13) || (i == 5 && j == 11) || (i == 7 && j == 17)
  {
  }

  /** The three pairs of names of equal length differ in one character. */
  lemma EqualLengthBeliefNamesDiffer()
    ensures BeliefName(4) != BeliefName(13) && BeliefName(5) != BeliefName(11) && BeliefName(7) != BeliefName(17)
  {
    assert BeliefName(4)[46] == 'e' && BeliefName(13)[46] == 't';
    assert BeliefName(5)[19] == 'k' && BeliefName(11)[19] == 's';
    assert BeliefName(7)[34] == 'n' && BeliefName(17)[34] == 'e';
  }

  /** No two catalogue beliefs share a name. */
  lemma BeliefNamesDiffer(i: nat, j: nat)
    requires i < j < N_BELIEFS
    ensures BeliefName(i) != BeliefName(j)
  {
    if i < 10 { BeliefNameLengthLow(i); } else { BeliefNameLengthHigh(i); }
    if j < 10 { BeliefNameLengthLow(j); } else { BeliefNameLengthHigh(j); }
    if BELIEF_NAME_LENGTHS[i] == BELIEF_NAME_LENGTHS[j] {
      LengthCollisions(i, j);
      EqualLengthBeliefNamesDiffer();
    }
  }

  /** Different catalogue beliefs have different identifiers. */
  lemma BeliefUuidsDistinct()
    ensures Distinct(BeliefUuids())
  {
    var ids := BeliefUuids();
    forall p, q | 0 <= p < q < |ids| ensures ids[p] != ids[q] {
      BeliefNamesDiffer(p, q);
    }
  }

  /** `uuid5` over the belief catalogue is injective. */
  lemma BeliefUuidInjective(i: nat, j: nat)
    requires i < N_BELIEFS && j < N_BELIEFS
    ensures BeliefUuid(i) == BeliefUuid(j) <==> i == j
  {
    if i < j {
      BeliefNamesDiffer(i, j);
    } else if j < i {
      BeliefNamesDiffer(j, i);
    }
  }

  /** `uuid5` over the behaviour catalogue is injective. */
  lemma BehaviourUuidInjective(i: nat, j: nat)
    requires i < N_BEHAVIOURS && j < N_BEHAVIOURS
    ensures BehaviourUuid(i) == BehaviourUuid(j) <==> i == j
  {
    BehaviourUuidsDistinct();
    var ids := BehaviourUuids();
    if i < j {
      assert ids[i] != ids[j];
    } else if j < i {
      assert ids[j] != ids[i];
    }
  }

  // ---------------------------------------------------------------------
  // Agent identifiers: uuid5 of "agent_20221019v1_<i>"

  const AGENT_NAME_PREFIX: string := "agent_20221019v1_"

  /** The decimal digit `d` as a character. */
  function DigitChar(d: nat): (c: char)
    requires d < 10
    ensures '0' <= c <= '9'
  {
    ('0' as int + d) as char
  }

  /** Python's `str(n)` for a non-negative integer: its decimal digits. */
  function NatToString(n: nat): (s: string)
    ensures 1 <= |s|
    ensures n < 10 <==> |s| == 1
    ensures forall k :: 0 <= k < |s| ==> '0' <= s[k] <= '9'
  {
    if n < 10 then [DigitChar(n)] else NatToString(n / 10) + [DigitChar(n % 10)]
  }

  /** Different numbers print differently. */
  lemma {:induction false} NatToStringInjective(a: nat, b: nat)
    requires NatToString(a) == NatToString(b)
    ensures a == b
  {
    var s := NatToString(a);
    if a < 10 {
      assert DigitChar(a) == s[0] == DigitChar(b);
    } else {
      var n := |s| - 1;
      assert DigitChar(a % 10) == s[n] == DigitChar(b % 10);
      assert NatToString(a / 10) == s[..n] == NatToString(b / 10);
      NatToStringInjective(a / 10, b / 10);
    }
  }

  /** The name the source gives agent `i`. */
  function AgentName(i: nat): string {
    AGENT_NAME_PREFIX + NatToString(i)
  }

  /** The identifier of agent `i`. */
  function AgentUuid(i: nat): Uuid {
    Uuid5(AGENT_NAMESPACE, AgentName(i))
  }

  /** The identifiers of agents 0 .. n-1. */
  function AgentUuids(n: nat): set<Uuid> {
    set v | 0 <= v < n :: AgentUuid(v)
  }

  /** Different agents have different identifiers. */
  lemma AgentUuidInjective(i: nat, j: nat)
    requires AgentUuid(i) == AgentUuid(j)
    ensures i == j
  {
    var p := AGENT_NAME_PREFIX;
    assert NatToString(i) == AgentName(i)[|p|..] == AgentName(j)[|p|..] == NatToString(j);
    NatToStringInjective(i, j);
  }

  // ---------------------------------------------------------------------
  // Belief inclusion

  /** The inclusion mask of this generator variant: every belief is included. */
  const INCLUDE_ALL: seq<bool> := seq(N_BELIEFS, _ => true)

  /** Strictly increasing sequence of indices. */
  predicate Increasing(s: seq<nat>) {
    forall p, q :: 0 <= p < q < |s| ==> s[p] < s[q]
  }

  /**
   The positions of the set entries of the mask (numpy's `where`), in
   ascending order.
   */
  function IncludedIndices(mask: seq<bool>): (idx: seq<nat>)
    ensures Increasing(idx)
    ensures forall k :: 0 <= k < |idx| ==> idx[k] < |mask| && mask[idx[k]]
    ensures forall i :: 0 <= i < |mask| && mask[i] ==> i in idx
    ensures |idx| <= |mask|
  {
    if mask == [] then []
    else
      var n := |mask| - 1;
      var prev := IncludedIndices(mask[..n]);
      assert forall i :: 0 <= i < n ==> mask[..n][i] == mask[i];
      prev + (if mask[n] then [n] else [])
  }

  /** With every entry set, the included indices are 0, 1, ..., n-1. */
  lemma {:induction false} AllSetIndices(mask: seq<bool>)
    requires forall i :: 0 <= i < |mask| ==> mask[i]
    ensures |IncludedIndices(mask)| == |mask|
    ensures forall k :: 0 <= k < |mask| ==> IncludedIndices(mask)[k] == k
  {
    if mask != [] {
      var n := |mask| - 1;
      AllSetIndices(mask[..n]);
    }
  }

  /** This variant's mask includes all 20 beliefs, in catalogue order. */
  lemma IncludeAllIndices()
    ensures |IncludedIndices(INCLUDE_ALL)| == N_BELIEFS
    ensures forall k :: 0 <= k < N_BELIEFS ==> IncludedIndices(INCLUDE_ALL)[k] == k
  {
    AllSetIndices(INCLUDE_ALL);
  }

  /** The identifiers of the included beliefs, in catalogue order. */
  function IncludedBeliefUuids(mask: seq<bool>): (ids: seq<Uuid>)
    requires |mask| == N_BELIEFS
    ensures |ids| == |IncludedIndices(mask)|
    ensures forall k :: 0 <= k < |ids| ==> ids[k] == BeliefUuid(IncludedIndices(mask)[k])
  {
    var idx := IncludedIndices(mask);
    seq(|idx|, k requires 0 <= k < |idx| => BeliefUuid(idx[k]))
  }

  /** A belief identifier is among the included ones exactly when its mask entry is set. */
  lemma IncludedBeliefUuidsMembership(mask: seq<bool>, i: nat)
    requires |mask| == N_BELIEFS && i < N_BELIEFS
    ensures BeliefUuid(i) in IncludedBeliefUuids(mask) <==> mask[i]
  {
    var idx := IncludedIndices(mask);
    var ids := IncludedBeliefUuids(mask);
    if mask[i] {
      var k :| 0 <= k < |idx| && idx[k] == i;
      assert ids[k] == BeliefUuid(i);
    }
    if BeliefUuid(i) in ids {
      var k :| 0 <= k < |ids| && ids[k] == BeliefUuid(i);
      BeliefUuidInjective(idx[k], i);
    }
  }

  /** The included identifiers are pairwise different. */
  lemma IncludedBeliefUuidsDistinct(mask: seq<bool>)
    requires |mask| == N_BELIEFS
    ensures Distinct(IncludedBeliefUuids(mask))
  {
    var idx := IncludedIndices(mask);
    var ids := IncludedBeliefUuids(mask);
    forall p, q | 0 <= p < q < |ids| ensures ids[p] != ids[q] {
      if ids[p] == ids[q] {
        BeliefUuidInjective(idx[p], idx[q]);
      }
    }
  }

  /**
   A dict comprehension over the included beliefs: the k-th included
   belief's identifier is mapped to `vals[k]`.
   */
  function BeliefMap<V>(mask: seq<bool>, vals: seq<V>): (m: map<Uuid, V>)
    requires |mask| == N_BELIEFS && |vals| == |IncludedIndices(mask)|
    ensures m.Keys == Elems(IncludedBeliefUuids(mask))
    ensures forall k :: 0 <= k < |vals| ==> m[BeliefUuid(IncludedIndices(mask)[k])] == vals[k]
  {
    IncludedBeliefUuidsDistinct(mask);
    ZipMap(IncludedBeliefUuids(mask), vals)
  }

  /** Every value of a belief map is one of the values it was built from. */
  lemma BeliefMapValue<V>(mask: seq<bool>, vals: seq<V>, b: Uuid) returns (k: nat)
    requires |mask| == N_BELIEFS && |vals| == |IncludedIndices(mask)|
    requires b in BeliefMap(mask, vals)
    ensures k < |vals| && BeliefMap(mask, vals)[b] == vals[k]
  {
    var ids := IncludedBeliefUuids(mask);
    k := Position(ids, b);
  }
}
