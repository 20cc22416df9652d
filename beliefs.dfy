/**
 The included-belief table (`beliefs_df`): one record per included belief,
 in catalogue order, each carrying a perception value per behaviour and a
 relationship value per included belief.
 */
module Beliefs {
  import opened Collections
  import opened Sampling
  import opened Catalogue

  datatype Belief = Belief(
    name: string,
    uuid: Uuid,
    perceptions: map<Uuid, real>,
    relationships: map<Uuid, real>)

  /** A belief x behaviour table of distributions with its draws. */
  predicate PerceptionInputs(t: seq<seq<Param>>, z: seq<seq<real>>) {
    Rect(t, N_BELIEFS, N_BEHAVIOURS) && DrawsFit(t, z)
  }

  /** A belief x belief table of distributions with its draws. */
  predicate RelationshipInputs(t: seq<seq<Param>>, z: seq<seq<real>>) {
    Rect(t, N_BELIEFS, N_BELIEFS) && DrawsFit(t, z)
  }

  /** The perception map of belief `i`: one sampled value per behaviour, keyed by its identifier. */
  function Perceptions(i: nat, perc: seq<seq<Param>>, percZ: seq<seq<real>>): (m: map<Uuid, real>)
    requires PerceptionInputs(perc, percZ) && i < N_BELIEFS
    ensures m.Keys == Elems(BehaviourUuids())
    ensures forall j :: 0 <= j < N_BEHAVIOURS ==> m[BehaviourUuid(j)] == CellSample(perc, percZ, i, j)
    ensures forall u :: u in m ==> -1.0 <= m[u] <= 1.0
  {
    BehaviourUuidsDistinct();
    ZipMap(BehaviourUuids(), PerceptionRow(i, perc, percZ))
  }

  /** Row `i` of the perception table: one sampled value per behaviour. */
  function PerceptionRow(i: nat, perc: seq<seq<Param>>, percZ: seq<seq<real>>): (vals: seq<real>)
    requires PerceptionInputs(perc, percZ) && i < N_BELIEFS
    ensures |vals| == N_BEHAVIOURS
    ensures forall j :: 0 <= j < N_BEHAVIOURS ==> vals[j] == CellSample(perc, percZ, i, j)
    ensures forall k :: 0 <= k < |vals| ==> -1.0 <= vals[k] <= 1.0
  {
    seq(N_BEHAVIOURS, j requires 0 <= j < N_BEHAVIOURS => CellSample(perc, percZ, i, j))
  }

  /**
   The relationship map of belief `i`: one sampled value per included
   belief, keyed by its identifier.
   */
  function Relationships(mask: seq<bool>, i: nat, rel: seq<seq<Param>>, relZ: seq<seq<real>>): (m: map<Uuid, real>)
    requires |mask| == N_BELIEFS && RelationshipInputs(rel, relZ) && i < N_BELIEFS
    ensures m.Keys == Elems(IncludedBeliefUuids(mask))
    ensures forall k :: 0 <= k < |IncludedIndices(mask)| ==>
              m[BeliefUuid(IncludedIndices(mask)[k])] == CellSample(rel, relZ, i, IncludedIndices(mask)[k])
    ensures forall u :: u in m ==> -1.0 <= m[u] <= 1.0
  {
    var vals := RelationshipRow(mask, i, rel, relZ);
    var m := BeliefMap(mask, vals);
    forall b | b in m ensures -1.0 <= m[b] <= 1.0 {
      var k := BeliefMapValue(mask, vals, b);
    }
    m
  }

  /** Row `i` of the relationship table, restricted to the included columns. */
  function RelationshipRow(mask: seq<bool>, i: nat, rel: seq<seq<Param>>, relZ: seq<seq<real>>): (vals: seq<real>)
    requires |mask| == N_BELIEFS && RelationshipInputs(rel, relZ) && i < N_BELIEFS
    ensures |vals| == |IncludedIndices(mask)|
    ensures forall k :: 0 <= k < |vals| ==> vals[k] == CellSample(rel, relZ, i, IncludedIndices(mask)[k])
    ensures forall k :: 0 <= k < |vals| ==> -1.0 <= vals[k] <= 1.0
  {
    var idx := IncludedIndices(mask);
    seq(|idx|, k requires 0 <= k < |idx| => CellSample(rel, relZ, i, idx[k]))
  }

  /** The record of belief `i`: its name, identifier and sampled maps. */
  function BeliefRecord(mask: seq<bool>, i: nat, perc: seq<seq<Param>>, percZ: seq<seq<real>>,
                        rel: seq<seq<Param>>, relZ: seq<seq<real>>): (b: Belief)
    requires |mask| == N_BELIEFS && PerceptionInputs(perc, percZ) && RelationshipInputs(rel, relZ)
    requires i < N_BELIEFS
    ensures b.name == BeliefName(i) && b.uuid == BeliefUuid(i)
    ensures b.perceptions.Keys == Elems(BehaviourUuids())
    ensures forall j :: 0 <= j < N_BEHAVIOURS ==> b.perceptions[BehaviourUuid(j)] == CellSample(perc, percZ, i, j)
    ensures b.relationships.Keys == Elems(IncludedBeliefUuids(mask))
    ensures forall u :: u in b.perceptions ==> -1.0 <= b.perceptions[u] <= 1.0
    ensures forall u :: u in b.relationships ==> -1.0 <= b.relationships[u] <= 1.0
  {
    Belief(BeliefName(i), BeliefUuid(i), Perceptions(i, perc, percZ), Relationships(mask, i, rel, relZ))
  }

  /**
   `beliefs_df`: the rows of the included beliefs, in catalogue order, with
   their sampled perception and relationship maps.
   */
  function BeliefsTable(mask: seq<bool>, perc: seq<seq<Param>>, percZ: seq<seq<real>>,
                        rel: seq<seq<Param>>, relZ: seq<seq<real>>): (t: seq<Belief>)
    requires |mask| == N_BELIEFS && PerceptionInputs(perc, percZ) && RelationshipInputs(rel, relZ)
    ensures |t| == |IncludedIndices(mask)|
    ensures forall k :: 0 <= k < |t| ==> t[k] == BeliefRecord(mask, IncludedIndices(mask)[k], perc, percZ, rel, relZ)
    ensures forall k :: 0 <= k < |t| ==> t[k].uuid == IncludedBeliefUuids(mask)[k]
  {
    var idx := IncludedIndices(mask);
    seq(|idx|, k requires 0 <= k < |idx| => BeliefRecord(mask, idx[k], perc, percZ, rel, relZ))
  }

  /** The identifiers of the beliefs of a table. */
  function TableIds(t: seq<Belief>): set<Uuid> {
    set k | 0 <= k < |t| :: t[k].uuid
  }

  /** The belief table holds exactly the included beliefs' identifiers. */
  lemma BeliefsTableIds(mask: seq<bool>, perc: seq<seq<Param>>, percZ: seq<seq<real>>,
                        rel: seq<seq<Param>>, relZ: seq<seq<real>>)
    requires |mask| == N_BELIEFS && PerceptionInputs(perc, percZ) && RelationshipInputs(rel, relZ)
    ensures TableIds(BeliefsTable(mask, perc, percZ, rel, relZ)) == Elems(IncludedBeliefUuids(mask))
  {
    var t := BeliefsTable(mask, perc, percZ, rel, relZ);
    var ids := IncludedBeliefUuids(mask);
    forall x | x in Elems(ids) ensures x in TableIds(t) {
      var k := Position(ids, x);
      assert t[k].uuid == x;
    }
  }

  /** With every belief included (this variant's mask) the table has 20 rows. */
  lemma BeliefsTableIncludeAll(perc: seq<seq<Param>>, percZ: seq<seq<real>>,
                               rel: seq<seq<Param>>, relZ: seq<seq<real>>)
    requires PerceptionInputs(perc, percZ) && RelationshipInputs(rel, relZ)
    ensures |BeliefsTable(INCLUDE_ALL, perc, percZ, rel, relZ)| == N_BELIEFS
    ensures forall k :: 0 <= k < N_BELIEFS ==> BeliefsTable(INCLUDE_ALL, perc, percZ, rel, relZ)[k].name == BeliefName(k)
  {
    IncludeAllIndices();
  }
}
