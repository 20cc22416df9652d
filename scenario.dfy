/**
 The whole scenario as the generator assembles it: the included-belief
 table, the PRS list and one record per agent (identifier, friends,
 deltas, time-0 activations and initial action), computed from the
 catalogues, the inclusion mask and the random draws.
 */
module Scenario {
  import opened Collections
  import opened Sampling
  import opened Catalogue
  import opened Beliefs
  import opened Prs
  import opened Network
  import opened Agents
  import opened Actions

  datatype Agent = Agent(
    uuid: Uuid,
    friends: map<Uuid, real>,
    deltas: map<Uuid, real>,
    activations: Timeline,
    actions: map<nat, Uuid>)

  datatype Scenario = Scenario(beliefs: seq<Belief>, prs: seq<PrsEntry>, agents: seq<Agent>)

  /**
   Everything the generator draws or is handed: the per-cell distribution
   tables with their standardised draws, the Watts–Strogatz edge list, and
   the uniform and normal draws of the agent loops.
   */
  datatype Inputs = Inputs(
    perceptions: seq<seq<Param>>, perceptionZ: seq<seq<real>>,
    relationships: seq<seq<Param>>, relationshipZ: seq<seq<real>>,
    prsTable: seq<seq<Param>>, prsZ: seq<seq<real>>,
    network: seq<Edge>,
    selfFriendship: seq<real>,
    weightZ: seq<real>,
    deltaX: seq<seq<real>>,
    activationU: seq<seq<real>>, activationZ: seq<seq<real>>,
    overrideU: seq<real>, overrideZ: seq<real>)

  /** The distribution tables come with one draw per cell. */
  predicate TablesFit(d: Inputs) {
    && PerceptionInputs(d.perceptions, d.perceptionZ)
    && RelationshipInputs(d.relationships, d.relationshipZ)
    && PrsInputs(d.prsTable, d.prsZ)
  }

  /**
   The Watts–Strogatz edge list is a simple graph on agents 0 .. n-1 with
   no self-loop, with a uniform draw per agent and enough weight draws for
   every edge and every possible self-loop.
   */
  predicate NetworkFits(n: nat, d: Inputs) {
    && (forall k :: 0 <= k < |d.network| ==> d.network[k].0 < d.network[k].1 < n)
    && Distinct(d.network)
    && |d.selfFriendship| == n
    && |d.weightZ| >= |d.network| + n
    && (forall k :: 0 <= k < |d.weightZ| ==> WDistGen().InSupport(d.weightZ[k]))
  }

  /** Per agent: a row of delta draws, activation draws per included belief and an override draw. */
  predicate AgentDrawsFit(mask: seq<bool>, n: nat, d: Inputs)
    requires |mask| == N_BELIEFS
  {
    && |d.deltaX| == n && (forall a :: 0 <= a < n ==> |d.deltaX[a]| == N_BELIEFS)
    && |d.activationU| == n && |d.activationZ| == n
    && (forall a :: 0 <= a < n ==> ActivationDraws(|IncludedIndices(mask)|, d.activationU[a], d.activationZ[a]))
    && |d.overrideU| == n && |d.overrideZ| == n
    && (forall a :: 0 <= a < n ==> OverrideDraw(d.overrideU[a], d.overrideZ[a]))
  }

  /** The inputs fit a run with mask `mask` and `n` agents. */
  predicate InputsFit(mask: seq<bool>, n: nat, d: Inputs) {
    |mask| == N_BELIEFS && TablesFit(d) && NetworkFits(n, d) && AgentDrawsFit(mask, n, d)
  }

  // ---------------------------------------------------------------------
  // The scenario, stated as values

  /** The network's edge view after the self-loop loop. */
  function FinalEdges(d: Inputs): (edges: seq<Edge>)
    ensures |edges| <= |d.network| + |d.selfFriendship|
  {
    WithSelfLoops(d.network, d.selfFriendship)
  }

  /** The edge weights after the weight loop. */
  function FinalWeights(mask: seq<bool>, n: nat, d: Inputs): (w: map<Edge, real>)
    requires InputsFit(mask, n, d)
    ensures w.Keys == Elems(FinalEdges(d))
    ensures forall e :: e in w ==> 0.0 <= w[e] <= 1.0
  {
    var edges := FinalEdges(d);
    EdgeWeights(edges, d.weightZ[..|edges|])
  }

  /** Agent `a`'s time-0 activations after the override. */
  function ActivationsOf(mask: seq<bool>, n: nat, d: Inputs, a: nat): (m: map<Uuid, real>)
    requires InputsFit(mask, n, d) && a < n
    ensures forall b :: b in IncludedBeliefUuids(mask) ==> b in m
    ensures forall b :: b in m ==> -1.0 <= m[b] <= 1.0
  {
    Overridden(InitialActivations(mask, d.activationU[a], d.activationZ[a]), d.overrideU[a], d.overrideZ[a])
  }

  /** Agent `a`'s initial action: the first best behaviour for its activations. */
  function InitialAction(mask: seq<bool>, n: nat, d: Inputs, a: nat): (j: nat)
    requires InputsFit(mask, n, d) && a < n
    ensures j < N_BEHAVIOURS
    ensures IsFirstMax(Scores(ActivationRow(mask, ActivationsOf(mask, n, d, a)), IncludedPrsValues(mask, d.prsTable, d.prsZ)), j)
  {
    ArgMax(Scores(ActivationRow(mask, ActivationsOf(mask, n, d, a)), IncludedPrsValues(mask, d.prsTable, d.prsZ)))
  }

  /** The record of agent `a`. */
  function AgentOf(mask: seq<bool>, n: nat, d: Inputs, a: nat): Agent
    requires InputsFit(mask, n, d) && a < n
  {
    Agent(
      AgentUuid(a),
      FriendsOf(FinalEdges(d), FinalWeights(mask, n, d), a),
      DeltaMap(mask, d.deltaX[a]),
      map[0 := ActivationsOf(mask, n, d, a)],
      map[0 := BehaviourUuid(InitialAction(mask, n, d, a))])
  }

  /** The scenario the generator writes out. */
  function Assemble(mask: seq<bool>, n: nat, d: Inputs): (s: Scenario)
    requires InputsFit(mask, n, d)
    ensures |s.agents| == n
  {
    Scenario(
      BeliefsTable(mask, d.perceptions, d.perceptionZ, d.relationships, d.relationshipZ),
      PrsList(mask, d.prsTable, d.prsZ),
      seq(n, a requires 0 <= a < n => AgentOf(mask, n, d, a)))
  }

  // ---------------------------------------------------------------------
  // Cross-references between the tables

  /** The identifiers of the beliefs in the scenario's belief table. */
  function BeliefIds(s: Scenario): set<Uuid> {
    TableIds(s.beliefs)
  }

  /** The identifiers of the scenario's agents. */
  function AgentIds(s: Scenario): set<Uuid> {
    set a | 0 <= a < |s.agents| :: s.agents[a].uuid
  }

  /** Every belief's relationships are keyed by exactly the beliefs of the table. */
  predicate RelationshipsClosed(s: Scenario) {
    forall k :: 0 <= k < |s.beliefs| ==> s.beliefs[k].relationships.Keys == BeliefIds(s)
  }

  /** Every PRS entry names a belief of the table and a catalogue behaviour. */
  predicate PrsClosed(s: Scenario) {
    forall e :: e in s.prs ==> e.beliefUuid in BeliefIds(s) && e.behaviourUuid in BehaviourUuids()
  }

  /**
   Agent `a`'s deltas and time-0 activations are keyed by exactly the
   beliefs of the table, its time-0 action is a catalogue behaviour and
   its friends are agents of the scenario.
   */
  predicate AgentClosed(s: Scenario, a: nat)
    requires a < |s.agents|
  {
    && s.agents[a].deltas.Keys == BeliefIds(s)
    && 0 in s.agents[a].activations && s.agents[a].activations[0].Keys == BeliefIds(s)
    && 0 in s.agents[a].actions && s.agents[a].actions[0] in BehaviourUuids()
    && s.agents[a].friends.Keys <= AgentIds(s)
  }

  /** No table refers to anything the scenario does not define. */
  predicate Integrity(s: Scenario) {
    && RelationshipsClosed(s)
    && PrsClosed(s)
    && (forall a :: 0 <= a < |s.agents| ==> AgentClosed(s, a))
  }

  /** The belief table's identifiers are those of the included beliefs. */
  lemma BeliefIdsIncluded(mask: seq<bool>, n: nat, d: Inputs)
    requires InputsFit(mask, n, d)
    ensures BeliefIds(Assemble(mask, n, d)) == Elems(IncludedBeliefUuids(mask))
  {
    BeliefsTableIds(mask, d.perceptions, d.perceptionZ, d.relationships, d.relationshipZ);
  }

  /** Every edge endpoint of the final network is an agent. */
  lemma FinalEdgesOriented(mask: seq<bool>, n: nat, d: Inputs)
    requires InputsFit(mask, n, d)
    ensures Oriented(FinalEdges(d), n)
  {
    var r := FinalEdges(d);
    forall k | 0 <= k < |r| ensures r[k].0 <= r[k].1 < n {
      if k < |d.network| {
        assert r[k] == r[..|d.network|][k];
      }
    }
  }

  /** The scenario's agents are agents 0 .. n-1. */
  lemma AgentIdsAreAgents(mask: seq<bool>, n: nat, d: Inputs)
    requires InputsFit(mask, n, d)
    ensures AgentIds(Assemble(mask, n, d)) == AgentUuids(n)
  {
    var s := Assemble(mask, n, d);
    forall v | 0 <= v < n ensures AgentUuid(v) in AgentIds(s) {
      assert s.agents[v].uuid == AgentUuid(v);
    }
  }

  /** Every friend of agent `a` is an agent of the scenario. */
  lemma FriendsAreAgents(mask: seq<bool>, n: nat, d: Inputs, a: nat)
    requires InputsFit(mask, n, d) && a < n
    ensures Assemble(mask, n, d).agents[a].friends.Keys <= AgentIds(Assemble(mask, n, d))
  {
    assert Assemble(mask, n, d).agents[a] == AgentOf(mask, n, d, a);
    FinalEdgesOriented(mask, n, d);
    FriendsAreNodes(FinalEdges(d), FinalWeights(mask, n, d), a, n);
    AgentIdsAreAgents(mask, n, d);
  }

  /**
   Agent `a`'s maps are keyed by the included beliefs, its action is a
   catalogue behaviour and its friends are agents, when belief 11 is included.
   */
  lemma AgentReferences(mask: seq<bool>, n: nat, d: Inputs, a: nat)
    requires InputsFit(mask, n, d) && mask[OVERRIDE_BELIEF] && a < n
    ensures AgentClosed(Assemble(mask, n, d), a)
  {
    var s := Assemble(mask, n, d);
    var ag := AgentOf(mask, n, d, a);
    assert s.agents[a] == ag;
    BeliefIdsIncluded(mask, n, d);
    OverrideKeepsKeys(mask, InitialActivations(mask, d.activationU[a], d.activationZ[a]), d.overrideU[a], d.overrideZ[a]);
    assert BehaviourUuids()[InitialAction(mask, n, d, a)] == ag.actions[0];
    FriendsAreAgents(mask, n, d, a);
  }

  /** The belief table and the PRS list refer only to beliefs of the table. */
  lemma TablesClosed(mask: seq<bool>, n: nat, d: Inputs)
    requires InputsFit(mask, n, d)
    ensures RelationshipsClosed(Assemble(mask, n, d))
    ensures PrsClosed(Assemble(mask, n, d))
  {
    BeliefIdsIncluded(mask, n, d);
    PrsListNoDangling(mask, d.prsTable, d.prsZ);
  }

  /**
   With belief 11 included (as with the all-ones mask) the generated
   scenario has no dangling reference.
   */
  lemma AssembleIntegrity(mask: seq<bool>, n: nat, d: Inputs)
    requires InputsFit(mask, n, d) && mask[OVERRIDE_BELIEF]
    ensures Integrity(Assemble(mask, n, d))
  {
    TablesClosed(mask, n, d);
    forall a | 0 <= a < n ensures AgentClosed(Assemble(mask, n, d), a) {
      AgentReferences(mask, n, d, a);
    }
  }

  /**
   The value ranges of every agent record: friend weights lie in [0, 1],
   deltas are strictly positive (at least 0.0001) and time-0 activations
   lie in [-1, 1].
   */
  lemma AgentValuesBounded(mask: seq<bool>, n: nat, d: Inputs, a: nat)
    requires InputsFit(mask, n, d) && a < n
    ensures forall x :: x in Assemble(mask, n, d).agents[a].friends ==>
              0.0 <= Assemble(mask, n, d).agents[a].friends[x] <= 1.0
    ensures forall b :: b in Assemble(mask, n, d).agents[a].deltas ==>
              Assemble(mask, n, d).agents[a].deltas[b] >= DELTA_FLOOR > 0.0
    ensures 0 in Assemble(mask, n, d).agents[a].activations
    ensures forall b :: b in Assemble(mask, n, d).agents[a].activations[0] ==>
              -1.0 <= Assemble(mask, n, d).agents[a].activations[0][b] <= 1.0
  {
    var ag := AgentOf(mask, n, d, a);
    assert Assemble(mask, n, d).agents[a] == ag;
    FriendWeightsBounded(FinalEdges(d), FinalWeights(mask, n, d), a);
  }

  /** The generator's own mask: 20 beliefs, 80 PRS entries. */
  lemma AssembleIncludeAllSizes(n: nat, d: Inputs)
    requires InputsFit(INCLUDE_ALL, n, d)
    ensures |Assemble(INCLUDE_ALL, n, d).beliefs| == N_BELIEFS
    ensures |Assemble(INCLUDE_ALL, n, d).prs| == N_BELIEFS * N_BEHAVIOURS
  {
    IncludeAllIndices();
    PrsListShape(INCLUDE_ALL, d.prsTable, d.prsZ);
  }

  // ---------------------------------------------------------------------
  // The generator, step by step

  /** The rows of a two-dimensional array, as sequences. */
  function MatrixRows(mat: array2<real>): (m: seq<seq<real>>)
    reads mat
    ensures Rect(m, mat.Length0, mat.Length1)
    ensures forall i, j :: 0 <= i < mat.Length0 && 0 <= j < mat.Length1 ==> m[i][j] == mat[i, j]
  {
    seq(mat.Length0, i requires 0 <= i < mat.Length0 reads mat =>
      seq(mat.Length1, j requires 0 <= j < mat.Length1 reads mat => mat[i, j]))
  }

  /** The network section: the graph, its self-loop and weight loops, then the friends loop. */
  method BuildFriends(mask: seq<bool>, n: nat, d: Inputs) returns (friends: array<map<Uuid, real>>)
    requires InputsFit(mask, n, d)
    ensures fresh(friends) && friends.Length == n
    ensures forall a :: 0 <= a < n ==> friends[a] == FriendsOf(FinalEdges(d), FinalWeights(mask, n, d), a)
  {
    var g := new SocialGraph(n, d.network);
    g.AddSelfLoops(d.selfFriendship);
    g.AssignWeights(d.weightZ);
    friends := g.Friends();
  }

  /** The activations comprehension followed by the override loop. */
  method BuildActivations(mask: seq<bool>, n: nat, d: Inputs) returns (acts: array<Timeline>)
    requires InputsFit(mask, n, d)
    ensures fresh(acts) && acts.Length == n
    ensures forall a :: 0 <= a < n ==> acts[a] == map[0 := ActivationsOf(mask, n, d, a)]
  {
    acts := InitialTimelines(mask, n, d);
    ghost var before := acts[..];
    OverrideBelief11(acts, d.overrideU, d.overrideZ);
    forall a | 0 <= a < n ensures acts[a] == map[0 := ActivationsOf(mask, n, d, a)] {
      OverriddenTimeline(before[a], InitialActivations(mask, d.activationU[a], d.activationZ[a]),
                         d.overrideU[a], d.overrideZ[a]);
    }
  }

  /** The activations comprehension: each agent's time-0 activations, before the override. */
  method InitialTimelines(mask: seq<bool>, n: nat, d: Inputs) returns (acts: array<Timeline>)
    requires InputsFit(mask, n, d)
    ensures fresh(acts) && acts.Length == n
    ensures forall a :: 0 <= a < n ==> acts[a] == map[0 := InitialActivations(mask, d.activationU[a], d.activationZ[a])]
  {
    acts := new Timeline[n](a requires 0 <= a < n =>
      map[0 := InitialActivations(mask, d.activationU[a], d.activationZ[a])]);
  }

  /** Overriding time 0 of a timeline that holds only time 0. */
  lemma OverriddenTimeline(t: Timeline, m: map<Uuid, real>, u: real, z: real)
    requires OverrideDraw(u, z) && t == map[0 := m]
    ensures t[0 := Overridden(t[0], u, z)] == map[0 := Overridden(m, u, z)]
  {
  }

  /**
   The matrix `prs_select_mat` rebuilt from the PRS list, restricted to
   the included rows: it holds the included beliefs' PRS values.
   */
  method IncludedPrsRows(mask: seq<bool>, n: nat, d: Inputs) returns (included: seq<seq<real>>)
    requires InputsFit(mask, n, d)
    ensures included == IncludedPrsValues(mask, d.prsTable, d.prsZ)
  {
    var prs := PrsList(mask, d.prsTable, d.prsZ);
    var ok, mat := RebuildPrsMatrix(prs);
    SelectedRowsArePrsValues(mask, d.prsTable, d.prsZ);
    var rows := MatrixRows(mat);
    forall i | 0 <= i < N_BELIEFS ensures rows[i] == PrsMatrix(prs)[i] {
      assert forall j :: 0 <= j < N_BEHAVIOURS ==> rows[i][j] == PrsMatrix(prs)[i][j];
    }
    assert rows == PrsMatrix(prs);
    included := SelectRows(rows, IncludedIndices(mask));
  }

  /**
   The activation matrix handed to `choose_initial_actions`: one row per
   agent, read from the time-0 maps `ms` held in `acts`.
   */
  method ActivationRows(mask: seq<bool>, acts: array<Timeline>, ghost ms: seq<map<Uuid, real>>) returns (actRows: seq<seq<real>>)
    requires |mask| == N_BELIEFS && |ms| == acts.Length
    requires forall a :: 0 <= a < |ms| ==> acts[a] == map[0 := ms[a]]
    requires forall a, b :: 0 <= a < |ms| && b in IncludedBeliefUuids(mask) ==> b in ms[a]
    ensures |actRows| == |ms|
    ensures forall a :: 0 <= a < |ms| ==> actRows[a] == ActivationRow(mask, ms[a])
  {
    actRows := [];
    var a := 0;
    while a < acts.Length
      invariant 0 <= a <= acts.Length && |actRows| == a
      invariant forall b :: 0 <= b < a ==> actRows[b] == ActivationRow(mask, ms[b])
    {
      actRows := actRows + [ActivationRow(mask, acts[a][0])];
      a := a + 1;
    }
  }

  /** `choose_initial_actions` applied to the agents' activation rows and the included PRS rows. */
  method BuildInitialActions(mask: seq<bool>, n: nat, d: Inputs, acts: array<Timeline>) returns (initial: seq<nat>)
    requires InputsFit(mask, n, d) && acts.Length == n
    requires forall a :: 0 <= a < n ==> acts[a] == map[0 := ActivationsOf(mask, n, d, a)]
    ensures |initial| == n
    ensures forall a :: 0 <= a < n ==> initial[a] == InitialAction(mask, n, d, a)
  {
    var included := IncludedPrsRows(mask, n, d);
    ghost var ms := seq(n, a requires 0 <= a < n => ActivationsOf(mask, n, d, a));
    var actRows := ActivationRows(mask, acts, ms);
    initial := ChooseInitialActions(actRows, included);
    forall a | 0 <= a < n ensures initial[a] == InitialAction(mask, n, d, a) {
      FirstMaxUnique(Scores(actRows[a], included), initial[a]);
    }
  }

  /**
   The agent records of the `agents` DataFrame, from the per-agent
   friends, activations and initial actions computed by the loops.
   */
  function AgentRecords(mask: seq<bool>, n: nat, d: Inputs,
                        friends: seq<map<Uuid, real>>, acts: seq<Timeline>, initial: seq<nat>): (agents: seq<Agent>)
    requires InputsFit(mask, n, d) && |friends| == n && |acts| == n && |initial| == n
    requires forall a :: 0 <= a < n ==> initial[a] < N_BEHAVIOURS
    requires forall a :: 0 <= a < n ==> friends[a] == FriendsOf(FinalEdges(d), FinalWeights(mask, n, d), a)
    requires forall a :: 0 <= a < n ==> acts[a] == map[0 := ActivationsOf(mask, n, d, a)]
    requires forall a :: 0 <= a < n ==> initial[a] == InitialAction(mask, n, d, a)
    ensures agents == Assemble(mask, n, d).agents
  {
    var agents := seq(n, a requires 0 <= a < n =>
      Agent(AgentUuid(a), friends[a], DeltaMap(mask, d.deltaX[a]), acts[a], map[0 := BehaviourUuid(initial[a])]));
    forall a | 0 <= a < n ensures agents[a] == AgentOf(mask, n, d, a) {
      assert initial[a] == InitialAction(mask, n, d, a);
    }
    agents
  }

  /**
   The generator's sections in order: the belief table and the PRS list,
   the network, the activations, the initial actions and the agent
   records. The result is the scenario `Assemble` describes.
   */
  method GenerateScenario(mask: seq<bool>, n: nat, d: Inputs) returns (s: Scenario)
    requires InputsFit(mask, n, d)
    ensures s == Assemble(mask, n, d)
  {
    var beliefs := BeliefsTable(mask, d.perceptions, d.perceptionZ, d.relationships, d.relationshipZ);
    var prs := PrsList(mask, d.prsTable, d.prsZ);
    var friends := BuildFriends(mask, n, d);
    var acts := BuildActivations(mask, n, d);
    var initial := BuildInitialActions(mask, n, d, acts);
    var agents := AgentRecords(mask, n, d, friends[..], acts[..], initial);
    s := Scenario(beliefs, prs, agents);
  }
}
