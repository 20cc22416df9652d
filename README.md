# Scenario generator model

This project is a Dafny model of `generate_config_2b.py`, the script that
synthesises one scenario of the behaviour-change agent model. A scenario
has three parts:

- **The belief table.** There is one record per included belief. Each record holds its name and its `uuid5` identifier. It also holds one perception value per behaviour (Walk, Cycle, PT, Drive) and one relationship value per included belief.
- **The PRS list.** It has one preference-strength entry per included belief and behaviour.
- **One record per agent.** Each record holds:
  - the agent's identifier;
  - its friend map, built from a Watts–Strogatz graph with self-loops and truncated-normal edge weights;
  - its delta map;
  - its time-0 activations, after the belief-11 override;
  - its initial action. This is the first `argmax` of the activations times the PRS matrix rebuilt from the list.

Every random draw is an input to the model. A truncated normal is taken as
scipy defines it: a standardised value `z` inside the truncation interval,
rescaled to `loc + scale * z`. The bounds every sampled value satisfies are
then proved, not assumed. `uuid5` is the free constructor `Uuid5(namespace,
name)`.

The modules follow the script's sections:

| module | file | what it holds |
|---|---|---|
| `Sampling` | sampling.dfy | `truncn_at_m1_1`, `w_dist_gen`, `random_activation`, the delta transform |
| `Collections` | collections.dfy | dict comprehensions over parallel sequences, distinctness |
| `Catalogue` | catalogue.dfy | behaviours, beliefs, agent names, the identifiers and the inclusion mask |
| `Beliefs` | beliefs.dfy | `beliefs_df` |
| `Prs` | prs.dfy | the `prs` list and the loop that rebuilds `prs_select_mat` from it |
| `Actions` | actions.dfy | `choose_initial_actions` (`np.dot` and `np.argmax`) |
| `Network` | network.dfy | the graph as a class: the self-loop loop, the weight loop, the friends loop |
| `Agents` | agents.dfy | the deltas, the activation comprehension and the in-place override loop |
| `Scenario` | scenario.dfy | the scenario as a value (`Assemble`), its referential integrity, and `GenerateScenario`, which runs the sections step by step and is proved equal to `Assemble` |

The generator is modelled in the two forms it takes:

- Its loops over mutable state are methods, proved against the functions that describe their results:
  - the graph edits;
  - the fill of the friend array;
  - the override of the activation list;
  - the matrix fill.
- Its comprehensions are functions.

Notes on how the model reads the code:

- **Friendships are one-way.** The friends loop walks the graph's edge view. With nodes inserted in order 0 .. n-1, each undirected edge is reported once, as (u, v) with u <= v. So agent v lands in u's map, and u does not land in v's.
- **Belief 11 can be added by the override.** The override writes belief 11 ("Cycling is dangerous") unconditionally. With a mask that excludes belief 11, it would add a key that no other table knows. With the script's own all-ones mask this cannot happen (`AssembleIntegrity`).
- **Deltas are drawn for all 20 beliefs.** The agent's map then keeps only the included columns.

## Model

| member | source | states |
|---|---|---|
| Sampling.TruncNorm.Sample | generate_config_2b.py:79 | a draw of `truncnorm(a, b, loc, scale)` lies between `loc + scale*a` and `loc + scale*b` |
| Sampling.TruncnAtM11 | generate_config_2b.py:69-79 | whatever the location and (positive) scale, the distribution keeps them and its support is exactly [-1, 1] |
| Sampling.WDistGen | generate_config_2b.py:544-547 | the edge-weight distribution has location 0.5, scale 0.15 and support exactly [0, 1] |
| Sampling.ActivationDist | generate_config_2b.py:576-579 | the activation distribution has location 0, scale 0.1 and support exactly [-1, 1] |
| Sampling.RandomActivation | generate_config_2b.py:572-579 | a uniform draw of at most 0.5 gives exactly 0.0, a larger one gives the truncated draw; the result always lies in [-1, 1] |
| Sampling.Delta | generate_config_2b.py:562-565 | a delta is at least 0.0001 (so strictly positive) and exceeds the floor by the magnitude of the normal draw |
| Sampling.CellSample | generate_config_2b.py:424 | a draw from any cell of a table of `truncn_at_m1_1` distributions lies in [-1, 1] |
| Collections.ZipMap | generate_config_2b.py:423-425 | a dict comprehension's keys are exactly the key sequence's elements, every value is one of the values, and with distinct keys the i-th key maps to the i-th value |
| Collections.ZipMapUnique | generate_config_2b.py:423-425 | with distinct keys, any map with those keys that sends each key to its value is the dict comprehension |
| Collections.ZipMapAppend | generate_config_2b.py:423-425 | each insertion overwrites: appending a pair gives the earlier map updated at its key, so a later duplicate key wins |
| Catalogue.BeliefName | generate_config_2b.py:40-64 | the belief catalogue; a definition without its own ensures, characterised by BeliefNamesDiffer (the twenty names are pairwise different) |
| Catalogue.BehaviourUuids | generate_config_2b.py:23-26 | four identifiers, the j-th being `uuid5` of the j-th behaviour name |
| Catalogue.BeliefUuids | generate_config_2b.py:38-66 | twenty identifiers, the i-th being `uuid5` of the i-th belief name |
| Catalogue.BehaviourUuidsDistinct | generate_config_2b.py:23-26 | the four behaviour identifiers are pairwise different |
| Catalogue.BeliefNamesDiffer | generate_config_2b.py:40-64 | no two catalogue beliefs share a name |
| Catalogue.BeliefUuidsDistinct | generate_config_2b.py:66 | the twenty belief identifiers are pairwise different |
| Catalogue.BeliefUuidInjective | generate_config_2b.py:66 | two belief identifiers are equal if and only if they are of the same belief |
| Catalogue.BehaviourUuidInjective | generate_config_2b.py:25-26 | two behaviour identifiers are equal if and only if they are of the same behaviour |
| Catalogue.NatToString | generate_config_2b.py:524 | the decimal form of an index is non-empty, all digits, and one digit long exactly for indices below 10 |
| Catalogue.NatToStringInjective | generate_config_2b.py:524 | different indices print differently |
| Catalogue.AgentUuid | generate_config_2b.py:523-524 | `uuid5(agent_namespace, "agent_20221019v1_{i}")`; a definition without its own ensures, characterised by AgentUuidInjective and, over the scenario, AgentIdsAreAgents |
| Catalogue.AgentUuidInjective | generate_config_2b.py:523-524 | different agents get different identifiers |
| Catalogue.IncludedIndices | generate_config_2b.py:420 | `np.where(include_beliefs)` is strictly increasing and holds exactly the positions whose mask entry is set |
| Catalogue.AllSetIndices | generate_config_2b.py:417 | with every entry set, the included positions are 0, 1, ..., n-1 |
| Catalogue.IncludeAllIndices | generate_config_2b.py:413-417 | the script's mask includes all 20 beliefs, in catalogue order |
| Catalogue.IncludedBeliefUuids | generate_config_2b.py:421 | the k-th included identifier is that of the k-th included belief |
| Catalogue.IncludedBeliefUuidsMembership | generate_config_2b.py:421 | a belief's identifier is among the included ones if and only if its mask entry is set |
| Catalogue.IncludedBeliefUuidsDistinct | generate_config_2b.py:421 | the included identifiers are pairwise different |
| Catalogue.BeliefMap | generate_config_2b.py:427-431 | a comprehension over the included beliefs has exactly their identifiers as keys, the k-th included belief mapping to the k-th value |
| Catalogue.BeliefMapValue | generate_config_2b.py:427-431 | every value of such a map is one of the values it was built from |
| Beliefs.Perceptions | generate_config_2b.py:422-426 | a belief's perception map is keyed by exactly the four behaviour identifiers, behaviour j mapping to the draw of cell (i, j), every value in [-1, 1] |
| Beliefs.Relationships | generate_config_2b.py:427-431 | a belief's relationship map is keyed by exactly the included belief identifiers, each mapping to the draw of its cell, every value in [-1, 1] |
| Beliefs.BeliefRecord | generate_config_2b.py:419-432 | a belief record carries the catalogue name and identifier of its belief and the two maps with their keys and bounds |
| Beliefs.BeliefsTable | generate_config_2b.py:419-432 | `beliefs_df` has one row per included belief, in catalogue order, the k-th being the record of the k-th included belief |
| Beliefs.BeliefsTableIds | generate_config_2b.py:420-421 | the table's identifiers are exactly the included beliefs' identifiers |
| Beliefs.BeliefsTableIncludeAll | generate_config_2b.py:417-421 | with the script's mask the table has 20 rows named as the catalogue, in order |
| Prs.PrsList | generate_config_2b.py:506-512 | the `prs` list; a definition without its own ensures, characterised by PrsEntriesAt, PrsListShape, PrsListNoDangling and PrsListOnePerPair |
| Prs.PrsEntries | generate_config_2b.py:506-512 | the list has four entries per belief it is built over |
| Prs.PrsEntriesAt | generate_config_2b.py:506-512 | entry k pairs the (k / 4)-th belief with behaviour k % 4 (belief-major order) |
| Prs.PrsListShape | generate_config_2b.py:506-512 | `prs` has 4 entries per included belief, entry k holding the identifiers and draw of (k / 4-th included belief, behaviour k % 4); 80 entries with the script's mask |
| Prs.PrsListNoDangling | generate_config_2b.py:506-512 | every entry names an included belief and a catalogue behaviour, with a value in [-1, 1] |
| Prs.PrsListOnePerPair | generate_config_2b.py:506-512 | each (included belief, behaviour) pair occurs in one entry and in no two |
| Prs.IndexOf | generate_config_2b.py:611-612 | `np.where(ids == u)[0][0]` is the first position holding `u`; it is missing (IndexError) exactly when `u` is not in `ids` |
| Prs.Cell | generate_config_2b.py:610-612 | the cell an entry is written to holds catalogue indices whose identifiers are the entry's |
| Prs.CellOfCatalogueIds | generate_config_2b.py:610-612 | an entry naming belief i and behaviour j is written to cell (i, j) |
| Prs.PrsCell | generate_config_2b.py:609-613 | one cell after the fill loop, as a fold over the entries; a definition without its own ensures, characterised by PrsCellUntouched, PrsCellWrittenOnce and PrsMatrixOfPrsList, and matched by RebuildPrsMatrix |
| Prs.PrsMatrix | generate_config_2b.py:606-613 | the rebuilt matrix is 20 x 4, each cell holding the value last written there (0 if none) |
| Prs.PrsCellUntouched | generate_config_2b.py:606-607 | a cell no entry is written to keeps its zero |
| Prs.PrsCellWrittenOnce | generate_config_2b.py:609-613 | a cell exactly one entry is written to holds that entry's value |
| Prs.PrsMatrixOfPrsList | generate_config_2b.py:606-613 | rebuilding from `prs` puts each included belief's PRS draw at (belief, behaviour) and leaves excluded rows at 0 |
| Prs.RebuildPrsMatrix | generate_config_2b.py:606-613 | the fill loop fails exactly when some entry names an unknown identifier; otherwise every cell of the fresh 20 x 4 array is the matrix the entries describe |
| Prs.SelectRows | generate_config_2b.py:622 | the selected rows are the matrix rows at the included positions, in order |
| Prs.IncludedPrsValues | generate_config_2b.py:622 | the included beliefs' PRS draws, one row of 4 per included belief (its ensures gives the shape); characterised by SelectedRowsArePrsValues |
| Prs.SelectedRowsArePrsValues | generate_config_2b.py:622 | the included rows of the rebuilt matrix are exactly the included beliefs' PRS draws |
| Actions.Score | generate_config_2b.py:603 | entry j of `np.dot`, the sum of `act[k] * rows[k][j]`, is given by the body as a definition; its contract states only that an all-zero activation row scores 0 |
| Actions.Scores | generate_config_2b.py:603 | a row of `np.dot(activations, prs)` has four entries, entry j being the score of behaviour j |
| Actions.ArgMax | generate_config_2b.py:603 | `np.argmax` returns an index whose entry is a maximum and before which every entry is strictly smaller |
| Actions.FirstMaxUnique | generate_config_2b.py:603 | a row has exactly one such first maximum |
| Actions.ChooseInitialActions | generate_config_2b.py:600-603 | one behaviour index per agent, each the first maximum of that agent's scores |
| Actions.AllZeroActivationsChooseFirst | generate_config_2b.py:600-603 | an agent whose activations are all zero starts with the first behaviour (Walk) |
| Network.WithSelfLoops | generate_config_2b.py:534-539 | the self-loop loop only appends, adds (i, i) exactly when draw i is at most 0.8 or the loop already existed, adds nothing else, and keeps the edge list duplicate-free |
| Network.SelfLoopExactly | generate_config_2b.py:534-539 | starting from a graph without self-loops, agent i has one exactly when its draw is at most 0.8 |
| Network.EdgeWeights | generate_config_2b.py:550-553 | every edge gets a weight, the k-th edge the k-th draw of `w_dist`, every weight in [0, 1] |
| Network.EdgeWeightsUnique | generate_config_2b.py:552-553 | any map giving every edge its draw is the weight loop's result |
| Network.FriendsOf | generate_config_2b.py:555-557 | agent u's `friends` map as the friends loop fills it; a definition without its own ensures, characterised by FriendsOfSpec and matched by SocialGraph.Friends |
| Network.FriendsOfSpec | generate_config_2b.py:555-557 | agent u's friends are exactly the second endpoints v of the edges (u, v), each mapped to that edge's weight |
| Network.FriendsAreNodes | generate_config_2b.py:555-557 | in a graph on agents 0 .. n-1, every friend is one of those agents |
| Network.FriendWeightsBounded | generate_config_2b.py:553-557 | friend weights lie in [0, 1] when edge weights do |
| Network.SocialGraph.constructor | generate_config_2b.py:528-532 | the graph starts as the given Watts–Strogatz edge list without weights |
| Network.SocialGraph.AddSelfLoops | generate_config_2b.py:537-539 | the loop leaves the edges as the self-loop function describes, keeps the weights and the graph invariant |
| Network.SocialGraph.AssignWeights | generate_config_2b.py:552-553 | the loop leaves exactly the weight map of the weight loop over the current edges |
| Network.SocialGraph.Friends | generate_config_2b.py:555-557 | a fresh array of n maps, the u-th being agent u's friend map |
| Agents.DeltaMap | generate_config_2b.py:635-640 | an agent's deltas are keyed by exactly the included belief identifiers, each holding the delta of its own draw, all at least 0.0001 |
| Agents.RandomActivations | generate_config_2b.py:585 | one `random_activation()` per pair of draws, each in [-1, 1] |
| Agents.InitialActivations | generate_config_2b.py:582-590 | an agent's time-0 activations are keyed by exactly the included belief identifiers, each holding its own `random_activation()`, all in [-1, 1] |
| Agents.OverrideDist | generate_config_2b.py:595 | the override distribution has support exactly [-1, 1] |
| Agents.Overridden | generate_config_2b.py:593-595 | with a draw of at most 0.4 belief 11 gets the override draw and no other key changes; otherwise the map is unchanged; values stay in [-1, 1] |
| Agents.OverrideKeepsKeys | generate_config_2b.py:593-595 | with belief 11 included the override leaves the keys exactly the included identifiers |
| Agents.OverrideAddsExcludedKey | generate_config_2b.py:593-595 | with belief 11 excluded an override adds a key outside the included identifiers |
| Agents.OverrideBelief11 | generate_config_2b.py:593-595 | the in-place loop leaves each agent's timeline with time 0 overridden and nothing else changed |
| Agents.ActivationRow | generate_config_2b.py:616-621 | an agent's activation row has one entry per included belief, in order, read from its time-0 map |
| Scenario.FinalEdges | generate_config_2b.py:534-539 | the edge view after the self-loop loop, at most one new edge per agent; characterised by WithSelfLoops and FinalEdgesOriented |
| Scenario.FinalWeights | generate_config_2b.py:552-553 | the final weights are keyed by exactly the final edges and lie in [0, 1] |
| Scenario.ActivationsOf | generate_config_2b.py:582-595 | after the override every included belief still has an activation and all lie in [-1, 1] |
| Scenario.InitialAction | generate_config_2b.py:615-623 | an agent's initial action is a behaviour index that is the first maximum of its scores against the included PRS rows |
| Scenario.AgentOf | generate_config_2b.py:632-643 | one row of the `agents` DataFrame; a definition without its own ensures, characterised by AgentReferences, FriendsAreAgents and AgentValuesBounded |
| Scenario.Assemble | generate_config_2b.py:419-643 | the whole scenario as a value, with n agent rows; characterised by AssembleIntegrity, TablesClosed and AssembleIncludeAllSizes, and matched by GenerateScenario |
| Scenario.BeliefIdsIncluded | generate_config_2b.py:419-421 | the scenario's belief identifiers are those of the included beliefs |
| Scenario.FinalEdgesOriented | generate_config_2b.py:528-539 | every edge of the final graph joins agents below n, smaller endpoint first |
| Scenario.AgentIdsAreAgents | generate_config_2b.py:523-524 | the scenario's agent identifiers are exactly those of agents 0 .. n-1 |
| Scenario.FriendsAreAgents | generate_config_2b.py:555-557 | every friend of an agent is an agent of the scenario |
| Scenario.AgentReferences | generate_config_2b.py:632-643 | with belief 11 included, an agent's deltas and time-0 activations are keyed by exactly the table's beliefs, its action is a catalogue behaviour and its friends are agents |
| Scenario.AgentValuesBounded | generate_config_2b.py:632-643 | in every agent row, friend weights lie in [0, 1], deltas are at least 0.0001 and so strictly positive, and time-0 activations lie in [-1, 1] |
| Scenario.TablesClosed | generate_config_2b.py:419-512 | every relationship map is keyed by exactly the table's beliefs, and every PRS entry names a belief of the table and a catalogue behaviour |
| Scenario.AssembleIntegrity | generate_config_2b.py:632-643 | with belief 11 included (the script's mask) the scenario has no dangling reference |
| Scenario.AssembleIncludeAllSizes | generate_config_2b.py:417-512 | with the script's mask there are 20 beliefs and 80 PRS entries |
| Scenario.MatrixRows | generate_config_2b.py:622 | the rows of a 2-D array, cell for cell |
| Scenario.BuildFriends | generate_config_2b.py:528-557 | the network section yields, for each agent, the friend map of the final weighted graph |
| Scenario.InitialTimelines | generate_config_2b.py:582-590 | the activation comprehension gives each agent the timeline {0: its initial activations} |
| Scenario.BuildActivations | generate_config_2b.py:582-595 | after the override loop each agent's timeline is {0: its overridden activations} |
| Scenario.IncludedPrsRows | generate_config_2b.py:606-622 | the included rows of the matrix rebuilt from `prs` are the included beliefs' PRS draws |
| Scenario.ActivationRows | generate_config_2b.py:616-621 | the activation matrix has one row per agent, read from its time-0 map |
| Scenario.BuildInitialActions | generate_config_2b.py:615-623 | `choose_initial_actions` yields, for each agent, the first-maximum behaviour of its scores |
| Scenario.AgentRecords | generate_config_2b.py:625-643 | the agent records built from the loops' results are those of the scenario |
| Scenario.GenerateScenario | generate_config_2b.py:419-643 | running the sections in order produces exactly the scenario `Assemble` describes |

## Left out

- Command-line handling, directory creation, seeding, and every JSON, DataFrame and zstd write (lines 17-19, 28-34, 434-437, 514-515, 645-647) are I/O. The model ends at the values that would be written.
- The random number stream is left out. Every draw is an explicit input, so the order in which the script consumes numpy's global generator is not modelled. This covers:
  - the uniforms;
  - the normals;
  - the standardised truncated-normal values;
  - the Watts–Strogatz rewiring.
- The Watts–Strogatz construction (k = 10, p = 0.3) is an input: an edge list on agents 0 .. n-1 without self-loops or duplicates, smaller endpoint first.
- The edge view of the graph is its list order, with self-loops appended. networkx reports a self-loop among its node's other edges. That only changes which weight draw goes to which edge, and the draws are inputs.
- The population is the parameter `n`, not the constant 5000.
- The inclusion mask is a parameter. The script's own mask is `INCLUDE_ALL`. `dist_beliefs` (lines 413-415) only sizes that mask.
- The location and scale constants of the perception, relationship and PRS tables (lines 84-411 and 443-504) are inputs. They are modelled as tables of `Param` with a positive scale. The 0.5 and 0.15 of the weights and the 0.1 of the activations are written out.
- Sampling.Delta: the normal draw of location 0.999 and scale 0.1 is taken as an arbitrary real. The bounds hold for any draw.
- `uuid5` (SHA-1) is the injective constructor `Uuid5`, so hash collisions are not modelled. Identifiers are compared as values, not as their string form.
- Floating point is modelled as `real`. Rounding in the truncated-normal rescaling, in `np.dot` and in the ties of `np.argmax` is not modelled.
- The behaviour table written to behaviours.json (lines 28-34) is not modelled beyond the catalogue it lists.
- generate-config.py is not part of this model.
