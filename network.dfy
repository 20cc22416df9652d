/**
 The agents' social network: the Watts–Strogatz graph extended with
 self-loops, weighted edge by edge, and turned into one friend map per
 agent.

 Nodes are the agent indices 0 .. n-1, inserted in that order, so the
 graph's edge view reports every undirected edge once, as (u, v) with
 u <= v. An edge list here is that view: the order of its entries is the
 order in which the loops of the generator visit the edges.
 */
module Network {
  import opened Collections
  import opened Sampling
  import opened Catalogue

  type Edge = (nat, nat)

  /** An agent befriends itself when its uniform draw is at most this bound. */
  const SELF_FRIENDSHIP_PROBABILITY: real := 0.8

  /** Every edge joins agents below `n`, smaller endpoint first. */
  predicate Oriented(edges: seq<Edge>, n: nat) {
    forall k :: 0 <= k < |edges| ==> edges[k].0 <= edges[k].1 < n
  }

  /**
   The edge list after the self-loop loop: agent i, in increasing order,
   gets the edge (i, i) when `probs[i]` is at most 0.8, unless the graph
   already has it (adding an existing edge changes nothing).
   */
  function WithSelfLoops(edges: seq<Edge>, probs: seq<real>): (r: seq<Edge>)
    ensures |edges| <= |r| <= |edges| + |probs| && r[..|edges|] == edges
    ensures forall i: nat :: i < |probs| ==>
              ((i, i) in r <==> probs[i] <= SELF_FRIENDSHIP_PROBABILITY || (i, i) in edges)
    ensures forall k :: |edges| <= k < |r| ==>
              r[k].0 == r[k].1 < |probs| && probs[r[k].0] <= SELF_FRIENDSHIP_PROBABILITY
    ensures Distinct(edges) ==> Distinct(r)
  {
    if probs == [] then edges
    else
      var n := |probs| - 1;
      var prev := WithSelfLoops(edges, probs[..n]);
      assert forall i :: 0 <= i < n ==> probs[..n][i] == probs[i];
      if probs[n] <= SELF_FRIENDSHIP_PROBABILITY && (n, n) !in prev then
        assert (prev + [(n, n)])[..|edges|] == prev[..|edges|];
        prev + [(n, n)]
      else
        prev
  }

  /**
   With a graph that has no self-loops to begin with (a Watts–Strogatz
   graph has none), agent i has a self-loop exactly when its draw is at
   most 0.8.
   */
  lemma SelfLoopExactly(edges: seq<Edge>, probs: seq<real>, i: nat)
    requires forall k :: 0 <= k < |edges| ==> edges[k].0 < edges[k].1
    requires i < |probs|
    ensures (i, i) in WithSelfLoops(edges, probs) <==> probs[i] <= SELF_FRIENDSHIP_PROBABILITY
  {
    assert forall k :: 0 <= k < |edges| ==> edges[k] != (i, i);
  }

  /**
   The weight loop: edge `edges[k]` gets the k-th draw of `w_dist`, the
   normal N(0.5, 0.15) truncated to [0, 1].
   */
  function EdgeWeights(edges: seq<Edge>, z: seq<real>): (w: map<Edge, real>)
    requires |z| == |edges| && forall k :: 0 <= k < |z| ==> WDistGen().InSupport(z[k])
    ensures w.Keys == Elems(edges)
    ensures Distinct(edges) ==> forall k :: 0 <= k < |edges| ==> w[edges[k]] == WDistGen().Sample(z[k])
    ensures forall e :: e in w ==> 0.0 <= w[e] <= 1.0
  {
    var samples := seq(|z|, k requires 0 <= k < |z| => WDistGen().Sample(z[k]));
    ZipMap(edges, samples)
  }

  /** A weight map is the weight loop's result as soon as every edge carries its draw. */
  lemma EdgeWeightsUnique(w: map<Edge, real>, edges: seq<Edge>, z: seq<real>)
    requires |z| == |edges| && forall k :: 0 <= k < |z| ==> WDistGen().InSupport(z[k])
    requires Distinct(edges) && w.Keys == Elems(edges)
    requires forall k :: 0 <= k < |edges| ==> w[edges[k]] == WDistGen().Sample(z[k])
    ensures w == EdgeWeights(edges, z)
  {
    var samples := seq(|z|, k requires 0 <= k < |z| => WDistGen().Sample(z[k]));
    ZipMapUnique(w, edges, samples);
  }

  /**
   The friend map of agent `u`: for every edge (u, v) of the edge view, in
   order, agent v's identifier is mapped to the edge's weight. An edge
   (v, u) with v < u is reported as (v, u) and so lands in v's map only.
   */
  function FriendsOf(edges: seq<Edge>, weight: map<Edge, real>, u: nat): (f: map<Uuid, real>)
    requires forall k :: 0 <= k < |edges| ==> edges[k] in weight
  {
    if edges == [] then map[]
    else
      var e := edges[|edges| - 1];
      var prev := FriendsOf(edges[..|edges| - 1], weight, u);
      if e.0 == u then prev[AgentUuid(e.1) := weight[e]] else prev
  }

  /**
   Agent `u`'s friends are exactly the second endpoints of the edges
   (u, v), each mapped to that edge's weight.
   */
  lemma {:induction false} FriendsOfSpec(edges: seq<Edge>, weight: map<Edge, real>, u: nat)
    requires forall k :: 0 <= k < |edges| ==> edges[k] in weight
    ensures forall v: nat :: AgentUuid(v) in FriendsOf(edges, weight, u) <==> (u, v) in edges
    ensures forall x :: x in FriendsOf(edges, weight, u) ==> exists v: nat :: x == AgentUuid(v) && (u, v) in edges
    ensures forall v: nat :: (u, v) in edges ==> FriendsOf(edges, weight, u)[AgentUuid(v)] == weight[(u, v)]
  {
    if edges != [] {
      var n := |edges| - 1;
      FriendsOfSpec(edges[..n], weight, u);
      assert edges == edges[..n] + [edges[n]];
      var e := edges[n];
      if e.0 == u {
        forall v: nat | AgentUuid(v) == AgentUuid(e.1) ensures v == e.1 {
          AgentUuidInjective(v, e.1);
        }
      }
    }
  }

  /** One more edge changes at most the map of its first endpoint. */
  lemma FriendsOfStep(edges: seq<Edge>, weight: map<Edge, real>, k: nat, u: nat)
    requires forall k :: 0 <= k < |edges| ==> edges[k] in weight
    requires k < |edges|
    ensures FriendsOf(edges[..k + 1], weight, u) ==
            if edges[k].0 == u then FriendsOf(edges[..k], weight, u)[AgentUuid(edges[k].1) := weight[edges[k]]]
            else FriendsOf(edges[..k], weight, u)
  {
    assert edges[..k + 1][..k] == edges[..k];
  }

  /** `fs` holds, for each agent `u`, its friends among the edges `es`. */
  ghost predicate FriendTable(fs: seq<map<Uuid, real>>, es: seq<Edge>, weight: map<Edge, real>)
    requires forall k :: 0 <= k < |es| ==> es[k] in weight
  {
    forall u :: 0 <= u < |fs| ==> fs[u] == FriendsOf(es, weight, u)
  }

  /** Recording edge `edges[k]` under its first endpoint extends the table by that edge. */
  lemma FriendTableStep(fs: seq<map<Uuid, real>>, edges: seq<Edge>, weight: map<Edge, real>, k: nat)
    requires forall k :: 0 <= k < |edges| ==> edges[k] in weight
    requires k < |edges| && edges[k].0 < |fs|
    requires FriendTable(fs, edges[..k], weight)
    ensures FriendTable(fs[edges[k].0 := fs[edges[k].0][AgentUuid(edges[k].1) := weight[edges[k]]]], edges[..k + 1], weight)
  {
    var e := edges[k];
    var gs := fs[e.0 := fs[e.0][AgentUuid(e.1) := weight[e]]];
    forall u | 0 <= u < |gs| ensures gs[u] == FriendsOf(edges[..k + 1], weight, u) {
      FriendsOfStep(edges, weight, k, u);
    }
  }

  /** In a graph on agents 0 .. n-1, every friend is one of those agents. */
  lemma FriendsAreNodes(edges: seq<Edge>, weight: map<Edge, real>, u: nat, n: nat)
    requires forall k :: 0 <= k < |edges| ==> edges[k] in weight
    requires Oriented(edges, n)
    ensures FriendsOf(edges, weight, u).Keys <= AgentUuids(n)
  {
    FriendsOfSpec(edges, weight, u);
    forall x | x in FriendsOf(edges, weight, u) ensures x in AgentUuids(n) {
      var v: nat :| x == AgentUuid(v) && (u, v) in edges;
      var k := Position(edges, (u, v));
    }
  }

  /** Friend weights lie in [0, 1] when the edge weights do. */
  lemma FriendWeightsBounded(edges: seq<Edge>, weight: map<Edge, real>, u: nat)
    requires forall k :: 0 <= k < |edges| ==> edges[k] in weight
    requires forall e :: e in weight ==> 0.0 <= weight[e] <= 1.0
    ensures forall x :: x in FriendsOf(edges, weight, u) ==> 0.0 <= FriendsOf(edges, weight, u)[x] <= 1.0
  {
    var f := FriendsOf(edges, weight, u);
    FriendsOfSpec(edges, weight, u);
    forall x | x in f ensures 0.0 <= f[x] <= 1.0 {
      var v: nat :| x == AgentUuid(v) && (u, v) in edges;
    }
  }

  /** The undirected network of the generator, as networkx holds it. */
  class SocialGraph {
    const n: nat
    var edges: seq<Edge>
    var weight: map<Edge, real>

    /** The edge view lists each edge once, oriented, and only edges carry weights. */
    ghost predicate Valid()
      reads this
    {
      && Oriented(edges, n)
      && Distinct(edges)
      && weight.Keys <= Elems(edges)
    }

    /** The Watts–Strogatz graph on `n` agents, given as its edge list (no self-loops, no weights). */
    constructor (n: nat, ws: seq<Edge>)
      requires forall k :: 0 <= k < |ws| ==> ws[k].0 < ws[k].1 < n
      requires Distinct(ws)
      ensures Valid()
      ensures this.n == n && edges == ws && weight == map[]
    {
      this.n := n;
      edges := ws;
      weight := map[];
    }

    /** The self-loop loop: the edge (i, i) is added for every i whose draw is at most 0.8. */
    method AddSelfLoops(probs: seq<real>)
      requires Valid() && |probs| == n
      modifies this
      ensures Valid()
      ensures edges == WithSelfLoops(old(edges), probs) && weight == old(weight)
    {
      ghost var start := edges;
      var i := 0;
      while i < n
        invariant 0 <= i <= n
        invariant edges == WithSelfLoops(start, probs[..i]) && weight == old(weight)
        invariant Valid()
      {
        assert probs[..i + 1][..i] == probs[..i];
        if probs[i] <= SELF_FRIENDSHIP_PROBABILITY && (i, i) !in edges {
          edges := edges + [(i, i)];
        }
        i := i + 1;
      }
      assert probs[..n] == probs;
    }

    /** The weight loop: every edge, in edge-view order, gets the next draw of `w_dist`. */
    method AssignWeights(z: seq<real>)
      requires Valid() && |z| >= |edges|
      requires forall k :: 0 <= k < |z| ==> WDistGen().InSupport(z[k])
      modifies this`weight
      ensures Valid()
      ensures weight == EdgeWeights(edges, z[..|edges|])
    {
      var k := 0;
      while k < |edges|
        invariant 0 <= k <= |edges|
        invariant weight.Keys == old(weight).Keys + Elems(edges[..k])
        invariant forall j :: 0 <= j < k ==> weight[edges[j]] == WDistGen().Sample(z[j])
      {
        assert Elems(edges[..k + 1]) == Elems(edges[..k]) + {edges[k]} by {
          assert edges[..k + 1] == edges[..k] + [edges[k]];
        }
        weight := weight[edges[k] := WDistGen().Sample(z[k])];
        k := k + 1;
      }
      assert edges[..k] == edges;
      EdgeWeightsUnique(weight, edges, z[..|edges|]);
    }

    /**
     The friends loop: a fresh array of empty maps, filled edge by edge,
     each edge (u, v) recorded in agent u's map only.
     */
    method Friends() returns (friends: array<map<Uuid, real>>)
      requires Oriented(edges, n) && weight.Keys == Elems(edges)
      ensures fresh(friends) && friends.Length == n
      ensures forall u :: 0 <= u < n ==> friends[u] == FriendsOf(edges, weight, u)
    {
      friends := new map<Uuid, real>[n](_ => map[]);
      var k := 0;
      while k < |edges|
        invariant 0 <= k <= |edges|
        invariant FriendTable(friends[..], edges[..k], weight)
      {
        var e := edges[k];
        FriendTableStep(friends[..], edges, weight, k);
        friends[e.0] := friends[e.0][AgentUuid(e.1) := weight[e]];
        k := k + 1;
      }
      assert edges[..k] == edges;
    }
  }
}
