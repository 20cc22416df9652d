/**
 The preference-strength (PRS) table: the entry list `prs` built from the
 included beliefs, and the dense matrix `prs_select_mat` rebuilt from that
 list by looking each entry's identifiers up in the catalogues.
 */
module Prs {
  import opened Collections
  import opened Sampling
  import opened Catalogue

  datatype PrsEntry = PrsEntry(beliefUuid: Uuid, behaviourUuid: Uuid, value: real)

  /** A belief x behaviour table of PRS distributions with its draws. */
  predicate PrsInputs(t: seq<seq<Param>>, z: seq<seq<real>>) {
    Rect(t, N_BELIEFS, N_BEHAVIOURS) && DrawsFit(t, z)
  }

  /** Every index names a catalogue belief. */
  predicate BeliefIndices(idx: seq<nat>) {
    forall k :: 0 <= k < |idx| ==> idx[k] < N_BELIEFS
  }

  /** The entry for belief `i` and behaviour `j`. */
  function Entry(i: nat, j: nat, prs: seq<seq<Param>>, prsZ: seq<seq<real>>): PrsEntry
    requires PrsInputs(prs, prsZ) && i < N_BELIEFS && j < N_BEHAVIOURS
  {
    PrsEntry(BeliefUuid(i), BehaviourUuid(j), CellSample(prs, prsZ, i, j))
  }

  /**
   The entries of the beliefs `idx`, belief-major and in behaviour order
   within a belief.
   */
  function PrsEntries(idx: seq<nat>, prs: seq<seq<Param>>, prsZ: seq<seq<real>>): (l: seq<PrsEntry>)
    requires PrsInputs(prs, prsZ) && BeliefIndices(idx)
    ensures |l| == N_BEHAVIOURS * |idx|
  {
    if idx == [] then []
    else
      var n := |idx| - 1;
      PrsEntries(idx[..n], prs, prsZ) + seq(N_BEHAVIOURS, j requires 0 <= j < N_BEHAVIOURS => Entry(idx[n], j, prs, prsZ))
  }

  /** The `prs` list for the inclusion mask `mask`. */
  function PrsList(mask: seq<bool>, prs: seq<seq<Param>>, prsZ: seq<seq<real>>): seq<PrsEntry>
    requires |mask| == N_BELIEFS && PrsInputs(prs, prsZ)
  {
    PrsEntries(IncludedIndices(mask), prs, prsZ)
  }

  /** Entry `k` of the list is the pair (k / 4-th belief of `idx`, behaviour k % 4). */
  lemma {:induction false} PrsEntriesAt(idx: seq<nat>, prs: seq<seq<Param>>, prsZ: seq<seq<real>>, k: nat)
    requires PrsInputs(prs, prsZ) && BeliefIndices(idx)
    requires k < N_BEHAVIOURS * |idx|
    ensures PrsEntries(idx, prs, prsZ)[k] == Entry(idx[k / N_BEHAVIOURS], k % N_BEHAVIOURS, prs, prsZ)
  {
    var n := |idx| - 1;
    if k < N_BEHAVIOURS * n {
      PrsEntriesAt(idx[..n], prs, prsZ, k);
      assert idx[..n][k / N_BEHAVIOURS] == idx[k / N_BEHAVIOURS];
    } else {
      assert k / N_BEHAVIOURS == n;
    }
  }

  /**
   The `prs` list has exactly one entry per (included belief, behaviour)
   pair, belief-major: its length is 4 times the number of included beliefs,
   and entry k pairs the (k / 4)-th included belief with behaviour k % 4.
   */
  lemma PrsListShape(mask: seq<bool>, prs: seq<seq<Param>>, prsZ: seq<seq<real>>)
    requires |mask| == N_BELIEFS && PrsInputs(prs, prsZ)
    ensures |PrsList(mask, prs, prsZ)| == N_BEHAVIOURS * |IncludedIndices(mask)|
    ensures forall k :: 0 <= k < |PrsList(mask, prs, prsZ)| ==>
              var i := IncludedIndices(mask)[k / N_BEHAVIOURS];
              PrsList(mask, prs, prsZ)[k] == PrsEntry(BeliefUuid(i), BehaviourUuid(k % N_BEHAVIOURS),
                                                      CellSample(prs, prsZ, i, k % N_BEHAVIOURS))
    ensures mask == INCLUDE_ALL ==> |PrsList(mask, prs, prsZ)| == 80
  {
    forall k | 0 <= k < |PrsList(mask, prs, prsZ)|
      ensures PrsList(mask, prs, prsZ)[k] == Entry(IncludedIndices(mask)[k / N_BEHAVIOURS], k % N_BEHAVIOURS, prs, prsZ)
    {
      PrsEntriesAt(IncludedIndices(mask), prs, prsZ, k);
    }
    if mask == INCLUDE_ALL {
      IncludeAllIndices();
    }
  }

  /**
   No dangling references: every entry names an included belief and a
   catalogue behaviour, and every value lies in [-1, 1].
   */
  lemma PrsListNoDangling(mask: seq<bool>, prs: seq<seq<Param>>, prsZ: seq<seq<real>>)
    requires |mask| == N_BELIEFS && PrsInputs(prs, prsZ)
    ensures forall e :: e in PrsList(mask, prs, prsZ) ==>
              && e.beliefUuid in IncludedBeliefUuids(mask)
              && e.behaviourUuid in BehaviourUuids()
              && -1.0 <= e.value <= 1.0
  {
    var l := PrsList(mask, prs, prsZ);
    var idx := IncludedIndices(mask);
    PrsListShape(mask, prs, prsZ);
    forall e | e in l
      ensures e.beliefUuid in IncludedBeliefUuids(mask) && e.behaviourUuid in BehaviourUuids()
    {
      var k := Position(l, e);
      assert IncludedBeliefUuids(mask)[k / N_BEHAVIOURS] == e.beliefUuid;
      assert BehaviourUuids()[k % N_BEHAVIOURS] == e.behaviourUuid;
    }
  }

  /** Each (included belief, behaviour) pair occurs in exactly one entry. */
  lemma PrsListOnePerPair(mask: seq<bool>, prs: seq<seq<Param>>, prsZ: seq<seq<real>>, i: nat, j: nat)
    requires |mask| == N_BELIEFS && PrsInputs(prs, prsZ)
    requires i < N_BELIEFS && j < N_BEHAVIOURS && mask[i]
    ensures exists k :: 0 <= k < |PrsList(mask, prs, prsZ)|
              && PrsList(mask, prs, prsZ)[k].beliefUuid == BeliefUuid(i)
              && PrsList(mask, prs, prsZ)[k].behaviourUuid == BehaviourUuid(j)
    ensures forall k1, k2 :: 0 <= k1 < k2 < |PrsList(mask, prs, prsZ)| ==>
              !(PrsList(mask, prs, prsZ)[k1].beliefUuid == PrsList(mask, prs, prsZ)[k2].beliefUuid == BeliefUuid(i)
                && PrsList(mask, prs, prsZ)[k1].behaviourUuid == PrsList(mask, prs, prsZ)[k2].behaviourUuid == BehaviourUuid(j))
  {
    var l := PrsList(mask, prs, prsZ);
    var idx := IncludedIndices(mask);
    PrsListShape(mask, prs, prsZ);
    var p :| 0 <= p < |idx| && idx[p] == i;
    var k := N_BEHAVIOURS * p + j;
    assert k / N_BEHAVIOURS == p && k % N_BEHAVIOURS == j;
    assert l[k].beliefUuid == BeliefUuid(i) && l[k].behaviourUuid == BehaviourUuid(j);
    forall k1, k2 | 0 <= k1 < k2 < |l|
      ensures !(l[k1].beliefUuid == l[k2].beliefUuid && l[k1].behaviourUuid == l[k2].behaviourUuid)
    {
      PairPosition(idx, k1, k2);
      var p1, p2 := k1 / N_BEHAVIOURS, k2 / N_BEHAVIOURS;
      if p1 == p2 {
        BehaviourUuidInjective(k1 % N_BEHAVIOURS, k2 % N_BEHAVIOURS);
      } else {
        BeliefUuidInjective(idx[p1], idx[p2]);
      }
    }
  }

  /** Two different positions of the list differ in belief or in behaviour. */
  lemma PairPosition(idx: seq<nat>, k1: nat, k2: nat)
    requires Increasing(idx) && k1 < k2 < N_BEHAVIOURS * |idx|
    ensures k1 / N_BEHAVIOURS != k2 / N_BEHAVIOURS || k1 % N_BEHAVIOURS != k2 % N_BEHAVIOURS
    ensures k1 / N_BEHAVIOURS < |idx| && k2 / N_BEHAVIOURS < |idx|
    ensures k1 / N_BEHAVIOURS != k2 / N_BEHAVIOURS ==> idx[k1 / N_BEHAVIOURS] != idx[k2 / N_BEHAVIOURS]
  {
  }

  // ---------------------------------------------------------------------
  // prs_select_mat

  /** The first position of `u` in `ids`, or None where the source raises IndexError. */
  function IndexOf(ids: seq<Uuid>, u: Uuid): (r: Option<nat>)
    ensures r.Some? ==> r.value < |ids| && ids[r.value] == u
    ensures r.Some? ==> forall k :: 0 <= k < r.value ==> ids[k] != u
    ensures r.None? <==> u !in ids
  {
    if ids == [] then None
    else if ids[0] == u then Some(0)
    else
      match IndexOf(ids[1..], u)
      case None => None
      case Some(k) => Some(k + 1)
  }

  /** Both identifiers of `e` are found in the catalogues. */
  predicate Known(e: PrsEntry) {
    IndexOf(BeliefUuids(), e.beliefUuid).Some? && IndexOf(BehaviourUuids(), e.behaviourUuid).Some?
  }

  /** Every entry of `es` is known. */
  predicate AllKnown(es: seq<PrsEntry>) {
    forall k :: 0 <= k < |es| ==> Known(es[k])
  }

  /** The matrix cell an entry is written to: (belief index, behaviour index). */
  function Cell(e: PrsEntry): (c: (nat, nat))
    requires Known(e)
    ensures c.0 < N_BELIEFS && c.1 < N_BEHAVIOURS
    ensures BeliefUuid(c.0) == e.beliefUuid && BehaviourUuid(c.1) == e.behaviourUuid
  {
    (IndexOf(BeliefUuids(), e.beliefUuid).value, IndexOf(BehaviourUuids(), e.behaviourUuid).value)
  }

  /** An entry naming catalogue belief `i` and behaviour `j` is written to cell (i, j). */
  lemma CellOfCatalogueIds(i: nat, j: nat, v: real)
    requires i < N_BELIEFS && j < N_BEHAVIOURS
    ensures Known(PrsEntry(BeliefUuid(i), BehaviourUuid(j), v))
    ensures Cell(PrsEntry(BeliefUuid(i), BehaviourUuid(j), v)) == (i, j)
  {
    var e := PrsEntry(BeliefUuid(i), BehaviourUuid(j), v);
    assert BeliefUuids()[i] == BeliefUuid(i);
    assert BehaviourUuids()[j] == BehaviourUuid(j);
    BeliefUuidInjective(Cell(e).0, i);
    BehaviourUuidInjective(Cell(e).1, j);
  }

  /** A prefix of a known list is known. */
  lemma AllKnownPrefix(es: seq<PrsEntry>, n: nat)
    requires AllKnown(es) && n <= |es|
    ensures AllKnown(es[..n])
  {
    assert forall k :: 0 <= k < n ==> es[..n][k] == es[k];
  }

  /** Entry `e` is written to cell (i, j). */
  predicate WritesTo(e: PrsEntry, i: nat, j: nat) {
    Known(e) && Cell(e) == (i, j)
  }

  /**
   Cell (i, j) of the matrix after writing the entries `es`, in order, into
   a zero matrix: the value of the last entry written there, or 0.
   */
  function PrsCell(es: seq<PrsEntry>, i: nat, j: nat): real
    requires AllKnown(es)
  {
    if es == [] then 0.0
    else
      var n := |es| - 1;
      AllKnownPrefix(es, n);
      if WritesTo(es[n], i, j) then es[n].value else PrsCell(es[..n], i, j)
  }

  /** The whole 20 x 4 matrix `prs_select_mat` after writing the entries `es`. */
  function PrsMatrix(es: seq<PrsEntry>): (m: seq<seq<real>>)
    requires AllKnown(es)
    ensures Rect(m, N_BELIEFS, N_BEHAVIOURS)
    ensures forall i, j :: 0 <= i < N_BELIEFS && 0 <= j < N_BEHAVIOURS ==> m[i][j] == PrsCell(es, i, j)
  {
    seq(N_BELIEFS, i requires 0 <= i < N_BELIEFS =>
      seq(N_BEHAVIOURS, j requires 0 <= j < N_BEHAVIOURS => PrsCell(es, i, j)))
  }

  /** One step of the fold: the last entry either writes cell (i, j) or leaves it as before. */
  lemma PrsCellStep(es: seq<PrsEntry>, i: nat, j: nat)
    requires AllKnown(es) && es != []
    ensures AllKnown(es[..|es| - 1])
    ensures PrsCell(es, i, j) ==
              if WritesTo(es[|es| - 1], i, j) then es[|es| - 1].value else PrsCell(es[..|es| - 1], i, j)
  {
    AllKnownPrefix(es, |es| - 1);
  }

  /** Writing one more known entry: the list stays known and only the entry's own cell changes. */
  lemma PrsCellAppend(es: seq<PrsEntry>, e: PrsEntry, i: nat, j: nat)
    requires AllKnown(es) && Known(e)
    ensures AllKnown(es + [e])
    ensures PrsCell(es + [e], i, j) == if WritesTo(e, i, j) then e.value else PrsCell(es, i, j)
  {
    assert (es + [e])[..|es|] == es;
    PrsCellStep(es + [e], i, j);
  }

  /** A cell no entry is written to stays 0. */
  lemma {:induction false} PrsCellUntouched(es: seq<PrsEntry>, i: nat, j: nat)
    requires AllKnown(es)
    requires forall k :: 0 <= k < |es| ==> !WritesTo(es[k], i, j)
    ensures PrsCell(es, i, j) == 0.0
  {
    if es != [] {
      var n := |es| - 1;
      assert forall k :: 0 <= k < n ==> es[..n][k] == es[k];
      PrsCellStep(es, i, j);
      PrsCellUntouched(es[..n], i, j);
    }
  }

  /** A cell exactly one entry is written to holds that entry's value. */
  lemma {:induction false} PrsCellWrittenOnce(es: seq<PrsEntry>, i: nat, j: nat, k: nat)
    requires AllKnown(es) && k < |es| && WritesTo(es[k], i, j)
    requires forall k' :: 0 <= k' < |es| && k' != k ==> !WritesTo(es[k'], i, j)
    ensures PrsCell(es, i, j) == es[k].value
  {
    var n := |es| - 1;
    if k < n {
      AllKnownPrefix(es, n);
      forall k' | 0 <= k' < n && k' != k ensures !WritesTo(es[..n][k'], i, j) {
        assert es[..n][k'] == es[k'];
      }
      assert es[..n][k] == es[k];
      PrsCellWrittenOnce(es[..n], i, j, k);
    }
    PrsCellStep(es, i, j);
  }

  /** Entry k of the `prs` list is known and is written to cell (k / 4-th included belief, k % 4). */
  lemma PrsListCells(mask: seq<bool>, prs: seq<seq<Param>>, prsZ: seq<seq<real>>)
    requires |mask| == N_BELIEFS && PrsInputs(prs, prsZ)
    ensures AllKnown(PrsList(mask, prs, prsZ))
    ensures forall k :: 0 <= k < |PrsList(mask, prs, prsZ)| ==>
              k / N_BEHAVIOURS < |IncludedIndices(mask)| &&
              Cell(PrsList(mask, prs, prsZ)[k]) == (IncludedIndices(mask)[k / N_BEHAVIOURS], k % N_BEHAVIOURS)
  {
    var l := PrsList(mask, prs, prsZ);
    var idx := IncludedIndices(mask);
    PrsListShape(mask, prs, prsZ);
    forall k | 0 <= k < |l|
      ensures Known(l[k]) && Cell(l[k]) == (idx[k / N_BEHAVIOURS], k % N_BEHAVIOURS)
    {
      CellOfCatalogueIds(idx[k / N_BEHAVIOURS], k % N_BEHAVIOURS, l[k].value);
    }
  }

  /** Cell (i, j) of an included belief holds its PRS draw: exactly one entry is written there. */
  lemma IncludedPrsCell(mask: seq<bool>, prs: seq<seq<Param>>, prsZ: seq<seq<real>>, i: nat, j: nat)
    requires |mask| == N_BELIEFS && PrsInputs(prs, prsZ)
    requires i < N_BELIEFS && j < N_BEHAVIOURS && mask[i]
    ensures AllKnown(PrsList(mask, prs, prsZ))
    ensures PrsCell(PrsList(mask, prs, prsZ), i, j) == CellSample(prs, prsZ, i, j)
  {
    var l := PrsList(mask, prs, prsZ);
    var idx := IncludedIndices(mask);
    var p := Position(idx, i);
    var k := N_BEHAVIOURS * p + j;
    OnlyEntryWriting(mask, prs, prsZ, p, j);
    PrsEntriesAt(idx, prs, prsZ, k);
    assert l[k] == Entry(i, j, prs, prsZ);
    PrsCellWrittenOnce(l, i, j, k);
  }

  /** Entry 4p + j is the only one written to cell (p-th included belief, j). */
  lemma OnlyEntryWriting(mask: seq<bool>, prs: seq<seq<Param>>, prsZ: seq<seq<real>>, p: nat, j: nat)
    requires |mask| == N_BELIEFS && PrsInputs(prs, prsZ)
    requires p < |IncludedIndices(mask)| && j < N_BEHAVIOURS
    ensures AllKnown(PrsList(mask, prs, prsZ))
    ensures N_BEHAVIOURS * p + j < |PrsList(mask, prs, prsZ)|
    ensures (N_BEHAVIOURS * p + j) / N_BEHAVIOURS == p && (N_BEHAVIOURS * p + j) % N_BEHAVIOURS == j
    ensures WritesTo(PrsList(mask, prs, prsZ)[N_BEHAVIOURS * p + j], IncludedIndices(mask)[p], j)
    ensures forall k' :: 0 <= k' < |PrsList(mask, prs, prsZ)| && k' != N_BEHAVIOURS * p + j ==>
              !WritesTo(PrsList(mask, prs, prsZ)[k'], IncludedIndices(mask)[p], j)
  {
    var l := PrsList(mask, prs, prsZ);
    var idx := IncludedIndices(mask);
    PrsListCells(mask, prs, prsZ);
    var k := N_BEHAVIOURS * p + j;
    assert k / N_BEHAVIOURS == p && k % N_BEHAVIOURS == j;
    forall k' | 0 <= k' < |l| && k' != k ensures !WritesTo(l[k'], idx[p], j) {
      if k' < k { PairPosition(idx, k', k); } else { PairPosition(idx, k, k'); }
    }
  }

  /** Cell (i, j) of an excluded belief stays 0: no entry is written there. */
  lemma ExcludedPrsCell(mask: seq<bool>, prs: seq<seq<Param>>, prsZ: seq<seq<real>>, i: nat, j: nat)
    requires |mask| == N_BELIEFS && PrsInputs(prs, prsZ)
    requires i < N_BELIEFS && j < N_BEHAVIOURS && !mask[i]
    ensures AllKnown(PrsList(mask, prs, prsZ))
    ensures PrsCell(PrsList(mask, prs, prsZ), i, j) == 0.0
  {
    PrsListCells(mask, prs, prsZ);
    PrsCellUntouched(PrsList(mask, prs, prsZ), i, j);
  }

  /**
   Rebuilding `prs_select_mat` from the `prs` list puts every included
   belief's PRS value at (belief index, behaviour index) and leaves the
   rows of excluded beliefs at 0.
   */
  lemma PrsMatrixOfPrsList(mask: seq<bool>, prs: seq<seq<Param>>, prsZ: seq<seq<real>>)
    requires |mask| == N_BELIEFS && PrsInputs(prs, prsZ)
    ensures AllKnown(PrsList(mask, prs, prsZ))
    ensures forall i, j :: 0 <= i < N_BELIEFS && 0 <= j < N_BEHAVIOURS ==>
              PrsCell(PrsList(mask, prs, prsZ), i, j) == if mask[i] then CellSample(prs, prsZ, i, j) else 0.0
  {
    PrsListCells(mask, prs, prsZ);
    forall i, j | 0 <= i < N_BELIEFS && 0 <= j < N_BEHAVIOURS
      ensures PrsCell(PrsList(mask, prs, prsZ), i, j) == if mask[i] then CellSample(prs, prsZ, i, j) else 0.0
    {
      if mask[i] {
        IncludedPrsCell(mask, prs, prsZ, i, j);
      } else {
        ExcludedPrsCell(mask, prs, prsZ, i, j);
      }
    }
  }

  /**
   The loop rebuilding `prs_select_mat`: a zero matrix, then each entry's
   value written at (index of its belief id, index of its behaviour id).
   `ok` is false where the source would raise IndexError on an identifier
   missing from the catalogues.
   */
  method RebuildPrsMatrix(prs: seq<PrsEntry>) returns (ok: bool, mat: array2<real>)
    ensures fresh(mat) && mat.Length0 == N_BELIEFS && mat.Length1 == N_BEHAVIOURS
    ensures ok <==> AllKnown(prs)
    ensures ok ==> forall i, j :: 0 <= i < N_BELIEFS && 0 <= j < N_BEHAVIOURS ==> mat[i, j] == PrsCell(prs, i, j)
  {
    mat := new real[N_BELIEFS, N_BEHAVIOURS]((_, _) => 0.0);
    var k := 0;
    while k < |prs|
      invariant 0 <= k <= |prs|
      invariant AllKnown(prs[..k])
      invariant forall i, j :: 0 <= i < N_BELIEFS && 0 <= j < N_BEHAVIOURS ==> mat[i, j] == PrsCell(prs[..k], i, j)
    {
      var r := IndexOf(BeliefUuids(), prs[k].beliefUuid);
      var c := IndexOf(BehaviourUuids(), prs[k].behaviourUuid);
      if r.None? || c.None? {
        assert !Known(prs[k]);
        return false, mat;
      }
      assert Cell(prs[k]) == (r.value, c.value);
      mat[r.value, c.value] := prs[k].value;
      assert prs[..k + 1] == prs[..k] + [prs[k]];
      forall i, j | 0 <= i < N_BELIEFS && 0 <= j < N_BEHAVIOURS
        ensures mat[i, j] == PrsCell(prs[..k + 1], i, j)
      {
        PrsCellAppend(prs[..k], prs[k], i, j);
      }
      k := k + 1;
    }
    assert prs[..k] == prs;
    ok := true;
  }

  /** The rows of `prs_select_mat` at the included beliefs. */
  function SelectRows(mat: seq<seq<real>>, idx: seq<nat>): (rows: seq<seq<real>>)
    requires forall k :: 0 <= k < |idx| ==> idx[k] < |mat|
    ensures |rows| == |idx| && forall k :: 0 <= k < |idx| ==> rows[k] == mat[idx[k]]
  {
    seq(|idx|, k requires 0 <= k < |idx| => mat[idx[k]])
  }

  /** The PRS values of the included beliefs: one row of 4 per included belief. */
  function IncludedPrsValues(mask: seq<bool>, prs: seq<seq<Param>>, prsZ: seq<seq<real>>): (rows: seq<seq<real>>)
    requires |mask| == N_BELIEFS && PrsInputs(prs, prsZ)
    ensures Rect(rows, |IncludedIndices(mask)|, N_BEHAVIOURS)
  {
    var idx := IncludedIndices(mask);
    seq(|idx|, k requires 0 <= k < |idx| =>
      seq(N_BEHAVIOURS, j requires 0 <= j < N_BEHAVIOURS => CellSample(prs, prsZ, idx[k], j)))
  }

  /** The included rows of the rebuilt matrix are exactly the included beliefs' PRS values. */
  lemma SelectedRowsArePrsValues(mask: seq<bool>, prs: seq<seq<Param>>, prsZ: seq<seq<real>>)
    requires |mask| == N_BELIEFS && PrsInputs(prs, prsZ)
    ensures AllKnown(PrsList(mask, prs, prsZ))
    ensures SelectRows(PrsMatrix(PrsList(mask, prs, prsZ)), IncludedIndices(mask)) == IncludedPrsValues(mask, prs, prsZ)
  {
    PrsMatrixOfPrsList(mask, prs, prsZ);
    var idx := IncludedIndices(mask);
    var a := SelectRows(PrsMatrix(PrsList(mask, prs, prsZ)), idx);
    var b := IncludedPrsValues(mask, prs, prsZ);
    forall k | 0 <= k < |idx| ensures a[k] == b[k] {
      forall j | 0 <= j < N_BEHAVIOURS ensures a[k][j] == b[k][j] {
        SelectedCell(mask, prs, prsZ, k, j);
      }
    }
  }

  /** Cell j of the k-th selected row is the k-th included belief's PRS value for behaviour j. */
  lemma SelectedCell(mask: seq<bool>, prs: seq<seq<Param>>, prsZ: seq<seq<real>>, k: nat, j: nat)
    requires |mask| == N_BELIEFS && PrsInputs(prs, prsZ)
    requires k < |IncludedIndices(mask)| && j < N_BEHAVIOURS
    ensures AllKnown(PrsList(mask, prs, prsZ))
    ensures PrsMatrix(PrsList(mask, prs, prsZ))[IncludedIndices(mask)[k]][j] == IncludedPrsValues(mask, prs, prsZ)[k][j]
  {
    PrsMatrixOfPrsList(mask, prs, prsZ);
  }
}
