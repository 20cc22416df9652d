/**
 `choose_initial_actions`: each agent's initial behaviour is the index of
 the largest entry of its activation row multiplied by the PRS rows of the
 included beliefs, the first such index when several entries tie (numpy's
 `argmax`).
 */
module Actions {
  import opened Sampling
  import opened Catalogue

  /** The rows of `rows` all have an entry `j`. */
  predicate HasColumn(rows: seq<seq<real>>, j: nat) {
    forall k :: 0 <= k < |rows| ==> j < |rows[k]|
  }

  /**
   Entry `j` of the vector-matrix product `act · rows`:
   the sum over k of `act[k] * rows[k][j]`.
   */
  function Score(act: seq<real>, rows: seq<seq<real>>, j: nat): (r: real)
    requires |rows| == |act| && HasColumn(rows, j)
    ensures (forall k :: 0 <= k < |act| ==> act[k] == 0.0) ==> r == 0.0
  {
    if act == [] then 0.0
    else
      var n := |act| - 1;
      Score(act[..n], rows[..n], j) + act[n] * rows[n][j]
  }

  /** One row of the product of the activation matrix with the PRS rows: a score per behaviour. */
  function Scores(act: seq<real>, rows: seq<seq<real>>): (s: seq<real>)
    requires Rect(rows, |act|, N_BEHAVIOURS)
    ensures |s| == N_BEHAVIOURS
    ensures forall j :: 0 <= j < N_BEHAVIOURS ==> s[j] == Score(act, rows, j)
  {
    seq(N_BEHAVIOURS, j requires 0 <= j < N_BEHAVIOURS => Score(act, rows, j))
  }

  /**
   `k` is where `np.argmax` stops: no entry is larger than `s[k]` and every
   entry before `k` is strictly smaller.
   */
  predicate IsFirstMax(s: seq<real>, k: nat) {
    && k < |s|
    && (forall j :: 0 <= j < |s| ==> s[j] <= s[k])
    && (forall j :: 0 <= j < k ==> s[j] < s[k])
  }

  /** `np.argmax` of a non-empty row. */
  function ArgMax(s: seq<real>): (k: nat)
    requires |s| > 0
    ensures IsFirstMax(s, k)
  {
    if |s| == 1 then 0
    else
      var n := |s| - 1;
      var k := ArgMax(s[..n]);
      assert forall j :: 0 <= j < n ==> s[..n][j] == s[j];
      if s[n] > s[k] then n else k
  }

  /** A row has exactly one first maximum. */
  lemma FirstMaxUnique(s: seq<real>, k: nat)
    requires IsFirstMax(s, k)
    ensures forall j: nat :: IsFirstMax(s, j) <==> j == k
  {
    forall j: nat | j < k ensures !IsFirstMax(s, j) {
      assert s[j] < s[k];
    }
    forall j: nat | k < j ensures !IsFirstMax(s, j) {
      if j < |s| {
        assert s[j] <= s[k];
      }
    }
  }

  /**
   `choose_initial_actions`: for every agent's activation
   row, the first index of the largest behaviour score.
   */
  function ChooseInitialActions(acts: seq<seq<real>>, rows: seq<seq<real>>): (a: seq<nat>)
    requires Rect(rows, |rows|, N_BEHAVIOURS)
    requires forall i :: 0 <= i < |acts| ==> |acts[i]| == |rows|
    ensures |a| == |acts|
    ensures forall i :: 0 <= i < |acts| ==> a[i] < N_BEHAVIOURS && IsFirstMax(Scores(acts[i], rows), a[i])
  {
    seq(|acts|, i requires 0 <= i < |acts| => ArgMax(Scores(acts[i], rows)))
  }

  /**
   An agent whose activations are all zero scores every behaviour 0, and
   the tie-break then picks the first catalogue behaviour ("Walk").
   */
  lemma AllZeroActivationsChooseFirst(acts: seq<seq<real>>, rows: seq<seq<real>>, i: nat)
    requires Rect(rows, |rows|, N_BEHAVIOURS)
    requires forall i :: 0 <= i < |acts| ==> |acts[i]| == |rows|
    requires i < |acts| && forall k :: 0 <= k < |acts[i]| ==> acts[i][k] == 0.0
    ensures ChooseInitialActions(acts, rows)[i] == 0
  {
    var s := Scores(acts[i], rows);
    assert forall j :: 0 <= j < N_BEHAVIOURS ==> s[j] == 0.0;
    FirstMaxUnique(s, ChooseInitialActions(acts, rows)[i]);
    assert IsFirstMax(s, 0);
  }
}
