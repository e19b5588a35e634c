/**
 * Sliding windows for supervised training (`_prepare_training_data`'s loop):
 * each window pairs `seqLen` consecutive rows as input with the `horizon`
 * rows that follow them, flattened, as target.
 */
module Windows {
  import opened Readings

  /** `len(range(n - seqLen - horizon + 1))`: how many windows fit in `n` rows. */
  function WindowCount(n: nat, seqLen: nat, horizon: nat): nat {
    if seqLen + horizon <= n then n - seqLen - horizon + 1 else 0
  }

  /** `scaled[i : i + seqLen]`. */
  function InputWindow(rows: seq<Reading>, i: nat, seqLen: nat): seq<Reading>
    requires i + seqLen <= |rows|
  {
    rows[i..i + seqLen]
  }

  /** `scaled[i + seqLen : i + seqLen + horizon].reshape(-1)`. */
  function TargetWindow(rows: seq<Reading>, i: nat, seqLen: nat, horizon: nat): seq<real>
    requires i + seqLen + horizon <= |rows|
  {
    Flatten(rows[i + seqLen..i + seqLen + horizon])
  }

  /**
   * The loop that appends one input window and one target window per
   * starting index, oldest first.
   */
  method SlidingWindows(rows: seq<Reading>, seqLen: nat, horizon: nat)
    returns (inputs: seq<seq<Reading>>, targets: seq<seq<real>>)
    ensures |inputs| == |targets| == WindowCount(|rows|, seqLen, horizon)
    ensures forall i :: 0 <= i < |inputs| ==>
      i + seqLen + horizon <= |rows| && inputs[i] == InputWindow(rows, i, seqLen)
    ensures forall i :: 0 <= i < |targets| ==>
      i + seqLen + horizon <= |rows| && targets[i] == TargetWindow(rows, i, seqLen, horizon)
  {
    var count := WindowCount(|rows|, seqLen, horizon);
    inputs, targets := [], [];
    for idx := 0 to count
      invariant |inputs| == |targets| == idx
      invariant forall i :: 0 <= i < idx ==>
        i + seqLen + horizon <= |rows| && inputs[i] == InputWindow(rows, i, seqLen)
      invariant forall i :: 0 <= i < idx ==>
        i + seqLen + horizon <= |rows| && targets[i] == TargetWindow(rows, i, seqLen, horizon)
    {
      var xWindow := rows[idx..idx + seqLen];
      var yWindow := Flatten(rows[idx + seqLen..idx + seqLen + horizon]);
      inputs := inputs + [xWindow];
      targets := targets + [yWindow];
    }
  }

  /** When there are more rows than `seqLen + horizon`, at least two windows fit and the last one ends at the last row. */
  lemma WindowCountBounds(n: nat, seqLen: nat, horizon: nat)
    requires seqLen + horizon < n
    ensures WindowCount(n, seqLen, horizon) >= 2
    ensures WindowCount(n, seqLen, horizon) - 1 + seqLen + horizon == n
  {
  }

  /** A target window holds `horizon` rows of three features each. */
  lemma TargetWindowLength(rows: seq<Reading>, i: nat, seqLen: nat, horizon: nat)
    requires i + seqLen + horizon <= |rows|
    ensures |TargetWindow(rows, i, seqLen, horizon)| == 3 * horizon
  {
  }

  /** Feature `c` of step `k` of target window `i` is column `c` of row `i + seqLen + k`. */
  lemma TargetWindowAt(rows: seq<Reading>, i: nat, seqLen: nat, horizon: nat, k: nat, c: nat)
    requires i + seqLen + horizon <= |rows| && k < horizon && c < 3
    ensures TargetWindow(rows, i, seqLen, horizon)[3 * k + c] == Column(rows[i + seqLen + k], c)
  {
    FlattenAt(rows[i + seqLen..i + seqLen + horizon], k, c);
  }

  /**
   * A target window continues its input window: reading the target back as
   * rows and appending it to the input gives the contiguous block
   * `rows[i .. i + seqLen + horizon]` of the original order.
   */
  lemma WindowsAreContiguous(rows: seq<Reading>, i: nat, seqLen: nat, horizon: nat)
    requires i + seqLen + horizon <= |rows|
    ensures Unflatten(TargetWindow(rows, i, seqLen, horizon)) == rows[i + seqLen..i + seqLen + horizon]
    ensures InputWindow(rows, i, seqLen) + Unflatten(TargetWindow(rows, i, seqLen, horizon))
         == rows[i..i + seqLen + horizon]
  {
    UnflattenFlatten(rows[i + seqLen..i + seqLen + horizon]);
  }

  /** Window `i + 1` is window `i` slid forward by one row. */
  lemma ConsecutiveInputWindows(rows: seq<Reading>, i: nat, seqLen: nat)
    requires seqLen >= 1 && i + 1 + seqLen <= |rows|
    ensures InputWindow(rows, i + 1, seqLen) == InputWindow(rows, i, seqLen)[1..] + [rows[i + seqLen]]
  {
  }
}
