/** `get_pw_latency`: pending page walks per completed page walk, over one run's totals. */
module Latency {
  import opened Columns

  /** A totals vector: one entry per counter column. */
  type Totals = t: seq<int> | |t| == |ValidCols| witness [0, 0, 0, 0, 0, 0, 0, 0, 0, 0]

  /** Sum of the three `walk_pending` totals. */
  function Pending(totals: Totals): int {
    totals[IndexOf("dtlb_load_misses.walk_pending")]
      + totals[IndexOf("dtlb_store_misses.walk_pending")]
      + totals[IndexOf("itlb_misses.walk_pending")]
  }

  /** Sum of the three `walk_completed` totals. */
  function Completed(totals: Totals): int {
    totals[IndexOf("dtlb_load_misses.walk_completed")]
      + totals[IndexOf("dtlb_store_misses.walk_completed")]
      + totals[IndexOf("itlb_misses.walk_completed")]
  }

  /** The source prints a divide-by-zero warning exactly in this case. */
  predicate DivideByZeroWarning(totals: Totals) {
    Completed(totals) == 0
  }

  /** Zero when nothing completed; otherwise the ratio pending / completed, i.e. the
      one value that multiplied by the completed sum gives the pending sum. */
  function PageWalkLatency(totals: Totals): (r: real)
    ensures DivideByZeroWarning(totals) ==> r == 0.0
    ensures !DivideByZeroWarning(totals) ==> r * Completed(totals) as real == Pending(totals) as real
  {
    if Completed(totals) == 0 then 0.0 else Pending(totals) as real / Completed(totals) as real
  }

  /** The positions the three pending and three completed columns occupy. */
  lemma WalkColumns()
    ensures IndexOf("dtlb_load_misses.walk_completed") == 0
    ensures IndexOf("dtlb_load_misses.walk_pending") == 1
    ensures IndexOf("dtlb_store_misses.walk_completed") == 3
    ensures IndexOf("dtlb_store_misses.walk_pending") == 4
    ensures IndexOf("itlb_misses.walk_completed") == 6
    ensures IndexOf("itlb_misses.walk_pending") == 7
  {
    ColumnsDistinct();
  }

  /** The `walk_active` and `cycles` totals (columns 2, 5, 8 and 9) never affect the latency. */
  lemma {:induction false} LatencyIgnoresOtherColumns(t1: Totals, t2: Totals)
    requires forall k :: k in {0, 1, 3, 4, 6, 7} ==> t1[k] == t2[k]
    ensures PageWalkLatency(t1) == PageWalkLatency(t2)
    ensures DivideByZeroWarning(t1) == DivideByZeroWarning(t2)
  {
    WalkColumns();
    assert Pending(t1) == Pending(t2) by {
      assert t1[1] == t2[1] && t1[4] == t2[4] && t1[7] == t2[7];
    }
    assert Completed(t1) == Completed(t2) by {
      assert t1[0] == t2[0] && t1[3] == t2[3] && t1[6] == t2[6];
    }
  }
}
