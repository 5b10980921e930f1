/** The fixed vocabulary of hardware counters a perf log line may name (`valid_cols`). */
module Columns {

  const ValidCols: seq<string> := [
    "dtlb_load_misses.walk_completed", "dtlb_load_misses.walk_pending", "dtlb_load_misses.walk_active",
    "dtlb_store_misses.walk_completed", "dtlb_store_misses.walk_pending", "dtlb_store_misses.walk_active",
    "itlb_misses.walk_completed", "itlb_misses.walk_pending", "itlb_misses.walk_active",
    "cycles:ukhHG"]

  /** `valid_cols.index(name)`: the position of the first column with that name. */
  function IndexOf(name: string): (k: nat)
    requires name in ValidCols
    ensures k < |ValidCols| && ValidCols[k] == name
    ensures forall j :: 0 <= j < k ==> ValidCols[j] != name
  {
    IndexFrom(name, 0)
  }

  function IndexFrom(name: string, start: nat): (k: nat)
    requires start <= |ValidCols| && name in ValidCols[start..]
    ensures start <= k < |ValidCols| && ValidCols[k] == name
    ensures forall j :: start <= j < k ==> ValidCols[j] != name
    decreases |ValidCols| - start
  {
    if ValidCols[start] == name then start else IndexFrom(name, start + 1)
  }

  /** No name occurs twice, so a column is identified by its name alone. */
  lemma ColumnsDistinct()
    ensures forall i, j :: 0 <= i < j < |ValidCols| ==> ValidCols[i] != ValidCols[j]
  {
    var c := ValidCols;
    assert c[0][0] == 'd' && c[3][0] == 'd' && c[6][0] == 'i' && c[9][0] == 'c';
  }

  /** Under distinct names, the first position of a name is its only position. */
  lemma IndexOfUnique(name: string, j: nat)
    requires name in ValidCols && j < |ValidCols|
    ensures ValidCols[j] == name <==> j == IndexOf(name)
  {
    ColumnsDistinct();
  }
}
