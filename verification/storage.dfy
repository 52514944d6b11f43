/** The rows of a table keyed by an auto-increment integer primary key, as the
    `SELECT ... WHERE ...` queries of the backend return them. SQL leaves the
    order of rows unspecified when no ORDER BY is given; this model returns
    them in ascending key order, which is also creation order. */
module Storage {

  predicate StrictlyIncreasing(ks: seq<int>) {
    forall i, j :: 0 <= i < j < |ks| ==> ks[i] < ks[j]
  }

  /** The keys below `hi` (and at least 1) whose row satisfies `keep`, ascending. */
  function KeysWhere<T>(m: map<int, T>, hi: int, keep: T -> bool): (ks: seq<int>)
    ensures StrictlyIncreasing(ks)
    ensures forall i :: 0 <= i < |ks| ==> 1 <= ks[i] < hi && ks[i] in m && keep(m[ks[i]])
    ensures forall k :: 1 <= k < hi && k in m && keep(m[k]) ==> k in ks
    decreases hi
  {
    if hi <= 1 then []
    else
      var prev := KeysWhere(m, hi - 1, keep);
      if hi - 1 in m && keep(m[hi - 1]) then prev + [hi - 1] else prev
  }

  /** The rows stored under the keys `ks`, in that order. */
  function RowsAt<T>(m: map<int, T>, ks: seq<int>): (rows: seq<T>)
    requires forall i :: 0 <= i < |ks| ==> ks[i] in m
    ensures |rows| == |ks| && forall i :: 0 <= i < |ks| ==> rows[i] == m[ks[i]]
  {
    if ks == [] then [] else [m[ks[0]]] + RowsAt(m, ks[1..])
  }
}
