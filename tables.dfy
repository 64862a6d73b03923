/** A table as the queries see it: rows keyed by id below the sequence's
    next value. `SELECT ... WHERE` with an inner join is a selection over
    the ids in increasing order; `SELECT COUNT(*) ... WHERE` counts rows. */
module Tables {
  import opened Common

  /** The rows below `n` that `view` selects (the filter and the join),
      as it shows them, in increasing id order. */
  function Select<R, V>(rows: map<nat, R>, n: nat, view: (nat, R) -> Option<V>): (vs: seq<V>)
    ensures |vs| <= n
    ensures forall v :: v in vs ==> exists id: nat :: id < n && id in rows && view(id, rows[id]) == Some(v)
  {
    if n == 0 then []
    else
      var rest := Select(rows, n - 1, view);
      if n - 1 in rows && view(n - 1, rows[n - 1]).Some? then rest + [view(n - 1, rows[n - 1]).value] else rest
  }

  /** Every selected row below `n` is in the selection. */
  lemma {:induction false} SelectComplete<R, V>(rows: map<nat, R>, n: nat, view: (nat, R) -> Option<V>)
    ensures forall id: nat :: id < n && id in rows && view(id, rows[id]).Some? ==>
      view(id, rows[id]).value in Select(rows, n, view)
  {
    if n > 0 {
      SelectComplete(rows, n - 1, view);
    }
  }

  /** The number of rows below `n` that `keep` accepts. */
  function Count<R>(rows: map<nat, R>, n: nat, keep: R -> bool): (c: nat)
    ensures c <= n
  {
    if n == 0 then 0
    else Count(rows, n - 1, keep) + (if n - 1 in rows && keep(rows[n - 1]) then 1 else 0)
  }

  /** When the join drops no row the filter keeps, the count is the
      size of the selection. */
  lemma {:induction false} SelectCounted<R, V>(rows: map<nat, R>, n: nat, view: (nat, R) -> Option<V>, keep: R -> bool)
    requires forall id :: id in rows ==> (keep(rows[id]) <==> view(id, rows[id]).Some?)
    ensures |Select(rows, n, view)| == Count(rows, n, keep)
  {
    if n > 0 {
      SelectCounted(rows, n - 1, view, keep);
    }
  }

  /** A join that drops rows makes the selection smaller than the count. */
  lemma {:induction false} SelectAtMostCount<R, V>(rows: map<nat, R>, n: nat, view: (nat, R) -> Option<V>, keep: R -> bool)
    requires forall id :: id in rows && view(id, rows[id]).Some? ==> keep(rows[id])
    ensures |Select(rows, n, view)| <= Count(rows, n, keep)
  {
    if n > 0 {
      SelectAtMostCount(rows, n - 1, view, keep);
    }
  }
}
