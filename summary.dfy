/**
  * The plan summary that both the preview and the outbound payload carry:
  * how many executions, how many items, and the first and last timestamps.
  */
module PlanSummary {
  import opened Types

  datatype Summary = Summary(
    totalExecutions: int,
    totalItems: int,
    firstExecution: int,
    lastExecution: int)

  /** Timestamps strictly increase along the list. */
  predicate Ascending(s: seq<Execution>)
  {
    forall i, j :: 0 <= i < j < |s| ==> s[i].timestamp < s[j].timestamp
  }

  /** The items of a list, summed left to right as `reduce` does from 0. */
  function TotalItems(s: seq<Execution>): (total: int)
    ensures (forall i :: 0 <= i < |s| ==> s[i].batchSize >= 0) ==> total >= 0
  {
    if s == [] then 0 else TotalItems(s[..|s| - 1]) + s[|s| - 1].batchSize
  }

  /** The fold distributes over concatenation. */
  lemma {:induction false} TotalItemsAppend(a: seq<Execution>, b: seq<Execution>)
    ensures TotalItems(a + b) == TotalItems(a) + TotalItems(b)
    decreases |b|
  {
    if b == [] {
      assert a + b == a;
    } else {
      assert (a + b)[..|a + b| - 1] == a + b[..|b| - 1];
      assert (a + b)[|a + b| - 1] == b[|b| - 1];
      TotalItemsAppend(a, b[..|b| - 1]);
    }
  }

  /** A list whose batches all have one size holds that size times its length. */
  lemma {:induction false} TotalItemsUniform(s: seq<Execution>, size: int)
    requires forall i :: 0 <= i < |s| ==> s[i].batchSize == size
    ensures TotalItems(s) == |s| * size
  {
    if s != [] {
      TotalItemsUniform(s[..|s| - 1], size);
    }
  }

  /**
    * The summary of a non-empty list; on an ascending list its first and last
    * timestamps bound every execution's.
    */
  function Summarize(s: seq<Execution>): (r: Summary)
    requires |s| > 0
    ensures r.totalExecutions == |s| > 0
    ensures Ascending(s) ==>
      forall i :: 0 <= i < |s| ==> r.firstExecution <= s[i].timestamp <= r.lastExecution
  {
    Summary(|s|, TotalItems(s), s[0].timestamp, s[|s| - 1].timestamp)
  }
}
