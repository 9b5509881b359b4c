/** Stored query rows and the ledger rows that mirror them, as the two repair planners read them. */
module UsageRows {
  import opened Wrappers
  import opened Rollouts

  /** Costs are reals; timestamps are seconds. */
  datatype StoredQuery = StoredQuery(id: nat, session: string, timestamp: real, cost: real, estimatedCost: Option<real>,
                                     costKnown: int, usage: Usage, turns: nat, contextWindow: Option<int>,
                                     tokensInContext: Option<int>)

  datatype StoredUsageQuery = StoredUsageQuery(id: nat, session: Option<string>, timestamp: real, cost: real,
                                               estimatedCost: Option<real>, costKnown: int, unpriced: int, usage: Usage,
                                               turns: nat, provider: string)

  /** Estimated costs compare up to a billionth. */
  predicate NumberEqual(a: Option<real>, b: Option<real>) {
    if a.None? || b.None? then a == b else -0.000000001 < a.value - b.value < 0.000000001
  }

  /** Rows come in timestamp order. */
  ghost predicate InTimeOrder(queries: seq<StoredQuery>) {
    forall i, j :: 0 <= i < j < |queries| ==> queries[i].timestamp <= queries[j].timestamp
  }
}
