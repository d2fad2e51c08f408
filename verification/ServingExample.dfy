/** A request that ends with more tokens than it asked for. */
module ServingExamples {
  import opened Basics
  import opened ConvexAllocation
  import opened ServingModel
  import opened ServingTurns
  import opened Servers

  /** One request for one token after a prompt of one token. */
  function OneToken(): Requests {
    map[0 := Request(1, 1, 0.0, None, None, None, 0, 0, [])]
  }

  lemma OneTokenWork(reqs: Requests)
    requires reqs == OneToken()
    ensures Work(reqs) <= 3 && ValidWorkload(reqs, [0])
  {
    assert IsWork(reqs, Work(reqs));
    TotalRemove(Lefts(reqs), 0);
    assert Lefts(reqs) - {0} == map[];
  }

  /** A request for one token ends with two. */
  method OneTokenBecomesTwo() returns (server: Server)
    ensures fresh(server) && server.Valid() && server.reqs.Keys == {0} && server.reqs[0].output == 1
    ensures server.reqs[0].finish.Some? && server.reqs[0].generated == 2
  {
    var reqs, limits := OneToken(), Limits(1, 1, 1, 2.0);
    var cost: CostModel := (stage, batch, ctx, chunk) => StepCost(1.0, {});
    OneTokenWork(reqs);
    server := new Server(reqs, [0], limits, cost, (n, t) => t, {});
    server.Run(7);
    EverythingFinished([0], server.State(), 2.0, 0);
    assert Alike(reqs, server.reqs, 0);
  }
}
