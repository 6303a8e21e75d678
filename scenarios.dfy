/** Clients of the promise: what callers can conclude from the contracts of
    `Promise` alone. */
module Scenarios {
  import opened States
  import opened Handlers
  import opened Promises

  /** A promise made with a result, then given one resolve handler: that
      handler is scheduled once, with the result. */
  method ResolvedThenHandler() returns (scheduled: seq<Dispatch<string, nat>>)
    ensures scheduled == [RunWithResult(0, 1, "a")]
  {
    var p := new Promise<string, nat>.Resolve("a");
    assert !p.IsPending() && p.Result() == Some("a") && p.Error() == None;
    var _ := p.AddHandlers([OnResolve(0, 1)]);
    scheduled := p.outbox;
  }

  /** A resolver that rejects, then a batch with two reject handlers and a
      resolve handler: both reject handlers get the error, in order, and the
      resolve handler never runs. */
  method RejectingResolver(error: nat) returns (scheduled: seq<Dispatch<string, nat>>)
    ensures scheduled == [RunWithError(0, 1, error), RunWithError(1, 3, error)]
  {
    var p := new Promise<string, nat>.WithResolver([CallReject(error)]);
    FirstActionDecides<string, nat>(Pending, [CallReject(error)]);
    var batch := [OnReject(0, 1), OnResolve(0, 2), OnReject(1, 3)];
    var _ := p.AddHandlers(batch);
    var s: State<string, nat> := Rejected(error);
    assert p.state == s;
    assert batch[..1][..0] == [];
    assert Matching(batch[..1], s) == [RunWithError(0, 1, error)];
    assert batch[..2][..1] == batch[..1];
    assert Matching(batch[..2], s) == [RunWithError(0, 1, error)];
    assert batch[..3][..2] == batch[..2] && batch[..3] == batch;
    scheduled := p.outbox;
  }

  /** A resolve handler registered before settlement and another registered
      after it each receive the value once, on their own queues. */
  method HandlersAroundSettlement<T, E>(value: T) returns (scheduled: seq<Dispatch<T, E>>)
    ensures scheduled == [RunWithResult(0, 1, value), RunWithResult(1, 2, value)]
  {
    var p := new Promise<T, E>.WithResolver([]);
    var _ := p.AddHandlers([OnResolve(0, 1), OnReject(0, 3)]);
    p.Set(Resolved(value));
    var _ := p.AddHandlers([OnResolve(1, 2)]);
    scheduled := p.outbox;
  }

  /** Many settlement attempts on one pending promise, one after another (the
      serial order `stateQueue` imposes on concurrent callers): the first one
      becomes the permanent state and no other changes it. */
  method RepeatedSettlements<T, E>(attempts: seq<State<T, E>>) returns (final: State<T, E>)
    requires attempts != []
    requires forall k :: 0 <= k < |attempts| ==> !attempts[k].IsPending()
    ensures final == attempts[0]
  {
    var p := new Promise<T, E>.WithResolver([]);
    for i := 0 to |attempts|
      invariant p.Valid()
      invariant i == 0 ==> p.state == Pending
      invariant i > 0 ==> p.state == attempts[0]
    {
      p.Set(attempts[i]);
    }
    final := p.state;
  }
}
