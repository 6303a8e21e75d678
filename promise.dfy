/** The promise object: a state that is settled at most once, a buffer of
    handlers waiting for settlement, and the dispatches it has scheduled. */
module Promises {
  import opened States
  import opened Handlers

  /** One step a resolver function takes synchronously while the promise is
      being initialised: call its `resolve` block, call its `reject` block, or
      throw (which ends the resolver). */
  datatype ResolverAction<T, E> = CallResolve(value: T) | CallReject(error: E) | Throw(error: E)

  /** The terminal state a resolver action asks for. */
  function ActionState<T, E>(a: ResolverAction<T, E>): (s: State<T, E>)
    ensures !s.IsPending()
  {
    match a
    case CallResolve(v) => Resolved(v)
    case CallReject(e) => Rejected(e)
    case Throw(e) => Rejected(e)
  }

  /** The state reached from `s` by running the resolver's actions in order:
      each one attempts a settlement, and a throw, caught by the initialiser
      and turned into a rejection, ends the resolver. */
  function RunResolver<T, E>(s: State<T, E>, script: seq<ResolverAction<T, E>>): (r: State<T, E>)
    ensures !s.IsPending() ==> r == s
    ensures script != [] ==> !r.IsPending()
    ensures script == [] ==> r == s
    decreases |script|
  {
    if script == [] then s
    else if script[0].Throw? then Settle(s, ActionState(script[0]))
    else RunResolver(Settle(s, ActionState(script[0])), script[1..])
  }

  /** Whatever the resolver does first decides the state: later calls of
      `resolve` or `reject`, and a later throw, change nothing. */
  lemma {:induction false} FirstActionDecides<T, E>(s: State<T, E>, script: seq<ResolverAction<T, E>>)
    requires script != []
    ensures RunResolver(s, script) == Settle(s, ActionState(script[0]))
    decreases |script|
  {
    if !script[0].Throw? && |script| > 1 {
      var s1 := Settle(s, ActionState(script[0]));
      FirstActionDecides(s1, script[1..]);
      SettleIsPermanent(s, ActionState(script[0]), ActionState(script[1]));
    }
  }

  /** A resolver that throws before calling either block rejects the promise
      with the thrown error. */
  lemma ThrowFirstRejects<T, E>(e: E, rest: seq<ResolverAction<T, E>>)
    ensures RunResolver(Pending, [Throw(e)] + rest) == Rejected(e)
  {
    FirstActionDecides(Pending, [Throw(e)] + rest);
  }

  /** A throw after the resolver called `resolve` or `reject` has no effect. */
  lemma {:induction false} LateThrowIgnored<T, E>(calls: seq<ResolverAction<T, E>>, e: E)
    requires calls != [] && !calls[0].Throw?
    ensures RunResolver(Pending, calls + [Throw(e)]) == RunResolver(Pending, calls)
    ensures RunResolver(Pending, calls) == ActionState(calls[0])
  {
    FirstActionDecides(Pending, calls);
    FirstActionDecides(Pending, calls + [Throw(e)]);
    assert (calls + [Throw(e)])[0] == calls[0];
  }

  class Promise<T, E> {
    /** Pending until the first settlement, then fixed for good */
    var state: State<T, E>
    /** Handlers registered while pending, kept in registration order until settlement */
    var stateHandlers: seq<Handler>
    /** Every callback this promise has handed to a queue, oldest first */
    var outbox: seq<Dispatch<T, E>>
    /** Ghost history: each handler ever passed to AddHandlers, oldest first */
    ghost var registered: seq<Handler>

    /** While pending, every registered handler is buffered and nothing is
        scheduled; once settled, the buffer is empty and each registered handler
        of the settled polarity has been scheduled exactly once, in registration
        order. */
    ghost predicate Valid()
      reads this
    {
      stateHandlers == (if state.IsPending() then registered else []) &&
      outbox == Matching(registered, state)
    }

    /** A promise born already settled with the value `result` */
    constructor Resolve(result: T)
      ensures Valid()
      ensures state == Resolved(result) && stateHandlers == [] && outbox == [] && registered == []
    {
      state := Resolved(result);
      stateHandlers := [];
      outbox := [];
      registered := [];
    }

    /** A promise born already settled with the failure `error` */
    constructor Reject(error: E)
      ensures Valid()
      ensures state == Rejected(error) && stateHandlers == [] && outbox == [] && registered == []
    {
      state := Rejected(error);
      stateHandlers := [];
      outbox := [];
      registered := [];
    }

    /** A promise that starts pending and then replays the resolver's
        synchronous actions in order; a throw is caught and turned into a
        rejection, and ends the replay. */
    constructor WithResolver(script: seq<ResolverAction<T, E>>)
      ensures Valid()
      ensures state == RunResolver(Pending, script)
      ensures stateHandlers == [] && outbox == [] && registered == []
    {
      state := Pending;
      stateHandlers := [];
      outbox := [];
      registered := [];
      new;
      var i := 0;
      while i < |script|
        invariant 0 <= i <= |script|
        invariant Valid() && stateHandlers == [] && outbox == [] && registered == []
        invariant RunResolver(state, script[i..]) == RunResolver(Pending, script)
      {
        var before := state;
        match script[i] {
          case CallResolve(v) =>
            Set(Resolved(v));
          case CallReject(e) =>
            Set(Rejected(e));
          case Throw(e) =>
            Set(Rejected(e));
            assert RunResolver(before, script[i..]) == state;
            break;
        }
        assert script[i..][1..] == script[i + 1..];
        i := i + 1;
      }
    }

    /** Snapshot read of whether settlement has happened yet; while it has not,
        nothing has been handed to a queue, and once it has, the buffer is empty. */
    function IsPending(): (b: bool)
      reads this
      requires Valid()
      ensures b <==> state.IsPending()
      ensures b ==> outbox == []
      ensures !b ==> stateHandlers == []
    {
      state.IsPending()
    }

    /** Snapshot read of the success value: when present, every resolve handler
        ever registered has been handed to its queue with it, oldest first. */
    function Result(): (r: Option<T>)
      reads this
      requires Valid()
      ensures r.Some? ==> state == Resolved(r.value)
      ensures r.Some? ==> stateHandlers == [] && outbox == Matching(registered, Resolved(r.value))
      ensures r.None? ==> !state.Resolved?
    {
      state.Result()
    }

    /** Snapshot read of the failure value: when present, every reject handler
        ever registered has been handed to its queue with it, oldest first. */
    function Error(): (r: Option<E>)
      reads this
      requires Valid()
      ensures r.Some? ==> state == Rejected(r.value)
      ensures r.Some? ==> stateHandlers == [] && outbox == Matching(registered, Rejected(r.value))
      ensures r.None? ==> !state.Rejected?
    {
      state.Error()
    }

    /** Settlement attempt: on a pending promise it fixes the outcome, hands
        the buffered handlers of that polarity to their queues, oldest first,
        and empties the buffer; on a settled promise it does nothing. */
    method Set(newState: State<T, E>)
      requires Valid() && !newState.IsPending()
      modifies this
      ensures Valid()
      ensures state == Settle(old(state), newState)
      ensures registered == old(registered)
      ensures stateHandlers == []
      ensures old(state).IsPending() ==> outbox == old(outbox) + Matching(old(stateHandlers), newState)
      ensures !old(state).IsPending() ==> outbox == old(outbox)
    {
      if !state.IsPending() {
        return;
      }
      state := newState;
      var i := 0;
      while i < |stateHandlers|
        invariant 0 <= i <= |stateHandlers|
        modifies this`outbox
        invariant outbox == old(outbox) + Matching(stateHandlers[..i], state)
      {
        match (state, stateHandlers[i]) {
          case (Resolved(result), OnResolve(queue, block)) =>
            outbox := outbox + [RunWithResult(queue, block, result)];
          case (Rejected(error), OnReject(queue, block)) =>
            outbox := outbox + [RunWithError(queue, block, error)];
          case _ =>
        }
        assert stateHandlers[..i + 1][..i] == stateHandlers[..i];
        i := i + 1;
      }
      assert stateHandlers[..i] == stateHandlers;
      stateHandlers := [];
    }

    /** Registration of a batch: while pending the batch joins the end of the
        buffer; once settled, the batch's handlers of the settled polarity go
        to their queues at once, in batch order. Gives back the same object. */
    method AddHandlers(handlers: seq<Handler>) returns (self: Promise<T, E>)
      requires Valid()
      modifies this
      ensures Valid() && self == this
      ensures state == old(state)
      ensures registered == old(registered) + handlers
      ensures old(state).IsPending() ==> stateHandlers == old(stateHandlers) + handlers && outbox == old(outbox)
      ensures !old(state).IsPending() ==>
                stateHandlers == [] && outbox == old(outbox) + Matching(handlers, state)
    {
      match state {
        case Pending =>
          stateHandlers := stateHandlers + handlers;
        case Resolved(result) =>
          ForEachRunHandlerWithResult(handlers, result);
        case Rejected(error) =>
          ForEachRunHandlerWithError(handlers, error);
      }
      MatchingAppend(registered, handlers, state);
      registered := registered + handlers;
      self := this;
    }

    /** Appends, in batch order, one dispatch carrying `result` for each
        resolve handler of the batch. */
    method ForEachRunHandlerWithResult(handlers: seq<Handler>, result: T)
      modifies this`outbox
      ensures outbox == old(outbox) + Matching(handlers, Resolved(result))
    {
      for i := 0 to |handlers|
        invariant outbox == old(outbox) + Matching(handlers[..i], Resolved(result))
      {
        RunHandlerWithResult(handlers[i], result);
        assert handlers[..i + 1][..i] == handlers[..i];
      }
      assert handlers[..|handlers|] == handlers;
    }

    /** Appends, in batch order, one dispatch carrying `error` for each
        reject handler of the batch. */
    method ForEachRunHandlerWithError(handlers: seq<Handler>, error: E)
      modifies this`outbox
      ensures outbox == old(outbox) + Matching(handlers, Rejected(error))
    {
      for i := 0 to |handlers|
        invariant outbox == old(outbox) + Matching(handlers[..i], Rejected(error))
      {
        RunHandlerWithError(handlers[i], error);
        assert handlers[..i + 1][..i] == handlers[..i];
      }
      assert handlers[..|handlers|] == handlers;
    }

    /** Appends a dispatch carrying `result` when `handler` has resolve
        polarity, and nothing otherwise. */
    method RunHandlerWithResult(handler: Handler, result: T)
      modifies this`outbox
      ensures outbox == old(outbox) + Scheduled(handler, Resolved(result))
    {
      match handler {
        case OnResolve(queue, block) =>
          outbox := outbox + [RunWithResult(queue, block, result)];
        case _ =>
      }
    }

    /** Appends a dispatch carrying `error` when `handler` has reject
        polarity, and nothing otherwise. */
    method RunHandlerWithError(handler: Handler, error: E)
      modifies this`outbox
      ensures outbox == old(outbox) + Scheduled(handler, Rejected(error))
    {
      match handler {
        case OnReject(queue, block) =>
          outbox := outbox + [RunWithError(queue, block, error)];
        case _ =>
      }
    }
  }
}
