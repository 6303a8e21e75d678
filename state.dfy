/** The settlement state of a promise and its three read-only projections. */
module States {

  /** Swift's optional: `nil` or a present value. */
  datatype Option<+T> = None | Some(value: T)

  /** The state of a promise: pending, or settled for good with a value or an error.
      `T` is the promise's result type and `E` stands for Swift's `Error`. */
  datatype State<+T, +E> = Pending | Resolved(value: T) | Rejected(error: E)
  {
    /** True exactly for the one non-terminal state: neither resolved nor
        rejected. */
    predicate IsPending()
      ensures IsPending() <==> !Resolved? && !Rejected?
    {
      match this
      case Pending => true
      case _ => false
    }

    /** Projection onto the success channel: present exactly for a resolved
        state, and then holding the value it was resolved with. */
    function Result(): (r: Option<T>)
      ensures r.Some? ==> this == Resolved(r.value)
      ensures r.None? ==> !Resolved?
    {
      match this
      case Resolved(result) => Some(result)
      case _ => None
    }

    /** Projection onto the failure channel: present exactly for a rejected
        state, and then holding the error it was rejected with. */
    function Error(): (r: Option<E>)
      ensures r.Some? ==> this == Rejected(r.value)
      ensures r.None? ==> !Rejected?
    {
      match this
      case Rejected(error) => Some(error)
      case _ => None
    }
  }

  /** Exactly one of the three projections reports something. */
  lemma ProjectionsPartition<T, E>(s: State<T, E>)
    ensures s.IsPending() ==> s.Result() == None && s.Error() == None
    ensures s.Result().Some? ==> !s.IsPending() && s.Error() == None
    ensures s.Error().Some? ==> !s.IsPending() && s.Result() == None
    ensures s.IsPending() || s.Result().Some? || s.Error().Some?
  {
  }

  /** `result` carries the value iff the state is resolved with it;
      `error` carries the error iff the state is rejected with it. */
  lemma ProjectionsExact<T, E>(s: State<T, E>, v: T, e: E)
    ensures s.Result() == Some(v) <==> s == Resolved(v)
    ensures s.Error() == Some(e) <==> s == Rejected(e)
  {
  }

  /** The state change performed by `set(state:)`: only a pending state takes
      the new one; a settled state is never replaced. */
  function Settle<T, E>(s: State<T, E>, next: State<T, E>): (r: State<T, E>)
    requires !next.IsPending()
    ensures !r.IsPending()
    ensures r == s || r == next
  {
    if s.IsPending() then next else s
  }

  /** Single assignment: once settled, any further settlement attempt, of either
      polarity, leaves the state as the first one made it. */
  lemma SettleIsPermanent<T, E>(s: State<T, E>, first: State<T, E>, later: State<T, E>)
    requires !first.IsPending() && !later.IsPending()
    ensures Settle(Settle(s, first), later) == Settle(s, first)
    ensures s.IsPending() ==> Settle(Settle(s, first), later) == first
  {
  }
}
