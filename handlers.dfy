/** Handlers registered on a promise, and the dispatches they turn into once
    the promise settles. */
module Handlers {
  import opened States

  /** A dispatch queue, identified abstractly. */
  type QueueId = nat

  /** An opaque callback block, identified abstractly. */
  type CallbackId = nat

  /** A block to run on a queue when the promise resolves, or when it rejects. */
  datatype Handler = OnResolve(queue: QueueId, callback: CallbackId)
                   | OnReject(queue: QueueId, callback: CallbackId)

  /** One asynchronous submission: a callback block handed to its queue,
      together with the value or error it will receive. */
  datatype Dispatch<+T, +E> = RunWithResult(queue: QueueId, callback: CallbackId, result: T)
                            | RunWithError(queue: QueueId, callback: CallbackId, error: E)

  /** The handler's polarity matches the settled state. */
  predicate Matches<T, E>(h: Handler, s: State<T, E>) {
    (h.OnResolve? && s.Resolved?) || (h.OnReject? && s.Rejected?)
  }

  /** The dispatch carries the settled outcome of `s` with the right polarity. */
  ghost predicate Delivers<T, E>(d: Dispatch<T, E>, s: State<T, E>) {
    match d
    case RunWithResult(_, _, v) => s == Resolved(v)
    case RunWithError(_, _, e) => s == Rejected(e)
  }

  /** The dispatch that a matching handler produces. */
  function DispatchFor<T, E>(h: Handler, s: State<T, E>): (d: Dispatch<T, E>)
    requires Matches(h, s)
    ensures Delivers(d, s)
    ensures d.queue == h.queue && d.callback == h.callback
  {
    if h.OnResolve? then RunWithResult(h.queue, h.callback, s.value)
    else RunWithError(h.queue, h.callback, s.error)
  }

  /** What one handler schedules against the state `s`: its dispatch when its
      polarity matches, nothing otherwise. */
  function Scheduled<T, E>(h: Handler, s: State<T, E>): (r: seq<Dispatch<T, E>>)
    ensures |r| == (if Matches(h, s) then 1 else 0)
    ensures forall d :: d in r ==> Delivers(d, s) && d.queue == h.queue && d.callback == h.callback
  {
    if Matches(h, s) then [DispatchFor(h, s)] else []
  }

  /** The dispatches that running the handlers `hs`, in order, against the state
      `s` schedules. */
  function Matching<T, E>(hs: seq<Handler>, s: State<T, E>): (r: seq<Dispatch<T, E>>)
    ensures |r| <= |hs|
    ensures forall d :: d in r ==> Delivers(d, s)
    ensures s.IsPending() ==> r == []
  {
    if hs == [] then []
    else Matching(hs[..|hs| - 1], s) + Scheduled(hs[|hs| - 1], s)
  }

  /** The positions, in increasing order, of the handlers in `hs` that match `s`. */
  function MatchIndices<T, E>(hs: seq<Handler>, s: State<T, E>): seq<nat> {
    if hs == [] then []
    else MatchIndices(hs[..|hs| - 1], s) + (if Matches(hs[|hs| - 1], s) then [|hs| - 1] else [])
  }

  /** Handlers are run batch after batch: what two consecutive batches schedule
      is what the first schedules followed by what the second schedules. */
  lemma {:induction false} MatchingAppend<T, E>(a: seq<Handler>, b: seq<Handler>, s: State<T, E>)
    ensures Matching(a + b, s) == Matching(a, s) + Matching(b, s)
    decreases |b|
  {
    if b == [] {
      assert a + b == a;
    } else {
      var n := |b| - 1;
      assert (a + b)[..|a + b| - 1] == a + b[..n];
      assert (a + b)[|a + b| - 1] == b[n];
      MatchingAppend(a, b[..n], s);
    }
  }

  /** Every selected position is in range, holds a matching handler, and the
      positions strictly increase. */
  lemma {:induction false} MatchIndicesSound<T, E>(hs: seq<Handler>, s: State<T, E>)
    ensures forall k :: 0 <= k < |MatchIndices(hs, s)| ==>
              MatchIndices(hs, s)[k] < |hs| && Matches(hs[MatchIndices(hs, s)[k]], s)
    ensures forall j, k :: 0 <= j < k < |MatchIndices(hs, s)| ==>
              MatchIndices(hs, s)[j] < MatchIndices(hs, s)[k]
    decreases |hs|
  {
    if hs != [] {
      var n := |hs| - 1;
      var init := hs[..n];
      MatchIndicesSound(init, s);
      var idx0 := MatchIndices(init, s);
      var idx := MatchIndices(hs, s);
      assert forall k :: 0 <= k < |idx0| ==> idx[k] == idx0[k] && hs[idx0[k]] == init[idx0[k]];
    }
  }

  /** Every matching handler's position is selected. */
  lemma {:induction false} MatchIndicesComplete<T, E>(hs: seq<Handler>, s: State<T, E>, i: nat)
    requires i < |hs| && Matches(hs[i], s)
    ensures i in MatchIndices(hs, s)
    decreases |hs|
  {
    var n := |hs| - 1;
    if i < n {
      var init := hs[..n];
      assert init[i] == hs[i];
      MatchIndicesComplete(init, s, i);
    }
  }

  /** The k-th scheduled dispatch is that of the handler at the k-th selected position. */
  lemma {:induction false} MatchingAt<T, E>(hs: seq<Handler>, s: State<T, E>)
    ensures |Matching(hs, s)| == |MatchIndices(hs, s)|
    ensures forall k :: 0 <= k < |MatchIndices(hs, s)| ==>
              MatchIndices(hs, s)[k] < |hs| && Matches(hs[MatchIndices(hs, s)[k]], s) &&
              Matching(hs, s)[k] == DispatchFor(hs[MatchIndices(hs, s)[k]], s)
    decreases |hs|
  {
    MatchIndicesSound(hs, s);
    if hs != [] {
      var n := |hs| - 1;
      var init := hs[..n];
      MatchingAt(init, s);
      MatchIndicesSound(init, s);
      var idx0 := MatchIndices(init, s);
      var m0 := Matching(init, s);
      assert forall k :: 0 <= k < |idx0| ==> hs[idx0[k]] == init[idx0[k]];
      assert Matching(hs, s) == m0 + Scheduled(hs[n], s);
      assert MatchIndices(hs, s) == idx0 + (if Matches(hs[n], s) then [n] else []);
    }
  }

  /** Polarity filtering, order and exactly-once: the k-th scheduled dispatch is
      that of the k-th matching handler; the positions selected strictly increase
      (registration order, no handler twice); a handler is selected iff its
      polarity matches, so handlers of the other polarity are dropped. */
  lemma {:induction false} MatchingSelects<T, E>(hs: seq<Handler>, s: State<T, E>)
    ensures |Matching(hs, s)| == |MatchIndices(hs, s)|
    ensures forall k :: 0 <= k < |MatchIndices(hs, s)| ==>
              MatchIndices(hs, s)[k] < |hs| && Matches(hs[MatchIndices(hs, s)[k]], s) &&
              Matching(hs, s)[k] == DispatchFor(hs[MatchIndices(hs, s)[k]], s)
    ensures forall j, k :: 0 <= j < k < |MatchIndices(hs, s)| ==>
              MatchIndices(hs, s)[j] < MatchIndices(hs, s)[k]
    ensures forall i :: 0 <= i < |hs| ==> (Matches(hs[i], s) <==> i in MatchIndices(hs, s))
  {
    MatchingAt(hs, s);
    MatchIndicesSound(hs, s);
    var idx := MatchIndices(hs, s);
    forall i | 0 <= i < |hs|
      ensures Matches(hs[i], s) <==> i in idx
    {
      if Matches(hs[i], s) {
        MatchIndicesComplete(hs, s, i);
      }
    }
  }
}
