/** The pending-request table of src/requests.js as a value, with one function
    per step the class takes and the invariant every step keeps.

    Every PromiseController the table ever created lives in `requests`; its
    index there is its object identity, so "the map still holds that same
    request object" is `items[id] == k`. Promises the table has let go of stay
    in `requests`, because their callers still hold them. `hooks` holds the
    requests that have settled and whose `finally` callback has not run yet. */
module RequestTable {
  import opened JsValues
  import opened Promises

  /** One PromiseController, with the id that its `finally` callback captured
      and the timeout it was created with. */
  datatype Request = Request(id: Value, state: Settlement, timeout: Value)

  datatype Table = Table(items: map<Value, nat>, requests: seq<Request>, hooks: set<nat>)

  const ReplacedPrefix := "WebSocket request is replaced, id: "
  const TimeoutPrefix := "WebSocket request was rejected by timeout ("
  const TimeoutMiddle := " ms). RequestId: "

  /** Message of the error a replaced request is rejected with. */
  function ReplacedMessage(id: Value): (r: string)
  {
    ReplacedPrefix + Text(id)
  }

  /** Message of the error a request is rejected with when its timer fires. */
  function TimeoutReason(timeout: Value, id: Value): (r: string)
  {
    TimeoutPrefix + Text(timeout) + TimeoutMiddle + Text(id)
  }

  /** Recovers the timeout and the text of the request id from a numeric
      timeout message. */
  function ParseTimeoutReason(m: string): (r: Option<(int, string)>)
  {
    ReadIntBetween(TimeoutPrefix, TimeoutMiddle, m)
  }

  /** The timeout message carries both the timeout and the request id: both
      can be read back from it. */
  lemma TimeoutReasonRoundTrip(timeout: int, id: Value)
    ensures ParseTimeoutReason(TimeoutReason(Num(timeout), id)) == Some((timeout, Text(id)))
  {
    assert TimeoutMiddle[0] == ' ';
    ReadIntBetweenText(TimeoutPrefix, TimeoutMiddle, timeout, Text(id));
  }

  /** Every id in the map points at a request that exists. */
  predicate Bounded(t: Table)
  {
    forall id :: id in t.items ==> t.items[id] < |t.requests|
  }

  function Current(t: Table, id: Value): (r: Request)
    requires Bounded(t) && id in t.items
  {
    t.requests[t.items[id]]
  }

  /** The table's invariant:
      - the map entry under `id` is a request created under `id`;
      - every pending request is the map's entry for its id (nothing pending
        is ever lost from the map);
      - a queued `finally` callback belongs to a settled request;
      - a settled request still in the map has its `finally` callback queued,
        so it will be removed. */
  ghost predicate Consistent(t: Table)
  {
    Bounded(t) &&
    (forall id :: id in t.items ==> Current(t, id).id == id) &&
    (forall k :: 0 <= k < |t.requests| && t.requests[k].state.Pending? ==>
       t.requests[k].id in t.items && t.items[t.requests[k].id] == k) &&
    (forall k :: k in t.hooks ==> k < |t.requests| && !t.requests[k].state.Pending?) &&
    (forall id :: id in t.items && !Current(t, id).state.Pending? ==> t.items[id] in t.hooks)
  }

  const Empty := Table(map[], [], {})

  /** Settling request `k`: if it is still pending it takes `outcome` and its
      `finally` callback is queued; otherwise nothing changes. */
  function SettleAt(t: Table, k: nat, outcome: Settlement): (r: Table)
    requires k < |t.requests| && !outcome.Pending?
  {
    if t.requests[k].state.Pending? then
      t.(requests := t.requests[k := t.requests[k].(state := outcome)], hooks := t.hooks + {k})
    else t
  }

  /** `_rejectExistingRequest(id)`. */
  function AfterRejectExisting(t: Table, id: Value): (r: Table)
    requires Bounded(t)
  {
    if id in t.items then SettleAt(t, t.items[id], Rejected(Error(ReplacedMessage(id)))) else t
  }

  /** `_createNewRequest(id, …)` up to `_items.set`: a fresh pending request
      becomes the map's entry under `id`. */
  function AfterCreateNew(t: Table, id: Value, timeout: Value): (r: Table)
  {
    t.(items := t.items[id := |t.requests|], requests := t.requests + [Request(id, Pending, timeout)])
  }

  /** `request.call(fn)`: a callback that throws rejects request `k`. */
  function AfterCall(t: Table, k: nat, thrown: Option<Reason>): (r: Table)
    requires k < |t.requests|
  {
    if thrown.Some? then SettleAt(t, k, Rejected(thrown.value)) else t
  }

  /** `create(id, fn, timeout)`, where `thrown` is what calling `fn` threw. */
  function AfterCreate(t: Table, id: Value, timeout: Value, thrown: Option<Reason>): (r: Table)
    requires Bounded(t)
  {
    AfterCall(AfterCreateNew(AfterRejectExisting(t, id), id, timeout), |t.requests|, thrown)
  }

  /** `resolve(id, data)`. */
  function AfterResolve(t: Table, id: Value, data: Value): (r: Table)
    requires Bounded(t)
  {
    if Truthy(id) && id in t.items then SettleAt(t, t.items[id], Fulfilled(data)) else t
  }

  /** `reject(id, reason)` of the library the socket wrapper uses: rejects
      the entry under `id` when there is one. */
  function AfterReject(t: Table, id: Value, reason: Reason): (r: Table)
    requires Bounded(t)
  {
    if id in t.items then SettleAt(t, t.items[id], Rejected(reason)) else t
  }

  /** Rejects, among the requests `ks`, those still pending. */
  function RejectSome(t: Table, ks: set<nat>, reason: Reason): (r: Table)
  {
    t.(requests := seq(|t.requests|, k requires 0 <= k < |t.requests| =>
                         if k in ks
                         then t.requests[k].(state := Settle(t.requests[k].state, Rejected(reason)))
                         else t.requests[k]),
       hooks := t.hooks + set k | k in ks && k < |t.requests| && t.requests[k].state.Pending?)
  }

  /** `rejectAll(error)`: every entry of the map that is pending is rejected. */
  function AfterRejectAll(t: Table, reason: Reason): (r: Table)
  {
    RejectSome(t, t.items.Values, reason)
  }

  /** `_deleteRequest(id, request)`. */
  function AfterDelete(t: Table, id: Value, k: nat): (r: Table)
  {
    if id in t.items && t.items[id] == k then t.(items := t.items - {id}) else t
  }

  /** The queued `finally` callback of request `k` runs. */
  function AfterSettled(t: Table, k: nat): (r: Table)
    requires k in t.hooks && k < |t.requests|
  {
    AfterDelete(t, t.requests[k].id, k).(hooks := t.hooks - {k})
  }

  /** The timer of request `k` fires; a request without a timeout has no
      timer, and settling a request clears its timer. */
  function AfterTimeout(t: Table, k: nat): (r: Table)
    requires k < |t.requests|
  {
    var r := t.requests[k];
    if Truthy(r.timeout) then SettleAt(t, k, Rejected(Error(TimeoutReason(r.timeout, r.id)))) else t
  }

  // ---- every step keeps the invariant ----

  lemma EmptyConsistent()
    ensures Consistent(Empty)
  {
  }

  lemma SettleAtConsistent(t: Table, k: nat, outcome: Settlement)
    requires Consistent(t) && k < |t.requests| && !outcome.Pending?
    ensures Consistent(SettleAt(t, k, outcome))
  {
    var t' := SettleAt(t, k, outcome);
    forall id | id in t'.items && !Current(t', id).state.Pending?
      ensures t'.items[id] in t'.hooks
    {
      if t'.items[id] != k {
        assert Current(t', id) == Current(t, id);
      }
    }
  }

  lemma RejectExistingConsistent(t: Table, id: Value)
    requires Consistent(t)
    ensures Consistent(AfterRejectExisting(t, id))
    ensures var t' := AfterRejectExisting(t, id);
            t'.items == t.items && |t'.requests| == |t.requests| &&
            (id in t'.items ==> !Current(t', id).state.Pending?)
  {
    if id in t.items {
      SettleAtConsistent(t, t.items[id], Rejected(Error(ReplacedMessage(id))));
    }
  }

  lemma CreateNewConsistent(t: Table, id: Value, timeout: Value)
    requires Consistent(t)
    requires id in t.items ==> !Current(t, id).state.Pending?
    ensures Consistent(AfterCreateNew(t, id, timeout))
  {
    var t' := AfterCreateNew(t, id, timeout);
    var n := |t.requests|;
    forall k | 0 <= k < |t'.requests| && t'.requests[k].state.Pending?
      ensures t'.requests[k].id in t'.items && t'.items[t'.requests[k].id] == k
    {
      if k < n {
        assert t'.requests[k] == t.requests[k];
        assert t.requests[k].id != id;
      }
    }
    forall id' | id' in t'.items && !Current(t', id').state.Pending?
      ensures t'.items[id'] in t'.hooks
    {
      assert id' != id;
      assert Current(t', id') == Current(t, id');
    }
  }

  lemma CallConsistent(t: Table, k: nat, thrown: Option<Reason>)
    requires Consistent(t) && k < |t.requests|
    ensures Consistent(AfterCall(t, k, thrown))
  {
    if thrown.Some? {
      SettleAtConsistent(t, k, Rejected(thrown.value));
    }
  }

  lemma CreateConsistent(t: Table, id: Value, timeout: Value, thrown: Option<Reason>)
    requires Consistent(t)
    ensures Consistent(AfterCreate(t, id, timeout, thrown))
  {
    var t1 := AfterRejectExisting(t, id);
    RejectExistingConsistent(t, id);
    CreateNewConsistent(t1, id, timeout);
    CallConsistent(AfterCreateNew(t1, id, timeout), |t.requests|, thrown);
  }

  lemma ResolveConsistent(t: Table, id: Value, data: Value)
    requires Consistent(t)
    ensures Consistent(AfterResolve(t, id, data))
  {
    if Truthy(id) && id in t.items {
      SettleAtConsistent(t, t.items[id], Fulfilled(data));
    }
  }

  lemma RejectConsistent(t: Table, id: Value, reason: Reason)
    requires Consistent(t)
    ensures Consistent(AfterReject(t, id, reason))
  {
    if id in t.items {
      SettleAtConsistent(t, t.items[id], Rejected(reason));
    }
  }

  lemma RejectAllConsistent(t: Table, reason: Reason)
    requires Consistent(t)
    ensures Consistent(AfterRejectAll(t, reason))
  {
    var t' := AfterRejectAll(t, reason);
    forall id | id in t'.items && !Current(t', id).state.Pending?
      ensures t'.items[id] in t'.hooks
    {
      var k := t.items[id];
      assert k in t.items.Values;
    }
    forall k | 0 <= k < |t'.requests| && t'.requests[k].state.Pending?
      ensures t'.requests[k].id in t'.items && t'.items[t'.requests[k].id] == k
    {
      assert t.requests[k].state.Pending?;
    }
  }

  lemma SettledConsistent(t: Table, k: nat)
    requires Consistent(t) && k in t.hooks
    ensures k < |t.requests|
    ensures Consistent(AfterSettled(t, k))
  {
    var t' := AfterSettled(t, k);
    var id := t.requests[k].id;
    forall id' | id' in t'.items && !Current(t', id').state.Pending?
      ensures t'.items[id'] in t'.hooks
    {
      assert Current(t, id').id == id';
      assert t.items[id'] != k;
    }
  }

  lemma TimeoutConsistent(t: Table, k: nat)
    requires Consistent(t) && k < |t.requests|
    ensures Consistent(AfterTimeout(t, k))
  {
    var r := t.requests[k];
    if Truthy(r.timeout) {
      SettleAtConsistent(t, k, Rejected(Error(TimeoutReason(r.timeout, r.id))));
    }
  }

  /** Rejecting one more request `k` of the map. */
  lemma RejectSomeStep(t: Table, ks: set<nat>, k: nat, reason: Reason)
    requires k < |t.requests|
    ensures var u := RejectSome(t, ks, reason);
            (u.requests[k].state.Pending? ==> SettleAt(u, k, Rejected(reason)) == RejectSome(t, ks + {k}, reason)) &&
            (!u.requests[k].state.Pending? ==> u == RejectSome(t, ks + {k}, reason))
  {
    var u := RejectSome(t, ks, reason);
    var v := RejectSome(t, ks + {k}, reason);
    assert u.requests[k].state.Pending? <==> k !in ks && t.requests[k].state.Pending?;
    if u.requests[k].state.Pending? {
      assert SettleAt(u, k, Rejected(reason)).requests == v.requests;
    } else {
      assert u.requests == v.requests;
    }
  }
}
