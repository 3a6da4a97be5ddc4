/** What src/requests.js promises about its table, proved of the step
    functions of RequestTable (and so of the Requests class, whose methods are
    proved to follow them). */
module RequestTableProperties {
  import opened JsValues
  import opened Promises
  import opened RequestTable

  /** `create` under an id whose request is still pending rejects that request
      with the "replaced" error, naming the id. */
  lemma CreateRejectsPendingPredecessor(t: Table, id: Value, timeout: Value, thrown: Option<Reason>)
    requires Bounded(t) && id in t.items && Current(t, id).state.Pending?
    ensures var r := AfterCreate(t, id, timeout, thrown);
            |r.requests| == |t.requests| + 1 &&
            r.requests[t.items[id]] == Current(t, id).(state := Rejected(Error(ReplacedMessage(id))))
  {
  }

  /** `create` leaves an already settled request under the same id as it
      was: only the map slot is overwritten. */
  lemma CreateKeepsSettledPredecessor(t: Table, id: Value, timeout: Value, thrown: Option<Reason>)
    requires Bounded(t) && id in t.items && !Current(t, id).state.Pending?
    ensures var r := AfterCreate(t, id, timeout, thrown);
            r.requests[..|t.requests|] == t.requests && r.hooks <= t.hooks + {|t.requests|}
  {
    var r := AfterCreate(t, id, timeout, thrown);
    assert r.requests[..|t.requests|] == (t.requests + [Request(id, Pending, timeout)])[..|t.requests|];
  }

  /** After `create(id, …)` the map's entry under `id` is the fresh request,
      pending unless calling `fn` threw; every other id keeps its entry, and
      no request other than the one replaced changes. */
  lemma CreateInstallsFreshRequest(t: Table, id: Value, timeout: Value, thrown: Option<Reason>)
    requires Bounded(t)
    ensures var r := AfterCreate(t, id, timeout, thrown);
            var k := |t.requests|;
            r.items == t.items[id := k] &&
            |r.requests| == k + 1 &&
            r.requests[k] == Request(id, if thrown.Some? then Rejected(thrown.value) else Pending, timeout) &&
            (forall j :: 0 <= j < k && (id !in t.items || j != t.items[id]) ==> r.requests[j] == t.requests[j])
  {
  }

  /** `resolve` does nothing for a falsy id (0, "", false, null, undefined)
      or an id that is not in the map. */
  lemma ResolveIgnoresFalsyOrUnknownId(t: Table, id: Value, data: Value)
    requires Bounded(t)
    requires !Truthy(id) || id !in t.items
    ensures AfterResolve(t, id, data) == t
  {
  }

  /** Otherwise `resolve` fulfils exactly the entry under that id, if it is
      still pending, and touches nothing else. */
  lemma ResolveSettlesOnlyThatEntry(t: Table, id: Value, data: Value)
    requires Bounded(t) && Truthy(id) && id in t.items
    ensures var r := AfterResolve(t, id, data);
            var k := t.items[id];
            r.items == t.items && |r.requests| == |t.requests| &&
            r.requests[k].state == Settle(t.requests[k].state, Fulfilled(data)) &&
            (forall j :: 0 <= j < |t.requests| && j != k ==> r.requests[j] == t.requests[j])
  {
  }

  /** `rejectAll` removes nothing from the map, leaves settled requests as
      they were and, on a consistent table, leaves no request pending: every
      pending request is rejected with the given reason. */
  lemma RejectAllRejectsEveryPending(t: Table, reason: Reason)
    requires Consistent(t)
    ensures var r := AfterRejectAll(t, reason);
            r.items == t.items && |r.requests| == |t.requests| &&
            (forall k :: 0 <= k < |t.requests| ==>
               r.requests[k].state == (if t.requests[k].state.Pending? then Rejected(reason) else t.requests[k].state))
  {
    var r := AfterRejectAll(t, reason);
    forall k | 0 <= k < |t.requests| && t.requests[k].state.Pending?
      ensures r.requests[k].state == Rejected(reason)
    {
      assert t.items[t.requests[k].id] == k;
    }
  }

  /** The `finally` callback of request `k` removes the entry under its id
      only when the map still holds `k` there. */
  lemma SettledHookDeletesOnlyItsOwnEntry(t: Table, k: nat)
    requires k in t.hooks && k < |t.requests|
    ensures var r := AfterSettled(t, k);
            var id := t.requests[k].id;
            r.requests == t.requests && k !in r.hooks &&
            (id in t.items && t.items[id] == k ==> r.items == t.items - {id}) &&
            (id !in t.items || t.items[id] != k ==> r.items == t.items)
  {
  }

  /** A request that was replaced under its id and then settles does not
      delete its successor: once its `finally` callback runs, the id still
      maps to the new request. */
  lemma ReplacedRequestSparesSuccessor(t: Table, id: Value, timeout: Value)
    requires Consistent(t) && id in t.items && Current(t, id).state.Pending?
    ensures var old_k := t.items[id];
            var t1 := AfterCreate(t, id, timeout, None);
            old_k in t1.hooks &&
            AfterSettled(t1, old_k).items[id] == |t.requests| &&
            AfterSettled(t1, old_k).requests[|t.requests|].state.Pending?
  {
    var old_k := t.items[id];
    var t1 := AfterCreate(t, id, timeout, None);
    CreateRejectsPendingPredecessor(t, id, timeout, None);
    assert t1.requests[old_k].id == id;
  }

  /** Once a request that was not replaced settles and its `finally`
      callback has run, its id is no longer in the map. */
  lemma SettledRequestLeavesTable(t: Table, k: nat)
    requires Consistent(t) && k in t.hooks
    ensures k < |t.requests|
    ensures t.requests[k].id in t.items && t.items[t.requests[k].id] == k ==>
              t.requests[k].id !in AfterSettled(t, k).items
  {
  }

  /** Runs every queued `finally` callback, in some order. */
  ghost function Drain(t: Table): (r: Table)
    requires Consistent(t)
    ensures Consistent(r) && r.hooks == {}
    ensures r.requests == t.requests && r.items.Keys <= t.items.Keys
    ensures forall id :: id in r.items ==> r.items[id] == t.items[id]
    decreases |t.hooks|
  {
    if t.hooks == {} then t
    else
      var k :| k in t.hooks;
      SettledConsistent(t, k);
      Drain(AfterSettled(t, k))
  }

  /** When no `finally` callback is waiting, the map holds no settled
      request: every entry is pending, and every pending request is in the
      map under its own id. */
  lemma QuiescentTableHoldsOnlyPending(t: Table)
    requires Consistent(t)
    ensures var r := Drain(t);
            (forall id :: id in r.items ==> Current(r, id).state.Pending?) &&
            (forall k :: 0 <= k < |t.requests| && t.requests[k].state.Pending? ==>
               t.requests[k].id in r.items && r.items[t.requests[k].id] == k)
  {
  }

  /** A timer that fires on a pending request with a timeout rejects it
      with the timeout message; nothing else changes. */
  lemma TimeoutRejectsWithReason(t: Table, k: nat)
    requires k < |t.requests| && t.requests[k].state.Pending? && Truthy(t.requests[k].timeout)
    ensures var r := AfterTimeout(t, k);
            var q := t.requests[k];
            r.items == t.items &&
            r.requests == t.requests[k := q.(state := Rejected(Error(TimeoutReason(q.timeout, q.id))))]
  {
  }
}
