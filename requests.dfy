/** src/requests.js: the class that keeps the pending requests. Each method
    changes the object's fields in place and is proved to take the table to
    the state the matching function of RequestTable describes, keeping the
    table's invariant. */
module PendingRequests {
  import opened JsValues
  import opened Promises
  import opened RequestTable

  /** The ids whose map entries a `forEach` over `items` has visited, given
      the ids it still has to visit, as the requests they point at. */
  ghost function Visited(t: Table, remaining: set<Value>): (r: set<nat>)
  {
    set id | id in t.items && id !in remaining :: t.items[id]
  }

  class Requests {
    /** `_items`: request id to the request currently registered under it. */
    var items: map<Value, nat>
    /** Every request created so far, indexed by identity. */
    var requests: seq<Request>
    /** Settled requests whose `finally` callback is queued. */
    var hooks: set<nat>

    function State(): (r: Table)
      reads this
    {
      Table(items, requests, hooks)
    }

    ghost predicate Valid()
      reads this
    {
      Consistent(State())
    }

    constructor()
      ensures Valid() && State() == Empty
    {
      items, requests, hooks := map[], [], {};
      EmptyConsistent();
    }

    /** Settles request `k` through its controller; the first settlement wins
        and queues the request's `finally` callback. */
    method SettleRequest(k: nat, outcome: Settlement)
      requires k < |requests| && !outcome.Pending?
      modifies this
      ensures State() == SettleAt(old(State()), k, outcome)
    {
      if requests[k].state.Pending? {
        requests := requests[k := requests[k].(state := outcome)];
        hooks := hooks + {k};
      }
    }

    /** `create(requestId, fn, timeout)`: `thrown` is what calling `fn`
        threw, if anything. Returns the new request. */
    method Create(id: Value, thrown: Option<Reason>, timeout: Value) returns (k: nat)
      requires Valid()
      modifies this
      ensures Valid()
      ensures State() == AfterCreate(old(State()), id, timeout, thrown)
      ensures k == |old(requests)| && k < |requests| && items == old(items)[id := k]
    {
      ghost var t0 := State();
      RejectExistingRequest(id);
      RejectExistingConsistent(t0, id);
      k := CreateNewRequest(id, thrown, timeout);
    }

    /** `resolve(requestId, data)`. */
    method Resolve(id: Value, data: Value)
      requires Valid()
      modifies this
      ensures Valid() && State() == AfterResolve(old(State()), id, data)
    {
      ResolveConsistent(State(), id, data);
      if Truthy(id) && id in items {
        SettleRequest(items[id], Fulfilled(data));
      }
    }

    /** `reject(requestId, reason)` of the library the socket wrapper keeps
        its pending promises in. */
    method Reject(id: Value, reason: Reason)
      requires Valid()
      modifies this
      ensures Valid() && State() == AfterReject(old(State()), id, reason)
    {
      RejectConsistent(State(), id, reason);
      if id in items {
        SettleRequest(items[id], Rejected(reason));
      }
    }

    /** `rejectAll(error)`: the `forEach` over the map, rejecting each entry
        that is still pending. */
    method RejectAll(reason: Reason)
      requires Valid()
      modifies this
      ensures Valid() && State() == AfterRejectAll(old(State()), reason)
    {
      ghost var t0 := State();
      RejectAllConsistent(t0, reason);
      var remaining := items.Keys;
      while remaining != {}
        invariant remaining <= t0.items.Keys
        invariant State() == RejectSome(t0, Visited(t0, remaining), reason)
        decreases remaining
      {
        var id :| id in remaining;
        var k := items[id];
        assert Visited(t0, remaining - {id}) == Visited(t0, remaining) + {k};
        RejectSomeStep(t0, Visited(t0, remaining), k, reason);
        if requests[k].state.Pending? {
          SettleRequest(k, Rejected(reason));
        }
        remaining := remaining - {id};
      }
      assert Visited(t0, {}) == t0.items.Values;
    }

    /** `_rejectExistingRequest(requestId)`. */
    method RejectExistingRequest(id: Value)
      requires Bounded(State())
      modifies this
      ensures State() == AfterRejectExisting(old(State()), id)
    {
      if id in items && requests[items[id]].state.Pending? {
        SettleRequest(items[id], Rejected(Error(ReplacedMessage(id))));
      }
    }

    /** `_createNewRequest(requestId, fn, timeout)`: registers a fresh request
        under the id, then calls `fn` through it. */
    method CreateNewRequest(id: Value, thrown: Option<Reason>, timeout: Value) returns (k: nat)
      requires Consistent(State())
      requires id in items ==> !Current(State(), id).state.Pending?
      modifies this
      ensures Valid()
      ensures k == |old(requests)|
      ensures State() == AfterCall(AfterCreateNew(old(State()), id, timeout), k, thrown)
    {
      ghost var t0 := State();
      CreateNewConsistent(t0, id, timeout);
      k := |requests|;
      requests := requests + [Request(id, Pending, timeout)];
      items := items[id := k];
      CallConsistent(State(), k, thrown);
      if thrown.Some? {
        SettleRequest(k, Rejected(thrown.value));
      }
    }

    /** `_deleteRequest(requestId, request)`: removes the entry only while the
        map still holds that same request. */
    method DeleteRequest(id: Value, k: nat)
      modifies this
      ensures State() == AfterDelete(old(State()), id, k)
    {
      if id in items && items[id] == k {
        items := items - {id};
      }
    }

    /** The `finally` callback queued for request `k` runs. */
    method OnSettled(k: nat)
      requires Valid() && k in hooks
      modifies this
      ensures Valid() && State() == AfterSettled(old(State()), k)
    {
      SettledConsistent(State(), k);
      DeleteRequest(requests[k].id, k);
      hooks := hooks - {k};
    }

    /** The timer of request `k` fires. */
    method FireTimeout(k: nat)
      requires Valid() && k < |requests|
      modifies this
      ensures Valid() && State() == AfterTimeout(old(State()), k)
    {
      TimeoutConsistent(State(), k);
      var r := requests[k];
      if Truthy(r.timeout) {
        SettleRequest(k, Rejected(Error(TimeoutReason(r.timeout, r.id))));
      }
    }
  }
}
