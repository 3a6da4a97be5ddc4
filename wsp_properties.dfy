/** What src/index.js decides, proved of the step functions of Wsp (and so of
    the WebSocketAsPromised class, whose methods are proved to follow them). */
module WspProperties {
  import opened JsValues
  import opened Promises
  import opened RequestTable
  import opened RequestTableProperties
  import opened Wsp

  /** `request` with a falsy or non-object `data` is refused with an error
      naming the value, and touches neither the table nor the socket. */
  lemma RequestRefusesNonObject(s: Snapshot, cfg: Config, stringify: Value -> string, data: Value,
                                options: map<string, Value>, generated: string, sendError: Option<Value>)
    requires Bounded(s.table)
    requires !Truthy(data) || !data.Obj?
    ensures var out := RequestStep(s, cfg, stringify, data, options, generated, sendError);
            out.after == s && out.data == data &&
            out.reply == Refused(Error(NotObjectPrefix + Text(data)))
  {
  }

  /** An object payload is registered under `data[idProp]` when that is
      defined, and under the generated id otherwise; the new request is the
      map's entry for that key and carries the request's timeout. */
  lemma RequestRegistersUnderItsKey(s: Snapshot, cfg: Config, stringify: Value -> string, data: Value,
                                    options: map<string, Value>, generated: string, sendError: Option<Value>)
    requires Bounded(s.table) && data.Obj?
    ensures var out := RequestStep(s, cfg, stringify, data, options, generated, sendError);
            var key := RequestKey(cfg, data, generated);
            var k := |s.table.requests|;
            (Get(data, cfg.idProp) == Undefined ==> key == Str(generated)) &&
            (Get(data, cfg.idProp) != Undefined ==> key == Get(data, cfg.idProp)) &&
            out.reply == Registered(k) &&
            out.after.table.items == s.table.items[key := k] &&
            out.after.table.requests[k].id == key &&
            out.after.table.requests[k].timeout == RequestTimeout(cfg, options)
  {
    var key := RequestKey(cfg, data, generated);
    var out := RequestStep(s, cfg, stringify, data, options, generated, sendError);
    var thrown := if s.ws.None? then Some(Error(NullRead("send")))
                  else if sendError.Some? then Some(Thrown(sendError.value)) else None;
    CreateInstallsFreshRequest(s.table, key, RequestTimeout(cfg, options), thrown);
  }

  /** With an open socket that accepts the frame, the id is written into the
      payload before it is serialised, so the one frame sent carries it; the
      payload's other properties are kept and the request stays pending. */
  lemma RequestPayloadCarriesId(s: Snapshot, cfg: Config, stringify: Value -> string, data: Value,
                                options: map<string, Value>, generated: string)
    requires Bounded(s.table) && data.Obj? && s.ws.Some?
    ensures var out := RequestStep(s, cfg, stringify, data, options, generated, None);
            var key := RequestKey(cfg, data, generated);
            out.after.transport == s.transport + [Sent(stringify(out.data))] &&
            out.data.Obj? && ExtractId(out.data, cfg.idProp) == key &&
            (forall p :: p != cfg.idProp ==> Get(out.data, p) == Get(data, p)) &&
            out.after.table.requests[|s.table.requests|].state.Pending?
  {
    var key := RequestKey(cfg, data, generated);
    CreateInstallsFreshRequest(s.table, key, RequestTimeout(cfg, options), None);
  }

  /** Without a socket the send step throws: nothing is sent and the new
      request is rejected with the TypeError, though the id was already
      written into the caller's object. */
  lemma RequestWithoutSocketRejects(s: Snapshot, cfg: Config, stringify: Value -> string, data: Value,
                                    options: map<string, Value>, generated: string, sendError: Option<Value>)
    requires Bounded(s.table) && data.Obj? && s.ws.None?
    ensures var out := RequestStep(s, cfg, stringify, data, options, generated, sendError);
            var k := |s.table.requests|;
            out.after.transport == s.transport &&
            Get(out.data, cfg.idProp) == RequestKey(cfg, data, generated) &&
            out.after.table.requests[k].state == Rejected(Error(NullRead("send")))
  {
    var key := RequestKey(cfg, data, generated);
    CreateInstallsFreshRequest(s.table, key, RequestTimeout(cfg, options), Some(Error(NullRead("send"))));
  }

  /** A request whose key is a truthy string, number or boolean is fulfilled
      by the echo of its own frame: when the server sends the same text back
      and JSON.parse undoes JSON.stringify on it, the message handler fulfils
      the request with the payload and dispatches that payload. An object key
      is left out: the table's Map compares objects by reference, and the
      parsed id is a new object. */
  lemma EchoResolvesRequest(s: Snapshot, cfg: Config, stringify: Value -> string, parse: string -> Option<Value>,
                            data: Value, options: map<string, Value>, generated: string)
    requires Bounded(s.table) && data.Obj? && s.ws.Some?
    requires Truthy(RequestKey(cfg, data, generated)) && !RequestKey(cfg, data, generated).Obj?
    requires var out := RequestStep(s, cfg, stringify, data, options, generated, None);
             stringify(out.data) != "" && parse(stringify(out.data)) == Some(out.data)
    ensures var out := RequestStep(s, cfg, stringify, data, options, generated, None);
            var back := HandleMessageStep(out.after, cfg, parse, stringify(out.data));
            back.table.requests[|s.table.requests|].state == Fulfilled(out.data) &&
            back.dispatched == s.dispatched + [out.data]
  {
    var key := RequestKey(cfg, data, generated);
    var out := RequestStep(s, cfg, stringify, data, options, generated, None);
    CreateInstallsFreshRequest(s.table, key, RequestTimeout(cfg, options), None);
    assert ExtractId(out.data, cfg.idProp) == key;
    assert out.after.table.items[key] == |s.table.requests|;
  }

  /** `_handleMessage` ignores an empty frame and a frame JSON.parse rejects.
      Otherwise it dispatches the parsed data, always; when the data's id is
      truthy and its entry is pending, that entry is fulfilled with the data,
      and no other request changes. */
  lemma HandleMessageRule(s: Snapshot, cfg: Config, parse: string -> Option<Value>, text: string)
    requires Bounded(s.table)
    ensures var s' := HandleMessageStep(s, cfg, parse, text);
            s'.ws == s.ws && s'.transport == s.transport &&
            s'.table.items == s.table.items && |s'.table.requests| == |s.table.requests| &&
            (text == "" || parse(text).None? ==> s' == s) &&
            (text != "" && parse(text).Some? ==>
               var data := parse(text).value;
               var id := ExtractId(data, cfg.idProp);
               s'.dispatched == s.dispatched + [data] &&
               (Truthy(id) && id in s.table.items && Current(s.table, id).state.Pending? ==>
                  s'.table.requests[s.table.items[id]].state == Fulfilled(data)) &&
               forall k :: 0 <= k < |s.table.requests| && s'.table.requests[k] != s.table.requests[k] ==>
                 Truthy(id) && id in s.table.items && k == s.table.items[id] &&
                 s.table.requests[k].state.Pending? &&
                 s'.table.requests[k] == s.table.requests[k].(state := Fulfilled(data)))
  {
  }

  /** A request registered under a falsy id (0, "", false, null) can never
      be settled by an incoming message; only its timer, its replacement or
      a close can settle it. */
  lemma FalsyIdRequestIgnoredByMessages(s: Snapshot, cfg: Config, parse: string -> Option<Value>, text: string, k: nat)
    requires Consistent(s.table) && k < |s.table.requests| && !Truthy(s.table.requests[k].id)
    ensures HandleMessageStep(s, cfg, parse, text).table.requests[k] == s.table.requests[k]
  {
    if text != "" && parse(text).Some? {
      var data := parse(text).value;
      var id := ExtractId(data, cfg.idProp);
      if Truthy(id) && id in s.table.items {
        assert Current(s.table, id).id == id;
        assert s.table.items[id] != k;
      }
    }
  }

  /** `_handleError` rejects the `'open'` and `'close'` entries, if pending,
      with the error event, and leaves every other request as it was. */
  lemma HandleErrorTouchesOnlyOpenAndClose(s: Snapshot, event: Value)
    requires Consistent(s.table)
    ensures var s' := HandleErrorStep(s, event);
            s'.ws == s.ws && s'.transport == s.transport && s'.dispatched == s.dispatched &&
            s'.table.items == s.table.items && |s'.table.requests| == |s.table.requests| &&
            (forall k :: 0 <= k < |s.table.requests| && !(s.table.requests[k].state.Pending? && s.table.requests[k].id in {OpeningId, ClosingId}) ==>
               s'.table.requests[k] == s.table.requests[k]) &&
            (forall id :: id in {OpeningId, ClosingId} && id in s.table.items && Current(s.table, id).state.Pending? ==>
               Current(s'.table, id).state == Rejected(Event(event)))
  {
    var t1 := AfterReject(s.table, OpeningId, Event(event));
    RejectConsistent(s.table, OpeningId, Event(event));
    var t2 := AfterReject(t1, ClosingId, Event(event));
    forall k | 0 <= k < |s.table.requests| &&
               !(s.table.requests[k].state.Pending? && s.table.requests[k].id in {OpeningId, ClosingId})
      ensures t2.requests[k] == s.table.requests[k]
    {
      if OpeningId in s.table.items {
        assert Current(s.table, OpeningId).id == OpeningId;
      }
      if ClosingId in t1.items {
        assert Current(t1, ClosingId).id == ClosingId;
      }
    }
  }

  /** `_handleClose` drops the socket, fulfils a pending `'close'` entry
      with the close event first, so that entry is not rejected, then rejects
      every other pending request with "Connection closed."; afterwards
      nothing is pending, and settled requests are left as they were. */
  lemma HandleCloseSettlesEverything(s: Snapshot, event: Value)
    requires Consistent(s.table)
    ensures var s' := HandleCloseStep(s, event);
            s'.ws.None? && s'.table.items == s.table.items && |s'.table.requests| == |s.table.requests| &&
            (ClosingId in s.table.items && Current(s.table, ClosingId).state.Pending? ==>
               Current(s'.table, ClosingId).state == Fulfilled(event)) &&
            (forall k :: 0 <= k < |s.table.requests| && s.table.requests[k].state.Pending? && s.table.requests[k].id != ClosingId ==>
               s'.table.requests[k].state == Rejected(Error(ClosedMessage))) &&
            (forall k :: 0 <= k < |s.table.requests| && !s.table.requests[k].state.Pending? ==>
               s'.table.requests[k] == s.table.requests[k]) &&
            (forall k :: 0 <= k < |s.table.requests| ==> !s'.table.requests[k].state.Pending?)
  {
    var t1 := AfterResolve(s.table, ClosingId, event);
    ResolveConsistent(s.table, ClosingId, event);
    RejectAllRejectsEveryPending(t1, Error(ClosedMessage));
    forall k | 0 <= k < |s.table.requests| && s.table.requests[k].state.Pending? && s.table.requests[k].id != ClosingId
      ensures t1.requests[k] == s.table.requests[k]
    {
      if ClosingId in s.table.items {
        assert Current(s.table, ClosingId).id == ClosingId;
      }
    }
  }

  /** Once the close event has been handled and every queued `finally`
      callback has run, the table is empty: each request was settled by the
      close, and each settled request removes itself from the map. */
  lemma HandleCloseEmptiesTable(s: Snapshot, event: Value)
    requires Consistent(s.table)
    ensures var t := HandleCloseStep(s, event).table;
            Consistent(t) && Drain(t).items == map[]
  {
    var t1 := AfterResolve(s.table, ClosingId, event);
    ResolveConsistent(s.table, ClosingId, event);
    var t := AfterRejectAll(t1, Error(ClosedMessage));
    RejectAllConsistent(t1, Error(ClosedMessage));
    HandleCloseSettlesEverything(s, event);
    QuiescentTableHoldsOnlyPending(t);
    var r := Drain(t);
    if r.items != map[] {
      var id :| id in r.items;
      assert false;
    }
  }

  /** `open` registers its promise under the fixed key `'open'` and creates
      the socket; the socket's open event then fulfils that promise with the
      event. A factory that throws rejects it and creates nothing. */
  lemma OpenGoesThroughOpenKey(s: Snapshot, cfg: Config, url: string, factoryError: Option<Value>, event: Value)
    requires Bounded(s.table)
    ensures var s1 := OpenStep(s, cfg, url, factoryError);
            var k := |s.table.requests|;
            s1.table.items == s.table.items[OpeningId := k] &&
            (factoryError.None? ==>
               s1.ws == Some(Socket(url)) &&
               HandleOpenStep(s1, event).table.requests[k].state == Fulfilled(event)) &&
            (factoryError.Some? ==>
               s1.ws == s.ws && s1.table.requests[k].state == Rejected(Thrown(factoryError.value)))
  {
    var thrown := if factoryError.Some? then Some(Thrown(factoryError.value)) else None;
    CreateInstallsFreshRequest(s.table, OpeningId, cfg.timeout, thrown);
  }

  /** `close` registers its promise under the fixed key `'close'`. With a
      socket it asks the socket to close and the close event fulfils the
      promise with the event; without one, `_ws.close()` throws and the
      promise is rejected with that TypeError. */
  lemma CloseGoesThroughCloseKey(s: Snapshot, cfg: Config, event: Value)
    requires Consistent(s.table)
    ensures var s1 := CloseStep(s, cfg);
            var k := |s.table.requests|;
            s1.table.items == s.table.items[ClosingId := k] &&
            (s.ws.Some? ==>
               s1.transport == s.transport + [CloseCalled] &&
               HandleCloseStep(s1, event).table.requests[k].state == Fulfilled(event)) &&
            (s.ws.None? ==>
               s1.transport == s.transport && s1.table.requests[k].state == Rejected(Error(NullRead("close"))))
  {
    var thrown := if s.ws.None? then Some(Error(NullRead("close"))) else None;
    CreateInstallsFreshRequest(s.table, ClosingId, cfg.timeout, thrown);
    CreateConsistent(s.table, ClosingId, cfg.timeout, thrown);
    if s.ws.Some? {
      var s1 := CloseStep(s, cfg);
      HandleCloseSettlesEverything(s1, event);
    }
  }

  /** Requests share the table with opening and closing: a request whose id
      is `'open'` replaces a pending open, which is rejected as replaced. */
  lemma RequestUnderOpenKeyReplacesOpening(s: Snapshot, cfg: Config, stringify: Value -> string, data: Value,
                                           options: map<string, Value>, generated: string, sendError: Option<Value>)
    requires Bounded(s.table) && data.Obj? && Get(data, cfg.idProp) == OpeningId
    requires OpeningId in s.table.items && Current(s.table, OpeningId).state.Pending?
    ensures var out := RequestStep(s, cfg, stringify, data, options, generated, sendError);
            out.after.table.requests[s.table.items[OpeningId]].state == Rejected(Error(ReplacedMessage(OpeningId))) &&
            out.after.table.items[OpeningId] == |s.table.requests|
  {
    var thrown := if s.ws.None? then Some(Error(NullRead("send")))
                  else if sendError.Some? then Some(Thrown(sendError.value)) else None;
    CreateRejectsPendingPredecessor(s.table, OpeningId, RequestTimeout(cfg, options), thrown);
  }
}
