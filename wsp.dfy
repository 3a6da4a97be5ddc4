/** src/index.js: the WebSocketAsPromised class, which routes socket events
    into a table of pending promises under fixed keys: `'open'` for opening,
    `'close'` for closing, and the id kept in `data[idProp]` for requests.

    The `pendings` library the class keeps its promises in is not part of this
    model. It is assumed to behave like the request table of src/requests.js:
    `set(id, fn, options)` is `create`, `add(fn, options)` is `create` under
    the id the library generates, both call `fn` with the entry's id, and `resolve`, `reject` and `rejectAll` act
    on the entry (or entries) as the table does. `options.timeout`, when
    given, is assumed to override the default timeout.

    The socket is an abstract handle; what the class asks of it (`send`,
    `close`) is logged in `transport`, and what the message channel dispatches
    is logged in `dispatched`. JSON.stringify and JSON.parse are functions the
    object is given (a parse that throws returns None). */
module Wsp {
  import opened JsValues
  import opened Promises
  import opened RequestTable
  import opened PendingRequests

  const OpeningId := Str("open")
  const ClosingId := Str("close")
  const DefaultOptions: map<string, Value> := map["idProp" := Str("id"), "timeout" := Num(0)]
  const NotObjectPrefix := "WebSocket data should be a plain object, got "
  const ClosedMessage := "Connection closed."

  /** Message of the TypeError a property read on `null` throws. */
  function NullRead(property: string): (r: string)
  {
    "Cannot read properties of null (reading '" + property + "')"
  }

  datatype Socket = Socket(url: string)

  /** What the class asked the socket to do. */
  datatype Transmission = Sent(text: string) | CloseCalled

  /** What a call of `request` returned: an immediate rejection, or the
      promise of the request it registered (its index in the table). */
  datatype Reply = Refused(reason: Reason) | Registered(request: nat)

  /** The options the constructor keeps. */
  datatype Config = Config(idProp: string, timeout: Value)

  /** The observable state of one WebSocketAsPromised object. */
  datatype Snapshot = Snapshot(ws: Option<Socket>, table: Table, transport: seq<Transmission>, dispatched: seq<Value>)

  /** `Object.assign({}, DEFAULT_OPTIONS, options)`, as the constructor reads
      it: each key the caller gives overrides its default. A non-string
      `idProp` is used as the property key `String(idProp)`. */
  function Configure(options: map<string, Value>): (c: Config)
    ensures c.idProp == if "idProp" in options then Text(options["idProp"]) else "id"
    ensures c.timeout == if "timeout" in options then options["timeout"] else Num(0)
  {
    var merged := DefaultOptions + options;
    Config(Text(merged["idProp"]), merged["timeout"])
  }

  /** The timeout a request registers with. */
  function RequestTimeout(cfg: Config, options: map<string, Value>): (r: Value)
  {
    if "timeout" in options then options["timeout"] else cfg.timeout
  }

  /** The table key a request with payload `data` is registered under:
      `data[idProp]`, or the generated id when that is undefined. */
  function RequestKey(cfg: Config, data: Value, generated: string): (r: Value)
  {
    if Get(data, cfg.idProp) == Undefined then Str(generated) else Get(data, cfg.idProp)
  }

  /** `data && data[idProp]`: the id an incoming message answers. */
  function ExtractId(data: Value, idProp: string): (r: Value)
  {
    if Truthy(data) then Get(data, idProp) else data
  }

  /** `open(url)`: the callback creates the socket, unless the factory throws
      `factoryError`. The new promise is request `|s.table.requests|`. */
  function OpenStep(s: Snapshot, cfg: Config, url: string, factoryError: Option<Value>): (r: Snapshot)
    requires Bounded(s.table)
  {
    var thrown := if factoryError.Some? then Some(Thrown(factoryError.value)) else None;
    s.(ws := if factoryError.Some? then s.ws else Some(Socket(url)),
       table := AfterCreate(s.table, OpeningId, cfg.timeout, thrown))
  }

  /** `close()`: the callback calls `_ws.close()`, which throws a TypeError
      when there is no socket. */
  function CloseStep(s: Snapshot, cfg: Config): (r: Snapshot)
    requires Bounded(s.table)
  {
    var thrown := if s.ws.None? then Some(Error(NullRead("close"))) else None;
    s.(transport := if s.ws.Some? then s.transport + [CloseCalled] else s.transport,
       table := AfterCreate(s.table, ClosingId, cfg.timeout, thrown))
  }

  datatype RequestOutcome = RequestOutcome(after: Snapshot, reply: Reply, data: Value)

  /** `request(data, options)`. `generated` is the id the library would
      generate, `sendError` what the socket's `send` throws, if anything. The
      outcome's `data` is the caller's object afterwards. */
  function RequestStep(s: Snapshot, cfg: Config, stringify: Value -> string, data: Value,
                       options: map<string, Value>, generated: string, sendError: Option<Value>): (r: RequestOutcome)
    requires Bounded(s.table)
  {
    if !Truthy(data) || !data.Obj? then
      RequestOutcome(s, Refused(Error(NotObjectPrefix + Text(data))), data)
    else
      var id := RequestKey(cfg, data, generated);
      var written := Put(data, cfg.idProp, id);
      var thrown :=
        if s.ws.None? then Some(Error(NullRead("send")))
        else if sendError.Some? then Some(Thrown(sendError.value))
        else None;
      var transport := if thrown.None? then s.transport + [Sent(stringify(written))] else s.transport;
      var table := AfterCreate(s.table, id, RequestTimeout(cfg, options), thrown);
      RequestOutcome(s.(table := table, transport := transport), Registered(|s.table.requests|), written)
  }

  /** `_handleOpen(event)`. */
  function HandleOpenStep(s: Snapshot, event: Value): (r: Snapshot)
    requires Bounded(s.table)
  {
    s.(table := AfterResolve(s.table, OpeningId, event))
  }

  /** `_handleMessage(event)` for a text frame `text`. */
  function HandleMessageStep(s: Snapshot, cfg: Config, parse: string -> Option<Value>, text: string): (r: Snapshot)
    requires Bounded(s.table)
  {
    if text == "" then s
    else
      match parse(text)
      case None => s
      case Some(data) =>
        var id := ExtractId(data, cfg.idProp);
        s.(table := if Truthy(id) then AfterResolve(s.table, id, data) else s.table,
           dispatched := s.dispatched + [data])
  }

  /** `_handleError(event)`. */
  function HandleErrorStep(s: Snapshot, event: Value): (r: Snapshot)
    requires Bounded(s.table)
  {
    var t1 := AfterReject(s.table, OpeningId, Event(event));
    s.(table := AfterReject(t1, ClosingId, Event(event)))
  }

  /** `_handleClose(event)`. */
  function HandleCloseStep(s: Snapshot, event: Value): (r: Snapshot)
    requires Bounded(s.table)
  {
    s.(ws := None, table := AfterRejectAll(AfterResolve(s.table, ClosingId, event), Error(ClosedMessage)))
  }

  /** A caller's object, which `request` writes the id into. */
  class Record {
    var props: map<string, Value>

    constructor(props: map<string, Value>)
      ensures this.props == props
    {
      this.props := props;
    }
  }

  /** The `data` argument of `request`: an object of the caller's, which the
      call may change, or a value no one else holds a reference to (a
      primitive, or an object literal written at the call). */
  datatype Arg = Plain(value: Value) | Object(record: Record)

  function ArgFootprint(arg: Arg): (r: set<object>)
  {
    if arg.Object? then {arg.record} else {}
  }

  function ArgValue(arg: Arg): (r: Value)
    reads ArgFootprint(arg)
  {
    if arg.Object? then Obj(arg.record.props) else arg.value
  }

  class WebSocketAsPromised {
    const idProp: string
    const timeout: Value
    const stringify: Value -> string
    const parse: string -> Option<Value>
    /** `_pendings`. */
    const pendings: Requests
    /** `_ws`. */
    var ws: Option<Socket>
    var transport: seq<Transmission>
    /** What the `onMessage` channel dispatched. */
    var dispatched: seq<Value>

    function Cfg(): (r: Config)
    {
      Config(idProp, timeout)
    }

    function State(): (r: Snapshot)
      reads this, pendings
    {
      Snapshot(ws, pendings.State(), transport, dispatched)
    }

    ghost predicate Valid()
      reads this, pendings
    {
      pendings.Valid()
    }

    constructor(options: map<string, Value>, stringify: Value -> string, parse: string -> Option<Value>)
      ensures Valid() && fresh(pendings)
      ensures Cfg() == Configure(options) && this.stringify == stringify && this.parse == parse
      ensures State() == Snapshot(None, Empty, [], [])
    {
      var c := Configure(options);
      idProp, timeout := c.idProp, c.timeout;
      this.stringify := stringify;
      this.parse := parse;
      pendings := new Requests();
      ws := None;
      transport, dispatched := [], [];
    }

    method Open(url: string, factoryError: Option<Value>) returns (k: nat)
      requires Valid()
      modifies this, pendings
      ensures Valid() && State() == OpenStep(old(State()), Cfg(), url, factoryError)
      ensures k == |old(pendings.requests)|
    {
      var thrown: Option<Reason> := None;
      if factoryError.Some? {
        thrown := Some(Thrown(factoryError.value));
      } else {
        ws := Some(Socket(url));
      }
      k := pendings.Create(OpeningId, thrown, timeout);
    }

    method Request(arg: Arg, options: map<string, Value>, generated: string, sendError: Option<Value>)
      returns (reply: Reply)
      requires Valid()
      modifies this, pendings, ArgFootprint(arg)
      ensures Valid()
      ensures var out := RequestStep(old(State()), Cfg(), stringify, old(ArgValue(arg)), options, generated, sendError);
              State() == out.after && reply == out.reply && (arg.Object? ==> ArgValue(arg) == out.data)
    {
      var data := ArgValue(arg);
      if !Truthy(data) || !data.Obj? {
        return Refused(Error(NotObjectPrefix + Text(data)));
      }
      var id := RequestKey(Cfg(), data, generated);
      // the callback: write the id into the caller's object, serialise, send
      var written := Put(data, idProp, id);
      if arg.Object? {
        arg.record.props := written.props;
      }
      var thrown: Option<Reason> := None;
      if ws.None? {
        thrown := Some(Error(NullRead("send")));
      } else if sendError.Some? {
        thrown := Some(Thrown(sendError.value));
      } else {
        transport := transport + [Sent(stringify(written))];
      }
      var k := pendings.Create(id, thrown, RequestTimeout(Cfg(), options));
      reply := Registered(k);
    }

    method Close() returns (k: nat)
      requires Valid()
      modifies this, pendings
      ensures Valid() && State() == CloseStep(old(State()), Cfg())
      ensures k == |old(pendings.requests)|
    {
      var thrown: Option<Reason> := None;
      if ws.None? {
        thrown := Some(Error(NullRead("close")));
      } else {
        transport := transport + [CloseCalled];
      }
      k := pendings.Create(ClosingId, thrown, timeout);
    }

    method HandleOpen(event: Value)
      requires Valid()
      modifies pendings
      ensures Valid() && State() == HandleOpenStep(old(State()), event)
    {
      pendings.Resolve(OpeningId, event);
    }

    method HandleMessage(text: string)
      requires Valid()
      modifies this, pendings
      ensures Valid() && State() == HandleMessageStep(old(State()), Cfg(), parse, text)
    {
      if text != "" {
        var parsed := parse(text);
        if parsed.Some? {
          var data := parsed.value;
          var id := ExtractId(data, idProp);
          // The request is resolved before the data is dispatched. The
          // snapshot keeps the table and the dispatch log apart, so that
          // order is not observable in the model.
          if Truthy(id) {
            pendings.Resolve(id, data);
          }
          dispatched := dispatched + [data];
        }
      }
    }

    method HandleError(event: Value)
      requires Valid()
      modifies pendings
      ensures Valid() && State() == HandleErrorStep(old(State()), event)
    {
      pendings.Reject(OpeningId, Event(event));
      pendings.Reject(ClosingId, Event(event));
    }

    method HandleClose(event: Value)
      requires Valid()
      modifies this, pendings
      ensures Valid() && State() == HandleCloseStep(old(State()), event)
    {
      ws := None;
      pendings.Resolve(ClosingId, event);
      pendings.RejectAll(Error(ClosedMessage));
    }
  }
}
