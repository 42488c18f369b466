/** The earlier draft of the API handler (Modules/api_handler.py). Its
    bookkeeping differs from the websocket handler in Websocket: every
    failure is an APIError, a version mismatch leaves the connection open,
    responses are never removed once stored, and a timed-out request stays
    waiting, so a late reply is still stored.

    The socket is abstracted exactly as in Websocket, whose URI, handshake,
    inbound-message, request-id and parameter definitions are shared. */
module ApiHandlerDraft {
  import opened Values
  import opened ApiExceptions
  import opened Websocket

  /** How the draft listener handled one read. */
  datatype DraftClassification =
    | DraftParseFailure
    | MissingRequestId
    | DraftInvalidRequestId(raw: string)
    | DraftUnexpected(id: Uuid)
    | DraftStored(id: Uuid)
    | DraftCrash(exc: Exc)
    /** `recv` on a closed connection raised ConnectionClosed, which the draft
        does not catch; the listener task ends with it. */
    | ConnectionClosedEscaped

  /** The draft's `_message_handler` on one decoded message: KeyError (no id)
      and ValueError (not a UUID) are only logged; a TypeError from indexing a
      non-dict and the errors of `UUID` on a non-string escape. */
  function DraftClassify(data: Json, waiting: set<Uuid>, parse: string -> Option<Uuid>): (r: DraftClassification)
    ensures r.DraftStored? ==> r.id in waiting
    ensures r.MissingRequestId? <==> IsKeyError(Nested.GetPath(data, ["meta", "request_id"]))
    ensures !r.ConnectionClosedEscaped? && !r.DraftParseFailure?
  {
    match Nested.GetPath(data, ["meta", "request_id"])
    case Err(e) => if e.KeyError? then MissingRequestId else DraftCrash(e)
    case Ok(raw) =>
      match raw
      case JStr(s) =>
        (match parse(s)
         case None => DraftInvalidRequestId(s)
         case Some(u) => if u in waiting then DraftStored(u) else DraftUnexpected(u))
      case JNull => DraftCrash(TypeError)
      case _ => DraftCrash(AttributeError)
  }

  function DraftStep(b: Book, m: Inbound, parse: string -> Option<Uuid>): (r: (Book, DraftClassification))
    ensures !r.1.DraftStored? ==> r.0 == b
    ensures r.0.responses.Keys >= b.responses.Keys
  {
    match m
    case Unparseable(_) => (b, DraftParseFailure)
    case Closed => (b, ConnectionClosedEscaped)
    case Message(d) =>
      var c := DraftClassify(d, b.waiting, parse);
      if c.DraftStored? then (Book(b.waiting - {c.id}, b.responses[c.id := d]), c) else (b, c)
  }

  /** A message without an id, with an id that is not a UUID, or with an id
      that is not waiting changes nothing. */
  lemma DraftIgnoredMessages(b: Book, d: Json, parse: string -> Option<Uuid>)
    requires var c := DraftClassify(d, b.waiting, parse);
      c.MissingRequestId? || c.DraftInvalidRequestId? || c.DraftUnexpected?
    ensures DraftStep(b, Message(d), parse).0 == b
  {
  }

  predicate DraftStops(c: DraftClassification)
    ensures DraftStops(c) ==> !c.DraftStored?
  {
    c.DraftCrash? || c.ConnectionClosedEscaped?
  }

  function DraftRun(b: Book, stream: seq<Inbound>, parse: string -> Option<Uuid>): (r: (Book, seq<DraftClassification>))
    ensures |r.1| <= |stream|
    decreases |stream|
  {
    if stream == [] then (b, [])
    else
      var (b1, c) := DraftStep(b, stream[0], parse);
      if DraftStops(c) then (b1, [c])
      else
        var (b2, cs) := DraftRun(b1, stream[1..], parse);
        (b2, [c] + cs)
  }

  /** Over any stream the draft listener only shrinks the waiting set,
      answers only ids that were waiting, never overwrites an earlier answer,
      and keeps waiting and answered ids apart. */
  lemma {:induction false} DraftRunBookkeeping(b: Book, stream: seq<Inbound>, parse: string -> Option<Uuid>)
    requires Disjoint(b)
    ensures Disjoint(DraftRun(b, stream, parse).0)
    ensures DraftRun(b, stream, parse).0.waiting <= b.waiting
    ensures DraftRun(b, stream, parse).0.responses.Keys <= b.responses.Keys + b.waiting
    ensures forall k :: k in b.responses ==>
      (k in DraftRun(b, stream, parse).0.responses && DraftRun(b, stream, parse).0.responses[k] == b.responses[k])
    ensures forall k :: k in b.waiting ==>
      (k in DraftRun(b, stream, parse).0.waiting || k in DraftRun(b, stream, parse).0.responses)
    decreases |stream|
  {
    if stream != [] {
      var (b1, c) := DraftStep(b, stream[0], parse);
      if c.DraftStored? {
        assert c.id in b.waiting;
      }
      if !DraftStops(c) {
        DraftRunBookkeeping(b1, stream[1..], parse);
      }
    }
  }

  /** The draft's `_retrieve_response` once the wait is over: the response is
      returned and kept; a request still waiting has timed out and stays
      waiting. */
  function DraftRetrieve(b: Book, id: Uuid): (r: Result<Json, ApiError>)
    ensures id in b.responses && id !in b.waiting ==> r == Ok(b.responses[id])
    ensures id in b.waiting ==> r == Err(APIError("API took too long to respond to request"))
    ensures Fresh(b, id) ==> r == Err(APIError("Response already consumed or never queued"))
  {
    if id !in b.waiting && id !in b.responses then Err(APIError("Response already consumed or never queued"))
    else if id in b.waiting then Err(APIError("API took too long to respond to request"))
    else Ok(b.responses[id])
  }

  /** What happens to the book: reads delivered to the listener, retrievals,
      and new requests being registered. */
  datatype DraftEvent = Deliver(m: Inbound) | RetrieveEvent(id: Uuid) | Register(id: Uuid)

  function DraftTrace(b: Book, events: seq<DraftEvent>, parse: string -> Option<Uuid>): (r: Book)
    ensures r.responses.Keys >= b.responses.Keys
    decreases |events|
  {
    if events == [] then b
    else
      var b1 :=
        match events[0]
        case Deliver(m) => DraftStep(b, m, parse).0
        case RetrieveEvent(_) => b
        case Register(id) => if Fresh(b, id) then Book(b.waiting + {id}, b.responses) else b;
      DraftTrace(b1, events[1..], parse)
  }

  /** The reads a listener is handed, as events of a trace. */
  function Deliveries(stream: seq<Inbound>): (r: seq<DraftEvent>)
    ensures |r| == |stream|
    ensures forall i :: 0 <= i < |stream| ==> r[i] == Deliver(stream[i])
    decreases |stream|
  {
    if stream == [] then [] else [Deliver(stream[0])] + Deliveries(stream[1..])
  }

  /** The listener's run leaves the book that the trace of the reads it
      handled leaves. */
  lemma {:induction false} DraftRunIsTrace(b: Book, stream: seq<Inbound>, parse: string -> Option<Uuid>)
    ensures DraftRun(b, stream, parse).0 == DraftTrace(b, Deliveries(stream[..|DraftRun(b, stream, parse).1|]), parse)
    decreases |stream|
  {
    var n := |DraftRun(b, stream, parse).1|;
    var evs := Deliveries(stream[..n]);
    if stream != [] {
      var (b1, c) := DraftStep(b, stream[0], parse);
      assert n >= 1 && evs[0] == Deliver(stream[0]);
      if DraftStops(c) {
        assert evs[1..] == [];
      } else {
        var m := |DraftRun(b1, stream[1..], parse).1|;
        assert n == m + 1;
        DraftRunIsTrace(b1, stream[1..], parse);
        assert evs[1..] == Deliveries(stream[1..][..m]);
      }
    }
  }

  /** Nothing ever removes or replaces a stored response: the response map
      only grows, and entries keep their value. */
  lemma {:induction false} DraftResponsesOnlyGrow(b: Book, events: seq<DraftEvent>, parse: string -> Option<Uuid>)
    requires Disjoint(b)
    ensures Disjoint(DraftTrace(b, events, parse))
    ensures forall k :: k in b.responses ==>
      (k in DraftTrace(b, events, parse).responses && DraftTrace(b, events, parse).responses[k] == b.responses[k])
    decreases |events|
  {
    if events != [] {
      var b1 :=
        match events[0]
        case Deliver(m) => DraftStep(b, m, parse).0
        case RetrieveEvent(_) => b
        case Register(id) => if Fresh(b, id) then Book(b.waiting + {id}, b.responses) else b;
      if events[0].Deliver? && DraftStep(b, events[0].m, parse).1.DraftStored? {
        assert DraftStep(b, events[0].m, parse).1.id in b.waiting;
      }
      DraftResponsesOnlyGrow(b1, events[1..], parse);
    }
  }

  /** A stored response can be retrieved any number of times. */
  lemma DraftRetrieveRepeatable(b: Book, id: Uuid, events: seq<DraftEvent>, parse: string -> Option<Uuid>)
    requires Disjoint(b) && id in b.responses
    ensures DraftRetrieve(DraftTrace(b, events, parse), id) == Ok(b.responses[id])
  {
    DraftResponsesOnlyGrow(b, events, parse);
  }

  /** After a timeout the request is still waiting, so a late reply is stored
      and can then be retrieved. */
  lemma DraftTimeoutThenLateReply(b: Book, id: Uuid, body: map<string, Json>,
                                  parse: string -> Option<Uuid>, format: Uuid -> string)
    requires Fresh(b, id) && parse(format(id)) == Some(id)
    ensures var b1 := Book(b.waiting + {id}, b.responses);
      DraftRetrieve(b1, id) == Err(APIError("API took too long to respond to request")) &&
      DraftStep(b1, Message(Reply(body, format(id))), parse).1 == DraftStored(id) &&
      DraftRetrieve(DraftStep(b1, Message(Reply(body, format(id))), parse).0, id) == Ok(Reply(body, format(id)))
  {
    assert ["meta", "request_id"][1..] == ["request_id"];
    assert ["request_id"][1..] == [];
  }

  /** The draft's `connect` check: a mismatch and an unparsable message are
      both APIErrors and neither closes the connection. */
  function DraftConnectError(h: Handshake, apiVersion: string): (r: Option<ApiError>)
    ensures r.None? <==> CheckHandshake(h, apiVersion) == Proceed
  {
    match CheckHandshake(h, apiVersion)
    case Proceed => None
    case VersionMismatch(_) => Some(APIError("Mismatched API and client versions!"))
    case Unparsed => Some(APIError("Connect message from the API could not be parsed"))
    case Escaped(e) => Some(Raised(e))
  }

  class BaseWebsocketAPIHandler {
    const apiVersion: string
    const parse: string -> Option<Uuid>
    const format: Uuid -> string

    var hostname: string
    var token: Option<string>
    var tls: bool
    var connection: Connection
    var hasListener: bool
    var waiting: set<Uuid>
    var responses: map<Uuid, Json>
    var sent: seq<Frame>

    ghost predicate Valid()
      reads this
    {
      waiting !! responses.Keys && forall u :: parse(format(u)) == Some(u)
    }

    predicate Connected()
      reads this
    {
      connection.Conn? && connection.open
    }

    function Bookkeeping(): Book
      reads this
    {
      Book(waiting, responses)
    }

    constructor (apiVersion: string, hostname: string, token: Option<string>, tls: bool,
                 parse: string -> Option<Uuid>, format: Uuid -> string)
      requires forall u :: parse(format(u)) == Some(u)
      ensures Valid() && !Connected() && !hasListener
      ensures this.apiVersion == apiVersion && this.hostname == hostname && this.token == token && this.tls == tls
      ensures this.parse == parse && this.format == format
      ensures waiting == {} && responses == map[] && sent == [] && connection == NoConnection
    {
      this.apiVersion := apiVersion;
      this.parse := parse;
      this.format := format;
      this.hostname := hostname;
      this.token := token;
      this.tls := tls;
      connection := NoConnection;
      hasListener := false;
      waiting := {};
      responses := map[];
      sent := [];
    }

    /** `connect`: APIError when already connected; otherwise connects and
        checks the handshake, starting the listener only if it passes. */
    method Connect(handshake: Handshake) returns (r: Outcome<ApiError>)
      requires Valid()
      modifies this
      ensures Valid()
      ensures Bookkeeping() == old(Bookkeeping()) && sent == old(sent)
      ensures hostname == old(hostname) && token == old(token) && tls == old(tls)
      ensures old(Connected()) ==>
        r == Fail(APIError("Already connected to a server: " + old(connection).host)) &&
        connection == old(connection) && hasListener == old(hasListener)
      ensures !old(Connected()) ==>
        connection == Conn(Uri(hostname, token, tls), hostname, true) &&
        match DraftConnectError(handshake, apiVersion)
        case None => r == Pass && hasListener
        case Some(e) => r == Fail(e) && hasListener == old(hasListener)
    {
      if Connected() {
        return Fail(APIError("Already connected to a server: " + connection.host));
      }
      connection := Conn(Uri(hostname, token, tls), hostname, true);
      var e := DraftConnectError(handshake, apiVersion);
      if e.Some? {
        return Fail(e.value);
      }
      hasListener := true;
      r := Pass;
    }

    /** `disconnect`: APIError when not connected. Cancelling a listener that
        was never started (a connect whose handshake failed) raises
        AttributeError before anything changes; otherwise both the listener and
        the connection are dropped. */
    method Disconnect() returns (r: Outcome<ApiError>)
      modifies this
      ensures Bookkeeping() == old(Bookkeeping()) && sent == old(sent)
      ensures hostname == old(hostname) && token == old(token) && tls == old(tls)
      ensures !old(Connected()) ==>
        r == Fail(APIError("Not connected to API")) && connection == old(connection) && hasListener == old(hasListener)
      ensures old(Connected()) && !old(hasListener) ==>
        r == Fail(Raised(AttributeError)) && connection == old(connection) && hasListener == old(hasListener)
      ensures old(Connected()) && old(hasListener) ==>
        r == Pass && connection == NoConnection && !hasListener
    {
      if !Connected() {
        return Fail(APIError("Not connected to API"));
      }
      if !hasListener {
        return Fail(Raised(AttributeError));
      }
      hasListener := false;
      connection := NoConnection;
      r := Pass;
    }

    /** `reconnect`: disconnects if connected, applies the truthy arguments,
        then always connects. */
    method Reconnect(newHostname: Option<string>, newToken: Option<string>, newTls: Option<bool>, handshake: Handshake)
      returns (r: Outcome<ApiError>)
      requires Valid()
      modifies this
      ensures Valid()
      ensures Bookkeeping() == old(Bookkeeping()) && sent == old(sent)
      ensures old(Connected()) && !old(hasListener) ==>
        r == Fail(Raised(AttributeError)) && connection == old(connection) && hasListener == old(hasListener) &&
        hostname == old(hostname) && token == old(token) && tls == old(tls)
      ensures !(old(Connected()) && !old(hasListener)) ==>
        hostname == (if TruthyStr(newHostname) then newHostname.value else old(hostname)) &&
        token == (if TruthyStr(newToken) then newToken else old(token)) &&
        tls == (if newTls == Some(true) then true else old(tls)) &&
        connection == Conn(Uri(hostname, token, tls), hostname, true) &&
        (r == Pass <==> DraftConnectError(handshake, apiVersion).None?) &&
        hasListener == (DraftConnectError(handshake, apiVersion).None? || (!old(Connected()) && old(hasListener)))
    {
      if Connected() {
        r := Disconnect();
        if r.Fail? {
          return;
        }
      }
      if TruthyStr(newHostname) {
        hostname := newHostname.value;
      }
      if TruthyStr(newToken) {
        token := newToken;
      }
      if newTls == Some(true) {
        tls := true;
      }
      r := Connect(handshake);
    }

    /** One pass of the draft `_message_handler` loop. */
    method HandleMessage(m: Inbound) returns (c: DraftClassification)
      requires Valid()
      modifies this
      ensures Valid()
      ensures (Bookkeeping(), c) == DraftStep(old(Bookkeeping()), m, parse)
      ensures c.ConnectionClosedEscaped? <==> m.Closed?
      ensures connection == (if m.Closed? then Closing(old(connection)) else old(connection))
      ensures sent == old(sent) && hasListener == old(hasListener)
      ensures hostname == old(hostname) && token == old(token) && tls == old(tls)
    {
      match m {
        case Unparseable(_) =>
          c := DraftParseFailure;
        case Closed =>
          c := ConnectionClosedEscaped;
          connection := Closing(connection);
        case Message(d) =>
          c := DraftClassify(d, waiting, parse);
          if c.DraftStored? {
            responses := responses[c.id := d];
            waiting := waiting - {c.id};
          }
      }
    }

    /** The draft `_message_handler`: handles reads until an exception ends it. */
    method Listen(stream: seq<Inbound>) returns (handled: seq<DraftClassification>)
      requires Valid()
      modifies this
      ensures Valid()
      ensures (Bookkeeping(), handled) == DraftRun(old(Bookkeeping()), stream, parse)
      ensures connection == (if ConnectionClosedEscaped in handled then Closing(old(connection)) else old(connection))
      ensures ConnectionClosedEscaped in handled ==> !Connected()
      ensures sent == old(sent) && hasListener == old(hasListener)
      ensures hostname == old(hostname) && token == old(token) && tls == old(tls)
    {
      handled := [];
      var i := 0;
      assert stream[0..] == stream;
      assert Bookkeeping() == old(Bookkeeping());
      assert handled + DraftRun(Bookkeeping(), stream, parse).1 == DraftRun(Bookkeeping(), stream, parse).1;
      while i < |stream|
        invariant 0 <= i <= |stream|
        invariant Valid()
        invariant connection == old(connection) && ConnectionClosedEscaped !in handled
        invariant sent == old(sent) && hasListener == old(hasListener)
        invariant hostname == old(hostname) && token == old(token) && tls == old(tls)
        invariant DraftRun(old(Bookkeeping()), stream, parse) ==
          (DraftRun(Bookkeeping(), stream[i..], parse).0, handled + DraftRun(Bookkeeping(), stream[i..], parse).1)
      {
        ghost var before := Bookkeeping();
        assert stream[i..][0] == stream[i] && stream[i..][1..] == stream[i + 1..];
        var c := HandleMessage(stream[i]);
        if DraftStops(c) {
          assert DraftRun(before, stream[i..], parse) == (Bookkeeping(), [c]);
          handled := handled + [c];
          return;
        }
        ghost var rest := DraftRun(Bookkeeping(), stream[i + 1..], parse);
        assert DraftRun(before, stream[i..], parse) == (rest.0, [c] + rest.1);
        assert handled + ([c] + rest.1) == (handled + [c]) + rest.1;
        handled := handled + [c];
        i := i + 1;
      }
      assert stream[i..] == [];
      assert handled + [] == handled;
    }

    /** `_send_raw`: APIError without an open connection. */
    method SendRaw(data: Json) returns (r: Outcome<ApiError>)
      modifies this
      ensures Bookkeeping() == old(Bookkeeping()) && connection == old(connection) && hasListener == old(hasListener)
      ensures hostname == old(hostname) && token == old(token) && tls == old(tls)
      ensures !Connected() ==> r == Fail(APIError("Not connected to API")) && sent == old(sent)
      ensures Connected() ==>
        (r == Pass && sent == old(sent) + [if data.JStr? then TextFrame(data.s) else JsonFrame(data)])
    {
      if !Connected() {
        return Fail(APIError("Not connected to API"));
      }
      sent := sent + [if data.JStr? then TextFrame(data.s) else JsonFrame(data)];
      r := Pass;
    }

    /** `_request` up to the wait: a fresh id, attached to the meta, the data
        sent, then the id registered as waiting. */
    method SendRequest(data: map<string, Json>, draws: seq<Uuid>) returns (r: Result<Uuid, ApiError>)
      requires Valid()
      requires exists j :: 0 <= j < |draws| && Fresh(Bookkeeping(), draws[j])
      modifies this
      ensures Valid()
      ensures connection == old(connection) && hasListener == old(hasListener)
      ensures hostname == old(hostname) && token == old(token) && tls == old(tls)
      ensures responses == old(responses)
      ensures var id := draws[FirstFresh(draws, old(Bookkeeping()))];
        match AttachId(data, format(id))
        case Err(e) => r == Err(Raised(e)) && waiting == old(waiting) && sent == old(sent)
        case Ok(d) =>
          if old(Connected()) then
            r == Ok(id) && Fresh(old(Bookkeeping()), id) && waiting == old(waiting) + {id} &&
            sent == old(sent) + [JsonFrame(JObj(d))]
          else
            r == Err(APIError("Not connected to API")) && waiting == old(waiting) && sent == old(sent)
    {
      ghost var target := FirstFresh(draws, Bookkeeping());
      var i := 0;
      while !Fresh(Bookkeeping(), draws[i])
        invariant 0 <= i <= target
        decreases target - i
      {
        i := i + 1;
      }
      var id := draws[i];
      var attached := AttachId(data, format(id));
      if attached.Err? {
        return Err(Raised(attached.error));
      }
      var sentOk := SendRaw(JObj(attached.value));
      if sentOk.Fail? {
        return Err(sentOk.error);
      }
      waiting := waiting + {id};
      r := Ok(id);
    }

    /** `call`: builds the parameters as the websocket handler does and makes
        the request. */
    method Call(endpoint: string, action: string, params: Option<map<string, Json>>, meta: Option<map<string, Json>>,
                draws: seq<Uuid>) returns (r: Result<Uuid, ApiError>)
      requires Valid()
      requires exists j :: 0 <= j < |draws| && Fresh(Bookkeeping(), draws[j])
      modifies this
      ensures Valid()
      ensures responses == old(responses) && connection == old(connection)
      ensures hostname == old(hostname) && token == old(token) && tls == old(tls) && hasListener == old(hasListener)
      ensures CallParams(endpoint, action, params, meta).Err? ==>
        r == Err(Raised(AttributeError)) && waiting == old(waiting) && sent == old(sent)
      ensures CallParams(endpoint, action, params, meta).Ok? && old(Connected()) ==>
        var id := draws[FirstFresh(draws, old(Bookkeeping()))];
        r == Ok(id) && waiting == old(waiting) + {id} &&
        sent == old(sent) + [JsonFrame(JObj(AttachId(CallParams(endpoint, action, params, meta).value, format(id)).value))]
      ensures CallParams(endpoint, action, params, meta).Ok? && !old(Connected()) ==>
        r == Err(APIError("Not connected to API")) && waiting == old(waiting) && sent == old(sent)
    {
      var p := CallParams(endpoint, action, params, meta);
      if p.Err? {
        return Err(Raised(p.error));
      }
      r := SendRequest(p.value, draws);
    }

    /** The draft `_retrieve_response` once the wait is over; it changes
        nothing. */
    method RetrieveResponse(id: Uuid) returns (r: Result<Json, ApiError>)
      ensures r == DraftRetrieve(Bookkeeping(), id)
    {
      if id !in waiting && id !in responses {
        return Err(APIError("Response already consumed or never queued"));
      }
      if id in waiting {
        return Err(APIError("API took too long to respond to request"));
      }
      r := Ok(responses[id]);
    }

    /** `WebsocketAPIHandler20.update_rescue`: a rescue whose case id is
        falsy is refused; otherwise it is sent as `("rescues", "update")` with
        its id and data. */
    method UpdateRescue(rescue: RescueView, draws: seq<Uuid>) returns (r: Result<Uuid, ApiError>)
      requires Valid()
      requires exists j :: 0 <= j < |draws| && Fresh(Bookkeeping(), draws[j])
      modifies this
      ensures Valid()
      ensures responses == old(responses) && connection == old(connection)
      ensures hostname == old(hostname) && token == old(token) && tls == old(tls) && hasListener == old(hasListener)
      ensures !Truthy(rescue.caseId) ==>
        r == Err(APIError("Cannot send rescue without ID to the API")) &&
        waiting == old(waiting) && sent == old(sent)
      ensures Truthy(rescue.caseId) && !old(Connected()) ==>
        r == Err(APIError("Not connected to API")) && waiting == old(waiting) && sent == old(sent)
      ensures Truthy(rescue.caseId) && old(Connected()) ==>
        var id := draws[FirstFresh(draws, old(Bookkeeping()))];
        r == Ok(id) && waiting == old(waiting) + {id} &&
        sent == old(sent) + [JsonFrame(JObj(AttachId(
          CallParams("rescues", "update", Some(map["id" := rescue.caseId, "data" := rescue.json]), None).value,
          format(id)).value))]
    {
      if !Truthy(rescue.caseId) {
        return Err(APIError("Cannot send rescue without ID to the API"));
      }
      r := Call("rescues", "update", Some(map["id" := rescue.caseId, "data" := rescue.json]), None, draws);
    }
  }

  /** The request `update_rescue` sends, before its id is attached. */
  lemma UpdateRescueShape(caseId: Json, data: Json)
    ensures var p := CallParams("rescues", "update", Some(map["id" := caseId, "data" := data]), None);
      p.Ok? && p.value == map["id" := caseId, "data" := data, "meta" := JObj(map[]),
                              "action" := JList([JStr("rescues"), JStr("update")])]
  {
  }
}
