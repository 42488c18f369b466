/** The request-correlation bookkeeping of the websocket API handler
    (Modules/api/websocket.py), as a sequential state machine.

    The socket is replaced by events: the handshake message `connect` reads,
    the inbound messages the listener task reads (already decoded, or
    undecodable, or the end of the connection), and the frames the handler
    sends, which are recorded in `sent`. `uuid4()` draws come from a parameter
    sequence. `str(uuid)` and `UUID(text)` are the handler's `format` and
    `parse`, of which only the round trip `parse(format(u)) == Some(u)` is
    assumed. Waiting for a response is the state at the moment the wait ends:
    an id still waiting then has timed out. */
module Websocket {
  import opened Values
  import opened ApiExceptions
  import Nested

  // ---------------------------------------------------------------------------
  // Connecting
  // ---------------------------------------------------------------------------

  /** The address `connect` dials. */
  function Uri(hostname: string, token: Option<string>, tls: bool): (r: string)
    ensures tls ==> |r| >= 6 && r[..6] == "wss://"
    ensures !tls ==> |r| >= 5 && r[..5] == "ws://"
    ensures TruthyStr(token) ==> |r| >= |token.value| + 9 && r[|r| - |token.value| - 9..] == "/?bearer=" + token.value
    ensures !TruthyStr(token) ==> r == (if tls then "wss://" else "ws://") + hostname
    ensures TruthyStr(token) ==> r == (if tls then "wss://" else "ws://") + hostname + "/?bearer=" + token.value
  {
    var base := (if tls then "wss://" else "ws://") + hostname;
    if TruthyStr(token) then base + "/?bearer=" + token.value else base
  }

  /** The first message after connecting, as the handshake reads it. */
  datatype Handshake = HandshakeUnparseable | HandshakeMessage(message: Json)

  /** What the version check of `connect` decides. */
  datatype HandshakeOutcome =
    | Proceed                    // versions agree, or no version field (only a warning)
    | VersionMismatch(received: Json)
    | Unparsed                   // not JSON
    | Escaped(exc: Exc)          // `message["meta"]["API-Version"]` raised something other than KeyError

  function CheckHandshake(h: Handshake, apiVersion: string): (r: HandshakeOutcome)
    ensures h.HandshakeUnparseable? <==> r.Unparsed?
    ensures r.VersionMismatch? ==> r.received != JStr(apiVersion)
  {
    match h
    case HandshakeUnparseable => Unparsed
    case HandshakeMessage(m) =>
      match Nested.GetPath(m, ["meta", "API-Version"])
      case Ok(v) => if v == JStr(apiVersion) then Proceed else VersionMismatch(v)
      case Err(e) => if e.KeyError? then Proceed else Escaped(e)
  }

  /** The handshake goes through exactly when the version field equals the
      handler's version or is missing; a dict that lacks either level of the
      path counts as missing. */
  lemma HandshakeProceedsIff(m: Json, apiVersion: string)
    ensures CheckHandshake(HandshakeMessage(m), apiVersion) == Proceed <==>
      (Nested.GetPath(m, ["meta", "API-Version"]) == Ok(JStr(apiVersion)) ||
       IsKeyError(Nested.GetPath(m, ["meta", "API-Version"])))
    ensures m.JObj? && "meta" !in m.fields ==> CheckHandshake(HandshakeMessage(m), apiVersion) == Proceed
    ensures m.JObj? && "meta" in m.fields && m.fields["meta"].JObj? && "API-Version" !in m.fields["meta"].fields ==>
      CheckHandshake(HandshakeMessage(m), apiVersion) == Proceed
  {
    assert ["meta", "API-Version"][1..] == ["API-Version"];
    assert ["API-Version"][1..] == [];
  }

  predicate IsKeyError(r: Result<Json, Exc>)
  {
    r.Err? && r.error.KeyError?
  }

  // ---------------------------------------------------------------------------
  // The listener
  // ---------------------------------------------------------------------------

  /** One read of the listener task. */
  datatype Inbound = Unparseable(raw: string) | Message(data: Json) | Closed

  /** The error codes the listener recognises (it only logs them). */
  datatype CodeKind = UnauthorizedCode | ForbiddenCode | InternalServerCode | UnknownCode(code: Json)

  /** How the listener handled one read. */
  datatype Classification =
    | ParseFailure
    | ErrorCode(kind: CodeKind)
    | UpdateEvent(event: Json)       // handed to the `_handle_update` stub, which does nothing
    | Unrecognised
    | InvalidRequestId(raw: string)
    | Unexpected(id: Uuid)
    | Stored(id: Uuid)
    | Crash(exc: Exc)                // an exception escaped and ended the listener task
    | ListenerStopped                // the connection was closed

  function CodeOf(code: Json): CodeKind
  {
    if code == JStr("unauthorized") then UnauthorizedCode
    else if code == JStr("forbidden") then ForbiddenCode
    else if code == JStr("internal_server") then InternalServerCode
    else UnknownCode(code)
  }

  /** A message without `meta.request_id`; `meta` is the message's meta dict
      when it has one. An error code takes precedence over an event. */
  function ClassifyWithoutId(fields: map<string, Json>, meta: Option<map<string, Json>>): (r: Classification)
    ensures r.ErrorCode? <==> "code" in fields
    ensures r.UpdateEvent? <==> "code" !in fields && meta.Some? && "event" in meta.value
    ensures r.ErrorCode? || r.UpdateEvent? || r == Unrecognised
  {
    if "code" in fields then ErrorCode(CodeOf(fields["code"]))
    else if meta.Some? && "event" in meta.value then UpdateEvent(meta.value["event"])
    else Unrecognised
  }

  /** A message carrying `meta.request_id` = `raw`. A string that is not a
      UUID is logged; `UUID(None)` raises TypeError and `UUID` of any other
      non-string raises AttributeError, neither of which is caught. */
  function ClassifyId(raw: Json, waiting: set<Uuid>, parse: string -> Option<Uuid>): (r: Classification)
    ensures r.Stored? <==> raw.JStr? && parse(raw.s).Some? && parse(raw.s).value in waiting
    ensures r.Stored? ==> Some(r.id) == parse(raw.s)
    ensures r.Crash? <==> !raw.JStr?
    ensures raw.JStr? && parse(raw.s).None? ==> r == InvalidRequestId(raw.s)
  {
    match raw
    case JStr(s) =>
      (match parse(s)
       case None => InvalidRequestId(s)
       case Some(u) => if u in waiting then Stored(u) else Unexpected(u))
    case JNull => Crash(TypeError)
    case _ => Crash(AttributeError)
  }

  /** `_message_handler`'s treatment of one decoded message. */
  function Classify(data: Json, waiting: set<Uuid>, parse: string -> Option<Uuid>): (r: Classification)
    ensures r.Stored? ==> r.id in waiting
    ensures !r.ListenerStopped?
    ensures !data.JObj? ==> r == Crash(TypeError)
  {
    match data
    case JObj(fs) =>
      if "meta" !in fs then ClassifyWithoutId(fs, None)
      else
        (match fs["meta"]
         case JObj(meta) =>
           if "request_id" in meta then ClassifyId(meta["request_id"], waiting, parse)
           else ClassifyWithoutId(fs, Some(meta))
         case _ => Crash(TypeError))
    case _ => Crash(TypeError)
  }

  /** A message is stored exactly when its request id is a UUID text naming a
      waiting request. */
  lemma ClassifyStoredIff(data: Json, waiting: set<Uuid>, parse: string -> Option<Uuid>, u: Uuid)
    ensures Classify(data, waiting, parse) == Stored(u) <==>
      (exists s :: Nested.GetPath(data, ["meta", "request_id"]) == Ok(JStr(s)) && parse(s) == Some(u)) && u in waiting
  {
    assert ["meta", "request_id"][1..] == ["request_id"];
    assert ["request_id"][1..] == [];
  }

  /** A message without a request id is never stored: it is an error code if
      it has one, else an update if its meta has an event, else unrecognised. */
  lemma ClassifyWithoutRequestId(data: Json, waiting: set<Uuid>, parse: string -> Option<Uuid>)
    requires IsKeyError(Nested.GetPath(data, ["meta", "request_id"]))
    ensures data.JObj?
    ensures "code" in data.fields ==> Classify(data, waiting, parse) == ErrorCode(CodeOf(data.fields["code"]))
    ensures "code" !in data.fields && "meta" in data.fields && "event" in data.fields["meta"].fields ==>
      Classify(data, waiting, parse) == UpdateEvent(data.fields["meta"].fields["event"])
    ensures "code" !in data.fields && !("meta" in data.fields && "event" in data.fields["meta"].fields) ==>
      Classify(data, waiting, parse) == Unrecognised
  {
    assert ["meta", "request_id"][1..] == ["request_id"];
    assert ["request_id"][1..] == [];
  }

  /** The two pieces of state the listener and the requests share. */
  datatype Book = Book(waiting: set<Uuid>, responses: map<Uuid, Json>)

  /** No id is both waiting and answered. */
  predicate Disjoint(b: Book)
  {
    b.waiting !! b.responses.Keys
  }

  /** The listener handling one read: a stored response moves its id from
      waiting to answered; nothing else changes the book. */
  function Step(b: Book, m: Inbound, parse: string -> Option<Uuid>): (r: (Book, Classification))
    ensures !r.1.Stored? ==> r.0 == b
  {
    match m
    case Unparseable(_) => (b, ParseFailure)
    case Closed => (b, ListenerStopped)
    case Message(d) =>
      var c := Classify(d, b.waiting, parse);
      if c.Stored? then (Book(b.waiting - {c.id}, b.responses[c.id := d]), c) else (b, c)
  }

  /** Whether the listener task ends after this read. */
  predicate Stops(c: Classification)
  {
    c.ListenerStopped? || c.Crash?
  }

  /** The listener task over a stream of reads: it handles each in turn and
      ends at a closed connection or an escaping exception. */
  function Run(b: Book, stream: seq<Inbound>, parse: string -> Option<Uuid>): (r: (Book, seq<Classification>))
    ensures |r.1| <= |stream|
    decreases |stream|
  {
    if stream == [] then (b, [])
    else
      var (b1, c) := Step(b, stream[0], parse);
      if Stops(c) then (b1, [c])
      else
        var (b2, cs) := Run(b1, stream[1..], parse);
        (b2, [c] + cs)
  }

  /** Over any stream the listener only shrinks the waiting set, answers only
      ids that were waiting, never overwrites an earlier answer, and keeps
      waiting and answered ids apart. */
  lemma {:induction false} RunBookkeeping(b: Book, stream: seq<Inbound>, parse: string -> Option<Uuid>)
    requires Disjoint(b)
    ensures Disjoint(Run(b, stream, parse).0)
    ensures Run(b, stream, parse).0.waiting <= b.waiting
    ensures Run(b, stream, parse).0.responses.Keys <= b.responses.Keys + b.waiting
    ensures forall k :: k in b.responses ==>
      (k in Run(b, stream, parse).0.responses && Run(b, stream, parse).0.responses[k] == b.responses[k])
    ensures forall k :: k in b.waiting ==>
      (k in Run(b, stream, parse).0.waiting || k in Run(b, stream, parse).0.responses)
    decreases |stream|
  {
    if stream != [] {
      var (b1, c) := Step(b, stream[0], parse);
      if c.Stored? {
        assert c.id in b.waiting;
      }
      if !Stops(c) {
        RunBookkeeping(b1, stream[1..], parse);
      }
    }
  }

  // ---------------------------------------------------------------------------
  // Requests
  // ---------------------------------------------------------------------------

  /** An id that is neither waiting nor answered. */
  predicate Fresh(b: Book, u: Uuid)
  {
    u !in b.waiting && u !in b.responses
  }

  /** The position of the first fresh draw. */
  function FirstFresh(draws: seq<Uuid>, b: Book): (i: nat)
    requires exists j :: 0 <= j < |draws| && Fresh(b, draws[j])
    ensures i < |draws| && Fresh(b, draws[i])
    ensures forall j :: 0 <= j < i ==> !Fresh(b, draws[j])
    decreases |draws|
  {
    if Fresh(b, draws[0]) then 0
    else
      var j :| 0 <= j < |draws| && Fresh(b, draws[j]);
      assert Fresh(b, draws[1..][j - 1]);
      var i := FirstFresh(draws[1..], b);
      assert forall k :: 1 <= k <= i ==> draws[k] == draws[1..][k - 1];
      i + 1
  }

  /** `data["meta"]["request_id"] = text`, creating `meta` when it is absent;
      a `meta` that is not a dict rejects the item assignment. */
  function AttachId(data: map<string, Json>, text: string): (r: Result<map<string, Json>, Exc>)
    ensures r.Ok? <==> "meta" !in data || data["meta"].JObj?
    ensures r.Err? ==> r.error == TypeError
    ensures r.Ok? ==>
      (r.value.Keys == data.Keys + {"meta"} &&
       (forall k :: k in data && k != "meta" ==> r.value[k] == data[k]) &&
       r.value["meta"].JObj? &&
       r.value["meta"].fields.Keys == (if "meta" in data then data["meta"].fields.Keys else {}) + {"request_id"} &&
       r.value["meta"].fields["request_id"] == JStr(text) &&
       (forall k :: "meta" in data && k in data["meta"].fields && k != "request_id" ==>
         r.value["meta"].fields[k] == data["meta"].fields[k]))
  {
    if "meta" in data then
      match data["meta"]
      case JObj(m) => Ok(data["meta" := JObj(m["request_id" := JStr(text)])])
      case _ => Err(TypeError)
    else Ok(data["meta" := JObj(map["request_id" := JStr(text)])])
  }

  /** The parameters `_call` sends: the caller's meta merged into any meta the
      parameters carry (the caller's entries win), and `action` set to
      `(endpoint, action)`, replacing any given value. A meta in the params
      that is not a dict has no `update` (AttributeError). */
  function CallParams(endpoint: string, action: string, params: Option<map<string, Json>>, meta: Option<map<string, Json>>): (r: Result<map<string, Json>, Exc>)
    ensures var p := if params.None? then map[] else params.value;
      r.Ok? <==> "meta" !in p || p["meta"].JObj?
    ensures r.Err? ==> r.error == AttributeError
    ensures r.Ok? ==> "action" in r.value && r.value["action"] == JList([JStr(endpoint), JStr(action)])
    ensures r.Ok? ==> "meta" in r.value && r.value["meta"].JObj?
    ensures var p := if params.None? then map[] else params.value;
      var m := if meta.None? then map[] else meta.value;
      r.Ok? ==> r.value["meta"].fields == (if "meta" in p then p["meta"].fields else map[]) + m
    ensures var p := if params.None? then map[] else params.value;
      r.Ok? ==>
        (r.value.Keys == p.Keys + {"meta", "action"} &&
         forall k :: k in p && k != "meta" && k != "action" ==> r.value[k] == p[k])
  {
    var p := if params.None? then map[] else params.value;
    var m := if meta.None? then map[] else meta.value;
    var merged :=
      if "meta" in p then
        (match p["meta"]
         case JObj(pm) => Ok(p["meta" := JObj(pm + m)])
         case _ => Err(AttributeError))
      else Ok(p["meta" := JObj(m)]);
    match merged
    case Err(e) => Err(e)
    case Ok(q) => Ok(q["action" := JList([JStr(endpoint), JStr(action)])])
  }

  /** `_retrieve_response` at the end of the wait: an id neither waiting nor
      answered is an APIError; one still waiting has timed out and is dropped
      from the waiting set; an answered one is popped and returned. */
  function Retrieve(b: Book, id: Uuid, idText: string): (r: (Book, Result<Json, ApiError>))
    ensures id in b.responses && id !in b.waiting ==> r == (Book(b.waiting, b.responses - {id}), Ok(b.responses[id]))
    ensures id in b.waiting ==> r.1.Err? && r.1.error.TimeoutError? && r.0 == Book(b.waiting - {id}, b.responses)
    ensures Fresh(b, id) ==> r.1.Err? && r.1.error.APIError? && r.0 == b
  {
    if id !in b.waiting && id !in b.responses then
      (b, Err(APIError("Response " + idText + " already consumed or request never queued")))
    else if id in b.waiting then
      (Book(b.waiting - {id}, b.responses), Err(TimeoutError("API took too long to respond to request " + idText)))
    else
      (Book(b.waiting, b.responses - {id}), Ok(b.responses[id]))
  }

  /** A reply to request `id`: the body with `meta.request_id` set to the id's
      text. */
  function Reply(body: map<string, Json>, idText: string): Json
  {
    JObj(body["meta" := JObj(map["request_id" := JStr(idText)])])
  }

  /** The correlation round trip: a registered request, answered by a reply
      carrying its id, is stored and then retrieved, and the book returns to
      what it was before the request. */
  lemma CorrelationRoundTrip(b: Book, id: Uuid, body: map<string, Json>,
                             parse: string -> Option<Uuid>, format: Uuid -> string)
    requires Fresh(b, id) && parse(format(id)) == Some(id)
    ensures var b1 := Book(b.waiting + {id}, b.responses);
      var (b2, c) := Step(b1, Message(Reply(body, format(id))), parse);
      c == Stored(id) && Retrieve(b2, id, format(id)) == (b, Ok(Reply(body, format(id))))
  {
    var b1 := Book(b.waiting + {id}, b.responses);
    var reply := Reply(body, format(id));
    assert Classify(reply, b1.waiting, parse) == Stored(id);
    var b2 := Step(b1, Message(reply), parse).0;
    assert b2.waiting - {id} == b.waiting;
    assert b2.responses - {id} == b.responses;
  }

  /** A request that times out drops out of the book, and a reply arriving
      after that is unexpected and changes nothing. */
  lemma TimeoutThenLateReply(b: Book, id: Uuid, body: map<string, Json>,
                             parse: string -> Option<Uuid>, format: Uuid -> string)
    requires Fresh(b, id) && parse(format(id)) == Some(id)
    ensures var b1 := Book(b.waiting + {id}, b.responses);
      var (b2, r) := Retrieve(b1, id, format(id));
      r.Err? && r.error.TimeoutError? && b2 == b &&
      Step(b2, Message(Reply(body, format(id))), parse) == (b, Unexpected(id))
  {
    var b1 := Book(b.waiting + {id}, b.responses);
    assert b1.waiting - {id} == b.waiting;
  }

  /** A response can be retrieved only once. */
  lemma SecondRetrievalFails(b: Book, id: Uuid, idText: string)
    requires Disjoint(b) && id in b.responses
    ensures Retrieve(b, id, idText).1 == Ok(b.responses[id])
    ensures Retrieve(Retrieve(b, id, idText).0, id, idText).1 ==
      Err(APIError("Response " + idText + " already consumed or request never queued"))
  {
  }

  // ---------------------------------------------------------------------------
  // The handler
  // ---------------------------------------------------------------------------

  /** The websocket connection object, when there is one. */
  datatype Connection = NoConnection | Conn(uri: string, host: string, open: bool)

  /** The connection once the peer has closed it: the same object, no longer
      open, so `connected` is false from then on. */
  function Closing(c: Connection): (r: Connection)
    ensures !(r.Conn? && r.open)
    ensures r.NoConnection? <==> c.NoConnection?
    ensures c.Conn? ==> r.uri == c.uri && r.host == c.host
  {
    if c.Conn? then c.(open := false) else c
  }

  /** A frame the handler sent: text as it is, anything else JSON-encoded. */
  datatype Frame = TextFrame(text: string) | JsonFrame(data: Json)

  class WebsocketRequestHandler {
    const apiVersion: string
    const parse: string -> Option<Uuid>
    const format: Uuid -> string
    /** `str()` of a decoded JSON value, used in the mismatch message; a
        string is shown as itself. */
    const show: Json -> string

    var hostname: string
    var token: Option<string>
    var tls: bool
    var connection: Connection
    var listenerStarted: bool
    var waiting: set<Uuid>
    var responses: map<Uuid, Json>
    var sent: seq<Frame>

    ghost predicate Valid()
      reads this
    {
      waiting !! responses.Keys && (forall u :: parse(format(u)) == Some(u)) && (forall t :: show(JStr(t)) == t)
    }

    predicate Connected()
      reads this
    {
      connection.Conn? && connection.open
    }

    function Bookkeeping(): Book
      reads this
    {
      Book(waiting, responses)
    }

    constructor (apiVersion: string, hostname: string, token: Option<string>, tls: bool,
                 parse: string -> Option<Uuid>, format: Uuid -> string, show: Json -> string)
      requires forall u :: parse(format(u)) == Some(u)
      requires forall t :: show(JStr(t)) == t
      ensures Valid() && !Connected() && !listenerStarted
      ensures this.apiVersion == apiVersion && this.hostname == hostname && this.token == token && this.tls == tls
      ensures this.parse == parse && this.format == format && this.show == show
      ensures waiting == {} && responses == map[] && sent == [] && connection == NoConnection
    {
      this.apiVersion := apiVersion;
      this.parse := parse;
      this.format := format;
      this.show := show;
      this.hostname := hostname;
      this.token := token;
      this.tls := tls;
      connection := NoConnection;
      listenerStarted := false;
      waiting := {};
      responses := map[];
      sent := [];
    }

    /** `connect`, given the handshake message the API sends first. */
    method Connect(handshake: Handshake) returns (r: Outcome<ApiError>)
      requires Valid()
      modifies this
      ensures Valid()
      ensures Bookkeeping() == old(Bookkeeping()) && sent == old(sent)
      ensures hostname == old(hostname) && token == old(token) && tls == old(tls)
      ensures old(Connected()) ==>
        r == Fail(NotConnected(Some("Already connected to a server: " + old(connection).host))) &&
        connection == old(connection) && listenerStarted == old(listenerStarted)
      ensures !old(Connected()) ==>
        connection.Conn? && connection.uri == Uri(hostname, token, tls) && connection.host == hostname &&
        match CheckHandshake(handshake, apiVersion)
        case Proceed => r == Pass && connection.open && listenerStarted
        case VersionMismatch(v) =>
          r == Fail(MismatchedVersion(apiVersion, show(v))) && !connection.open && listenerStarted == old(listenerStarted) &&
          (v.JStr? ==> r == Fail(MismatchedVersion(apiVersion, v.s)))
        case Unparsed =>
          r == Fail(APIError("Connect message from the API could not be parsed")) && !connection.open &&
          listenerStarted == old(listenerStarted)
        case Escaped(e) => r == Fail(Raised(e)) && connection.open && listenerStarted == old(listenerStarted)
    {
      if Connected() {
        return Fail(NotConnected(Some("Already connected to a server: " + connection.host)));
      }
      var uri := Uri(hostname, token, tls);
      connection := Conn(uri, hostname, true);
      match CheckHandshake(handshake, apiVersion) {
        case Proceed =>
          listenerStarted := true;
          r := Pass;
        case VersionMismatch(v) =>
          connection := connection.(open := false);
          r := Fail(MismatchedVersion(apiVersion, show(v)));
        case Unparsed =>
          connection := connection.(open := false);
          r := Fail(APIError("Connect message from the API could not be parsed"));
        case Escaped(e) =>
          r := Fail(Raised(e));
      }
    }

    /** `disconnect`: closes the connection; NotConnectedError when there is
        no open one. */
    method Disconnect() returns (r: Outcome<ApiError>)
      modifies this
      ensures Bookkeeping() == old(Bookkeeping()) && sent == old(sent) && listenerStarted == old(listenerStarted)
      ensures hostname == old(hostname) && token == old(token) && tls == old(tls)
      ensures !old(Connected()) ==> r == Fail(NotConnected(None)) && connection == old(connection)
      ensures old(Connected()) ==> r == Pass && connection == old(connection).(open := false) && !Connected()
    {
      if !Connected() {
        return Fail(NotConnected(None));
      }
      connection := connection.(open := false);
      r := Pass;
    }

    /** `modify`: only truthy arguments are applied (so `tls=False` never is);
        an open connection is re-established when any argument was given,
        with `handshake` as the new connection's first message. */
    method Modify(newHostname: Option<string>, newToken: Option<string>, newTls: Option<bool>, handshake: Handshake)
      returns (r: Outcome<ApiError>)
      requires Valid()
      modifies this
      ensures Valid()
      ensures Bookkeeping() == old(Bookkeeping()) && sent == old(sent)
      ensures hostname == (if TruthyStr(newHostname) then newHostname.value else old(hostname))
      ensures token == (if TruthyStr(newToken) then newToken else old(token))
      ensures tls == (if newTls == Some(true) then true else old(tls))
      ensures !(old(Connected()) && (newHostname.Some? || newToken.Some? || newTls.Some?)) ==>
        r == Pass && connection == old(connection) && listenerStarted == old(listenerStarted)
      ensures old(Connected()) && (newHostname.Some? || newToken.Some? || newTls.Some?) ==>
        connection.Conn? && connection.uri == Uri(hostname, token, tls) && connection.host == hostname &&
        (r == Pass <==> CheckHandshake(handshake, apiVersion) == Proceed) &&
        listenerStarted == (CheckHandshake(handshake, apiVersion) == Proceed || old(listenerStarted))
    {
      if TruthyStr(newHostname) {
        hostname := newHostname.value;
      }
      if TruthyStr(newToken) {
        token := newToken;
      }
      if newTls == Some(true) {
        tls := true;
      }
      r := Pass;
      if Connected() && (newHostname.Some? || newToken.Some? || newTls.Some?) {
        r := Redial(handshake);
      }
    }

    /** The reconnection `modify` makes: disconnect, then connect again with
        the handler's current settings. */
    method Redial(handshake: Handshake) returns (r: Outcome<ApiError>)
      requires Valid() && Connected()
      modifies this
      ensures Valid()
      ensures Bookkeeping() == old(Bookkeeping()) && sent == old(sent)
      ensures hostname == old(hostname) && token == old(token) && tls == old(tls)
      ensures connection.Conn? && connection.uri == Uri(hostname, token, tls) && connection.host == hostname
      ensures r == Pass <==> CheckHandshake(handshake, apiVersion) == Proceed
      ensures listenerStarted == (CheckHandshake(handshake, apiVersion) == Proceed || old(listenerStarted))
    {
      r := Disconnect();
      r := Connect(handshake);
    }

    /** One pass of `_message_handler`'s loop. */
    method HandleMessage(m: Inbound) returns (c: Classification)
      requires Valid()
      modifies this
      ensures Valid()
      ensures (Bookkeeping(), c) == Step(old(Bookkeeping()), m, parse)
      ensures c.ListenerStopped? <==> m.Closed?
      ensures connection == (if m.Closed? then Closing(old(connection)) else old(connection))
      ensures sent == old(sent) && listenerStarted == old(listenerStarted)
      ensures hostname == old(hostname) && token == old(token) && tls == old(tls)
    {
      match m {
        case Unparseable(_) =>
          c := ParseFailure;
        case Closed =>
          c := ListenerStopped;
          connection := Closing(connection);
        case Message(d) =>
          c := Classify(d, waiting, parse);
          if c.Stored? {
            responses := responses[c.id := d];
            waiting := waiting - {c.id};
          }
      }
    }

    /** `_message_handler`: handles reads until the connection closes or an
        exception escapes. */
    method Listen(stream: seq<Inbound>) returns (handled: seq<Classification>)
      requires Valid()
      modifies this
      ensures Valid()
      ensures (Bookkeeping(), handled) == Run(old(Bookkeeping()), stream, parse)
      ensures connection == (if ListenerStopped in handled then Closing(old(connection)) else old(connection))
      ensures ListenerStopped in handled ==> !Connected()
      ensures sent == old(sent) && listenerStarted == old(listenerStarted)
      ensures hostname == old(hostname) && token == old(token) && tls == old(tls)
    {
      handled := [];
      var i := 0;
      assert stream[0..] == stream;
      assert Bookkeeping() == old(Bookkeeping());
      assert handled + Run(Bookkeeping(), stream, parse).1 == Run(Bookkeeping(), stream, parse).1;
      while i < |stream|
        invariant 0 <= i <= |stream|
        invariant Valid()
        invariant connection == old(connection) && ListenerStopped !in handled
        invariant sent == old(sent) && listenerStarted == old(listenerStarted)
        invariant hostname == old(hostname) && token == old(token) && tls == old(tls)
        invariant Run(old(Bookkeeping()), stream, parse) ==
          (Run(Bookkeeping(), stream[i..], parse).0, handled + Run(Bookkeeping(), stream[i..], parse).1)
      {
        ghost var before := Bookkeeping();
        assert stream[i..][0] == stream[i] && stream[i..][1..] == stream[i + 1..];
        var c := HandleMessage(stream[i]);
        if Stops(c) {
          assert Run(before, stream[i..], parse) == (Bookkeeping(), [c]);
          handled := handled + [c];
          return;
        }
        ghost var rest := Run(Bookkeeping(), stream[i + 1..], parse);
        assert Run(before, stream[i..], parse) == (rest.0, [c] + rest.1);
        assert handled + ([c] + rest.1) == (handled + [c]) + rest.1;
        handled := handled + [c];
        i := i + 1;
      }
      assert stream[i..] == [];
      assert handled + [] == handled;
    }

    /** `_send_raw`: NotConnectedError without an open connection. */
    method SendRaw(data: Json) returns (r: Outcome<ApiError>)
      modifies this
      ensures Bookkeeping() == old(Bookkeeping()) && connection == old(connection) && listenerStarted == old(listenerStarted)
      ensures hostname == old(hostname) && token == old(token) && tls == old(tls)
      ensures !Connected() ==> r == Fail(NotConnected(None)) && sent == old(sent)
      ensures Connected() ==>
        (r == Pass && sent == old(sent) + [if data.JStr? then TextFrame(data.s) else JsonFrame(data)])
    {
      if !Connected() {
        return Fail(NotConnected(None));
      }
      sent := sent + [if data.JStr? then TextFrame(data.s) else JsonFrame(data)];
      r := Pass;
    }

    /** `_request` up to the wait: draws ids until one is fresh, attaches it
        to the data's meta, sends the data and only then registers the id as
        waiting. The response is collected with RetrieveResponse. */
    method SendRequest(data: map<string, Json>, draws: seq<Uuid>) returns (r: Result<Uuid, ApiError>)
      requires Valid()
      requires exists j :: 0 <= j < |draws| && Fresh(Bookkeeping(), draws[j])
      modifies this
      ensures Valid()
      ensures connection == old(connection) && listenerStarted == old(listenerStarted)
      ensures hostname == old(hostname) && token == old(token) && tls == old(tls)
      ensures responses == old(responses)
      ensures var id := draws[FirstFresh(draws, old(Bookkeeping()))];
        match AttachId(data, format(id))
        case Err(e) => r == Err(Raised(e)) && waiting == old(waiting) && sent == old(sent)
        case Ok(d) =>
          if old(Connected()) then
            r == Ok(id) && Fresh(old(Bookkeeping()), id) && waiting == old(waiting) + {id} &&
            sent == old(sent) + [JsonFrame(JObj(d))]
          else
            r == Err(NotConnected(None)) && waiting == old(waiting) && sent == old(sent)
    {
      ghost var target := FirstFresh(draws, Bookkeeping());
      var i := 0;
      while !Fresh(Bookkeeping(), draws[i])
        invariant 0 <= i <= target
        decreases target - i
      {
        i := i + 1;
      }
      var id := draws[i];
      var attached := AttachId(data, format(id));
      if attached.Err? {
        return Err(Raised(attached.error));
      }
      var sentOk := SendRaw(JObj(attached.value));
      if sentOk.Fail? {
        return Err(sentOk.error);
      }
      waiting := waiting + {id};
      r := Ok(id);
    }

    /** `_call`: builds the parameters and makes the request. */
    method Call(endpoint: string, action: string, params: Option<map<string, Json>>, meta: Option<map<string, Json>>,
                draws: seq<Uuid>) returns (r: Result<Uuid, ApiError>)
      requires Valid()
      requires exists j :: 0 <= j < |draws| && Fresh(Bookkeeping(), draws[j])
      modifies this
      ensures Valid()
      ensures responses == old(responses) && connection == old(connection)
      ensures hostname == old(hostname) && token == old(token) && tls == old(tls) && listenerStarted == old(listenerStarted)
      ensures CallParams(endpoint, action, params, meta).Err? ==>
        r == Err(Raised(AttributeError)) && waiting == old(waiting) && sent == old(sent)
      ensures CallParams(endpoint, action, params, meta).Ok? && old(Connected()) ==>
        var id := draws[FirstFresh(draws, old(Bookkeeping()))];
        r == Ok(id) && waiting == old(waiting) + {id} &&
        sent == old(sent) + [JsonFrame(JObj(AttachId(CallParams(endpoint, action, params, meta).value, format(id)).value))]
      ensures CallParams(endpoint, action, params, meta).Ok? && !old(Connected()) ==>
        r == Err(NotConnected(None)) && waiting == old(waiting) && sent == old(sent)
    {
      var p := CallParams(endpoint, action, params, meta);
      if p.Err? {
        return Err(Raised(p.error));
      }
      r := SendRequest(p.value, draws);
    }

    /** `_retrieve_response` once the wait is over. */
    method RetrieveResponse(id: Uuid) returns (r: Result<Json, ApiError>)
      requires Valid()
      modifies this
      ensures Valid()
      ensures (Bookkeeping(), r) == Retrieve(old(Bookkeeping()), id, format(id))
      ensures connection == old(connection) && sent == old(sent) && listenerStarted == old(listenerStarted)
      ensures hostname == old(hostname) && token == old(token) && tls == old(tls)
    {
      if id !in waiting && id !in responses {
        return Err(APIError("Response " + format(id) + " already consumed or request never queued"));
      }
      if id in waiting {
        waiting := waiting - {id};
        return Err(TimeoutError("API took too long to respond to request " + format(id)));
      }
      r := Ok(responses[id]);
      responses := responses - {id};
    }
  }
}
