/** The handler for version 2.0 of the API (Modules/api/v20.py): the guard
    and request shape of `update_rescue`, and the field derivation of
    `rescue_from_json`. Date parsing (`datetime.strptime`) and `UUID` are
    parameters of the model; `Rescue` and `Quotation` are records holding
    exactly the constructor arguments the decoder passes. */
module V20 {
  import opened Values
  import opened ApiExceptions
  import Nested
  import Websocket

  const ApiVersion := "v2.0"

  /** The format of a rescue's own timestamps, and the one of its quotes'. */
  const RescueTimeFormat := "%Y-%m-%dT%H:%M:%S.%fZ"
  const QuoteTimeFormat := "%Y-%m-%dT%H:%M:%S.%f"

  /** `datetime.strptime(value, format)`, giving a point in time. */
  type Strptime = (Json, string) -> Result<int, Exc>
  /** `UUID(value)`. */
  type UuidOf = Json -> Result<Uuid, Exc>

  datatype Quotation = Quotation(message: Json, author: Json, createdAt: int, updatedAt: int, lastAuthor: Json)

  datatype Rescue = Rescue(
    caseId: Json,
    client: Json,
    system: Json,
    ircNickname: Json,
    createdAt: int,
    updatedAt: int,
    unidentifiedRats: Json,
    active: bool,
    quotes: seq<Quotation>,
    isOpen: bool,
    epic: bool,
    codeRed: Json,
    successful: bool,
    title: Json,
    firstLimpet: Uuid,
    boardIndex: Json,
    markForDeletion: Json,
    langId: Json,
    rats: seq<Uuid>)

  /** `json[k1][k2]...` */
  function At(j: Json, path: seq<string>): Result<Json, Exc>
  {
    Nested.GetPath(j, path)
  }

  /** Python's `len`: items of a list, keys of a dict, characters of a
      string; anything else has no length. */
  function Len(j: Json): (r: Result<nat, Exc>)
    ensures r.Err? <==> !(j.JList? || j.JObj? || j.JStr?)
  {
    match j
    case JList(items) => Ok(|items|)
    case JObj(fields) => Ok(|fields|)
    case JStr(s) => Ok(|s|)
    case _ => Err(TypeError)
  }

  /** The elements a comprehension over `j` indexes by key. Iterating a
      string or a dict yields strings, and indexing a string by a key is a
      TypeError, so only a list, or an empty string or dict, gets through. */
  function Records(j: Json): (r: Result<seq<Json>, Exc>)
    ensures j.JList? ==> r == Ok(j.items)
    ensures r.Ok? && r.value != [] ==> j.JList?
  {
    match j
    case JList(items) => Ok(items)
    case JStr(s) => if s == "" then Ok([]) else Err(TypeError)
    case JObj(fields) => if fields == map[] then Ok([]) else Err(TypeError)
    case _ => Err(TypeError)
  }

  /** `try: x = lookup except KeyError: x = default`. */
  function OrDefault(lookup: Result<Json, Exc>, default: Json): (r: Result<Json, Exc>)
    ensures lookup.Ok? ==> r == lookup
    ensures lookup.Err? && lookup.error.KeyError? ==> r == Ok(default)
    ensures lookup.Err? && !lookup.error.KeyError? ==> r == lookup
  {
    if lookup.Err? && lookup.error.KeyError? then Ok(default) else lookup
  }

  /** The Quotation built from one element of `attributes.quotes`, its
      arguments read in order. */
  function QuoteFromJson(q: Json, strptime: Strptime): (r: Result<Quotation, Exc>)
    ensures r.Ok? ==> (At(q, ["message"]) == Ok(r.value.message) && At(q, ["author"]) == Ok(r.value.author) &&
      At(q, ["lastAuthor"]) == Ok(r.value.lastAuthor))
    ensures r.Ok? ==> At(q, ["createdAt"]).Ok? && strptime(At(q, ["createdAt"]).value, QuoteTimeFormat) == Ok(r.value.createdAt)
    ensures r.Ok? ==> At(q, ["updatedAt"]).Ok? && strptime(At(q, ["updatedAt"]).value, QuoteTimeFormat) == Ok(r.value.updatedAt)
    ensures !q.JObj? ==> r == Err(TypeError)
  {
    var message :- At(q, ["message"]);
    var author :- At(q, ["author"]);
    var created :- At(q, ["createdAt"]);
    var createdAt :- strptime(created, QuoteTimeFormat);
    var updated :- At(q, ["updatedAt"]);
    var updatedAt :- strptime(updated, QuoteTimeFormat);
    var lastAuthor :- At(q, ["lastAuthor"]);
    Ok(Quotation(message, author, createdAt, updatedAt, lastAuthor))
  }

  /** The list comprehension over the quotes: one Quotation per element, in
      order, or the error of the first element that fails. */
  function Quotes(items: seq<Json>, strptime: Strptime): (r: Result<seq<Quotation>, Exc>)
    ensures r.Ok? <==> forall i :: 0 <= i < |items| ==> QuoteFromJson(items[i], strptime).Ok?
    ensures r.Ok? ==> (|r.value| == |items| &&
      forall i :: 0 <= i < |items| ==> QuoteFromJson(items[i], strptime) == Ok(r.value[i]))
    ensures r.Err? ==> (exists i :: 0 <= i < |items| && QuoteFromJson(items[i], strptime) == Err(r.error) &&
                         forall k :: 0 <= k < i ==> QuoteFromJson(items[k], strptime).Ok?)
  {
    if items == [] then Ok([])
    else
      var q :- QuoteFromJson(items[0], strptime);
      var rest :- Quotes(items[1..], strptime);
      Ok([q] + rest)
  }

  /** `UUID(rat["id"])` for one element of `relationships.rats.data`. */
  function RatId(rat: Json, uuid: UuidOf): Result<Uuid, Exc>
  {
    var id :- At(rat, ["id"]);
    uuid(id)
  }

  /** The rat ids, in document order, or the first error. */
  function RatIds(items: seq<Json>, uuid: UuidOf): (r: Result<seq<Uuid>, Exc>)
    ensures r.Ok? <==> forall i :: 0 <= i < |items| ==> RatId(items[i], uuid).Ok?
    ensures r.Ok? ==> (|r.value| == |items| &&
      forall i :: 0 <= i < |items| ==> RatId(items[i], uuid) == Ok(r.value[i]))
    ensures r.Err? ==> (exists i :: 0 <= i < |items| && RatId(items[i], uuid) == Err(r.error) &&
                         forall k :: 0 <= k < i ==> RatId(items[k], uuid).Ok?)
  {
    if items == [] then Ok([])
    else
      var id :- RatId(items[0], uuid);
      var rest :- RatIds(items[1..], uuid);
      Ok([id] + rest)
  }

  /** `attributes.data.IRCNick`, or `attributes.client` when the nickname is
      missing (any segment) or None. */
  function IrcNickname(json: Json): (r: Result<Json, Exc>)
    ensures var nick := At(json, ["attributes", "data", "IRCNick"]);
      (nick.Ok? && nick.value != JNull ==> r == nick) &&
      (nick == Ok(JNull) || (nick.Err? && nick.error.KeyError?) ==> r == At(json, ["attributes", "client"])) &&
      (nick.Err? && !nick.error.KeyError? ==> r == nick)
  {
    var nick := At(json, ["attributes", "data", "IRCNick"]);
    if nick == Ok(JNull) || (nick.Err? && nick.error.KeyError?) then At(json, ["attributes", "client"])
    else nick
  }

  const NotARescue := ValueError("JSON dict does not seem to represent a rescue")

  /** `rescue_from_json`: the Rescue a document describes, its parts read in
      the order the source reads them, or the first exception. */
  function RescueFromJson(json: Json, strptime: Strptime, uuid: UuidOf): (r: Result<Rescue, Exc>)
    ensures r.Ok? ==> At(json, ["type"]) == Ok(JStr("rescues"))
    ensures At(json, ["type"]).Ok? && At(json, ["type"]).value != JStr("rescues") ==> r == Err(NotARescue)
    ensures r.Ok? ==> IrcNickname(json) == Ok(r.value.ircNickname)
    ensures r.Ok? ==>
      var index := At(json, ["attributes", "data", "boardIndex"]);
      (index.Ok? ==> r.value.boardIndex == index.value) &&
      (index.Err? ==> index.error.KeyError? && r.value.boardIndex == JNull)
    ensures r.Ok? ==>
      var lang := At(json, ["attributes", "data", "langID"]);
      (lang.Ok? ==> r.value.langId == lang.value) &&
      (lang.Err? ==> lang.error.KeyError? && r.value.langId == JStr("en"))
    ensures r.Ok? ==>
      var status := At(json, ["attributes", "status"]);
      status.Ok? &&
      (r.value.active <==> status.value == JStr("open")) &&
      (r.value.isOpen <==> status.value in {JStr("open"), JStr("inactive")}) &&
      (r.value.successful <==> At(json, ["attributes", "outcome"]) == Ok(JStr("success")))
    ensures r.Ok? ==>
      var epics := At(json, ["relationships", "epics"]);
      epics.Ok? && Len(epics.value).Ok? && (r.value.epic <==> Len(epics.value).value > 0)
    ensures r.Ok? ==> At(json, ["attributes", "markedForDeletion"]) == Ok(r.value.markForDeletion)
    ensures r.Ok? ==> At(json, ["id"]) == Ok(r.value.caseId) && At(json, ["attributes", "client"]) == Ok(r.value.client)
    ensures r.Ok? ==>
      var docs := At(json, ["attributes", "quotes"]);
      docs.Ok? && Records(docs.value).Ok? && |r.value.quotes| == |Records(docs.value).value| &&
      forall i :: 0 <= i < |r.value.quotes| ==> QuoteFromJson(Records(docs.value).value[i], strptime) == Ok(r.value.quotes[i])
    ensures r.Ok? ==>
      var docs := At(json, ["relationships", "rats", "data"]);
      docs.Ok? && Records(docs.value).Ok? && |r.value.rats| == |Records(docs.value).value| &&
      forall i :: 0 <= i < |r.value.rats| ==> RatId(Records(docs.value).value[i], uuid) == Ok(r.value.rats[i])
  {
    var kind :- At(json, ["type"]);
    if kind != JStr("rescues") then Err(NotARescue)
    else
      var ircNickname :- IrcNickname(json);
      var created :- At(json, ["attributes", "createdAt"]);
      var createdAt :- strptime(created, RescueTimeFormat);
      var updated :- At(json, ["attributes", "updatedAt"]);
      var updatedAt :- strptime(updated, RescueTimeFormat);
      var quoteDocs :- At(json, ["attributes", "quotes"]);
      var quoteItems :- Records(quoteDocs);
      var quotes :- Quotes(quoteItems, strptime);
      var boardIndex :- OrDefault(At(json, ["attributes", "data", "boardIndex"]), JNull);
      var langId :- OrDefault(At(json, ["attributes", "data", "langID"]), JStr("en"));
      var ratDocs :- At(json, ["relationships", "rats", "data"]);
      var ratItems :- Records(ratDocs);
      var rats :- RatIds(ratItems, uuid);
      var caseId :- At(json, ["id"]);
      var client :- At(json, ["attributes", "client"]);
      var system :- At(json, ["attributes", "system"]);
      var unidentifiedRats :- At(json, ["attributes", "unidentifiedRats"]);
      var status :- At(json, ["attributes", "status"]);
      var epics :- At(json, ["relationships", "epics"]);
      var epicCount :- Len(epics);
      var codeRed :- At(json, ["attributes", "codeRed"]);
      var outcome :- At(json, ["attributes", "outcome"]);
      var title :- At(json, ["attributes", "title"]);
      var limpet :- At(json, ["attributes", "firstLimpetId"]);
      var firstLimpet :- uuid(limpet);
      var markForDeletion :- At(json, ["attributes", "markedForDeletion"]);
      Ok(Rescue(caseId, client, system, ircNickname, createdAt, updatedAt, unidentifiedRats,
                status == JStr("open"), quotes, status == JStr("open") || status == JStr("inactive"),
                epicCount > 0, codeRed, outcome == JStr("success"), title, firstLimpet,
                boardIndex, markForDeletion, langId, rats))
  }

  /** A document that is not a dict cannot be indexed; one without `type`
      raises KeyError for it. */
  lemma RescueFromJsonNotADict(json: Json, strptime: Strptime, uuid: UuidOf)
    ensures !json.JObj? ==> RescueFromJson(json, strptime, uuid) == Err(TypeError)
    ensures json.JObj? && "type" !in json.fields ==> RescueFromJson(json, strptime, uuid) == Err(KeyError("type"))
  {
  }

  /** A document that says what it is but has no `attributes` fails on the
      fallback lookup of the client, after the nickname lookup's KeyError. */
  lemma RescueFromJsonNoAttributes(fields: map<string, Json>, strptime: Strptime, uuid: UuidOf)
    requires "type" in fields && fields["type"] == JStr("rescues") && "attributes" !in fields
    ensures RescueFromJson(JObj(fields), strptime, uuid) == Err(KeyError("attributes"))
  {
  }

  // A document in the shape `rescue_from_json` reads, built from a Rescue.

  function QuoteDoc(q: Quotation, time: int -> Json): Json
  {
    JObj(map["message" := q.message, "author" := q.author, "createdAt" := time(q.createdAt),
             "updatedAt" := time(q.updatedAt), "lastAuthor" := q.lastAuthor])
  }

  function QuoteDocs(qs: seq<Quotation>, time: int -> Json): (r: seq<Json>)
    ensures |r| == |qs|
  {
    if qs == [] then [] else [QuoteDoc(qs[0], time)] + QuoteDocs(qs[1..], time)
  }

  function RatDocs(rats: seq<Uuid>, text: Uuid -> Json): (r: seq<Json>)
    ensures |r| == |rats|
  {
    if rats == [] then [] else [JObj(map["id" := text(rats[0])])] + RatDocs(rats[1..], text)
  }

  /** The single status a Rescue's `active` and `is_open` flags come from. */
  function StatusOf(r: Rescue): Json
  {
    if r.active then JStr("open") else if r.isOpen then JStr("inactive") else JStr("closed")
  }

  function DataDoc(r: Rescue): Json
  {
    JObj(map["IRCNick" := r.ircNickname, "boardIndex" := r.boardIndex, "langID" := r.langId])
  }

  function AttributesDoc(r: Rescue, rescueTime: int -> Json, quoteTime: int -> Json, uuidText: Uuid -> Json): Json
  {
    JObj(map[
      "client" := r.client,
      "system" := r.system,
      "data" := DataDoc(r),
      "createdAt" := rescueTime(r.createdAt),
      "updatedAt" := rescueTime(r.updatedAt),
      "quotes" := JList(QuoteDocs(r.quotes, quoteTime)),
      "unidentifiedRats" := r.unidentifiedRats,
      "status" := StatusOf(r),
      "codeRed" := r.codeRed,
      "outcome" := if r.successful then JStr("success") else JNull,
      "title" := r.title,
      "firstLimpetId" := uuidText(r.firstLimpet),
      "markedForDeletion" := r.markForDeletion])
  }

  function RelationshipsDoc(r: Rescue, uuidText: Uuid -> Json): Json
  {
    JObj(map[
      "rats" := JObj(map["data" := JList(RatDocs(r.rats, uuidText))]),
      "epics" := JList(if r.epic then [JNull] else [])])
  }

  function RescueDocument(r: Rescue, rescueTime: int -> Json, quoteTime: int -> Json, uuidText: Uuid -> Json): Json
  {
    JObj(map[
      "type" := JStr("rescues"),
      "id" := r.caseId,
      "attributes" := AttributesDoc(r, rescueTime, quoteTime, uuidText),
      "relationships" := RelationshipsDoc(r, uuidText)])
  }

  lemma {:induction false} QuotesRoundTrip(qs: seq<Quotation>, time: int -> Json, strptime: Strptime)
    requires forall t :: strptime(time(t), QuoteTimeFormat) == Ok(t)
    ensures Quotes(QuoteDocs(qs, time), strptime) == Ok(qs)
    decreases |qs|
  {
    if qs != [] {
      var q := qs[0];
      assert QuoteFromJson(QuoteDoc(q, time), strptime) == Ok(q);
      QuotesRoundTrip(qs[1..], time, strptime);
      assert QuoteDocs(qs, time)[1..] == QuoteDocs(qs[1..], time);
      assert [q] + qs[1..] == qs;
    }
  }

  lemma {:induction false} RatIdsRoundTrip(rats: seq<Uuid>, text: Uuid -> Json, uuid: UuidOf)
    requires forall u :: uuid(text(u)) == Ok(u)
    ensures RatIds(RatDocs(rats, text), uuid) == Ok(rats)
    decreases |rats|
  {
    if rats != [] {
      assert RatId(JObj(map["id" := text(rats[0])]), uuid) == Ok(rats[0]);
      RatIdsRoundTrip(rats[1..], text, uuid);
      assert RatDocs(rats, text)[1..] == RatDocs(rats[1..], text);
      assert [rats[0]] + rats[1..] == rats;
    }
  }

  /** Every rescue whose flags could come from one status, and which has a
      nickname, is decoded from its document exactly: no field is lost,
      reordered or defaulted. */
  lemma RescueRoundTrip(r: Rescue, rescueTime: int -> Json, quoteTime: int -> Json, uuidText: Uuid -> Json,
                        strptime: Strptime, uuid: UuidOf)
    requires forall t :: strptime(rescueTime(t), RescueTimeFormat) == Ok(t)
    requires forall t :: strptime(quoteTime(t), QuoteTimeFormat) == Ok(t)
    requires forall u :: uuid(uuidText(u)) == Ok(u)
    requires r.ircNickname != JNull && (r.active ==> r.isOpen)
    ensures RescueFromJson(RescueDocument(r, rescueTime, quoteTime, uuidText), strptime, uuid) == Ok(r)
  {
    DocumentDescribes(r, rescueTime, quoteTime, uuidText);
    DescribedDecodes(RescueDocument(r, rescueTime, quoteTime, uuidText), r, rescueTime, quoteTime, uuidText, strptime, uuid);
  }

  /** What RescueDocument puts at each path `rescue_from_json` reads. */
  ghost predicate Describes(doc: Json, r: Rescue, rescueTime: int -> Json, quoteTime: int -> Json, uuidText: Uuid -> Json)
  {
    At(doc, ["type"]) == Ok(JStr("rescues")) &&
    At(doc, ["id"]) == Ok(r.caseId) &&
    At(doc, ["attributes", "data", "IRCNick"]) == Ok(r.ircNickname) &&
    At(doc, ["attributes", "data", "boardIndex"]) == Ok(r.boardIndex) &&
    At(doc, ["attributes", "data", "langID"]) == Ok(r.langId) &&
    At(doc, ["relationships", "epics"]) == Ok(JList(if r.epic then [JNull] else [])) &&
    At(doc, ["relationships", "rats", "data"]) == Ok(JList(RatDocs(r.rats, uuidText))) &&
    At(doc, ["attributes", "client"]) == Ok(r.client) &&
    At(doc, ["attributes", "system"]) == Ok(r.system) &&
    At(doc, ["attributes", "createdAt"]) == Ok(rescueTime(r.createdAt)) &&
    At(doc, ["attributes", "updatedAt"]) == Ok(rescueTime(r.updatedAt)) &&
    At(doc, ["attributes", "quotes"]) == Ok(JList(QuoteDocs(r.quotes, quoteTime))) &&
    At(doc, ["attributes", "unidentifiedRats"]) == Ok(r.unidentifiedRats) &&
    At(doc, ["attributes", "status"]) == Ok(StatusOf(r)) &&
    At(doc, ["attributes", "codeRed"]) == Ok(r.codeRed) &&
    At(doc, ["attributes", "outcome"]) == Ok(if r.successful then JStr("success") else JNull) &&
    At(doc, ["attributes", "title"]) == Ok(r.title) &&
    At(doc, ["attributes", "firstLimpetId"]) == Ok(uuidText(r.firstLimpet)) &&
    At(doc, ["attributes", "markedForDeletion"]) == Ok(r.markForDeletion)
  }

  lemma DocumentDescribes(r: Rescue, rescueTime: int -> Json, quoteTime: int -> Json, uuidText: Uuid -> Json)
    ensures Describes(RescueDocument(r, rescueTime, quoteTime, uuidText), r, rescueTime, quoteTime, uuidText)
  {
    DocumentLookups(r, rescueTime, quoteTime, uuidText);
    DocumentAttributes(r, rescueTime, quoteTime, uuidText);
  }

  lemma DescribedDecodes(doc: Json, r: Rescue, rescueTime: int -> Json, quoteTime: int -> Json, uuidText: Uuid -> Json,
                         strptime: Strptime, uuid: UuidOf)
    requires Describes(doc, r, rescueTime, quoteTime, uuidText)
    requires forall t :: strptime(rescueTime(t), RescueTimeFormat) == Ok(t)
    requires forall t :: strptime(quoteTime(t), QuoteTimeFormat) == Ok(t)
    requires forall u :: uuid(uuidText(u)) == Ok(u)
    requires r.ircNickname != JNull && (r.active ==> r.isOpen)
    ensures RescueFromJson(doc, strptime, uuid) == Ok(r)
  {
    QuotesRoundTrip(r.quotes, quoteTime, strptime);
    RatIdsRoundTrip(r.rats, uuidText, uuid);
    assert IrcNickname(doc) == Ok(r.ircNickname);
    StatusFlags(r);
    DecodesTo(doc, strptime, uuid, r, rescueTime(r.createdAt), rescueTime(r.updatedAt),
              QuoteDocs(r.quotes, quoteTime), RatDocs(r.rats, uuidText), uuidText(r.firstLimpet),
              StatusOf(r), if r.successful then JStr("success") else JNull, JList(if r.epic then [JNull] else []));
  }

  /** The status, outcome and epics a rescue's document holds give its flags
      back, as `rescue_from_json` reads them. */
  lemma StatusFlags(r: Rescue)
    requires r.active ==> r.isOpen
    ensures r.active == (StatusOf(r) == JStr("open"))
    ensures r.isOpen == (StatusOf(r) == JStr("open") || StatusOf(r) == JStr("inactive"))
    ensures r.successful == ((if r.successful then JStr("success") else JNull) == JStr("success"))
    ensures Len(JList(if r.epic then [JNull] else [])).Ok?
    ensures r.epic == (Len(JList(if r.epic then [JNull] else [])).value > 0)
  {
  }

  /** A document whose every part is present and parses decodes to the
      Rescue holding those parts. */
  lemma DecodesTo(json: Json, strptime: Strptime, uuid: UuidOf, r: Rescue,
                  created: Json, updated: Json, quoteItems: seq<Json>, ratItems: seq<Json>, limpet: Json,
                  status: Json, outcome: Json, epics: Json)
    requires At(json, ["type"]) == Ok(JStr("rescues")) && At(json, ["id"]) == Ok(r.caseId)
    requires IrcNickname(json) == Ok(r.ircNickname)
    requires At(json, ["attributes", "createdAt"]) == Ok(created) && strptime(created, RescueTimeFormat) == Ok(r.createdAt)
    requires At(json, ["attributes", "updatedAt"]) == Ok(updated) && strptime(updated, RescueTimeFormat) == Ok(r.updatedAt)
    requires At(json, ["attributes", "quotes"]) == Ok(JList(quoteItems)) && Quotes(quoteItems, strptime) == Ok(r.quotes)
    requires At(json, ["attributes", "data", "boardIndex"]) == Ok(r.boardIndex)
    requires At(json, ["attributes", "data", "langID"]) == Ok(r.langId)
    requires At(json, ["relationships", "rats", "data"]) == Ok(JList(ratItems)) && RatIds(ratItems, uuid) == Ok(r.rats)
    requires At(json, ["attributes", "client"]) == Ok(r.client) && At(json, ["attributes", "system"]) == Ok(r.system)
    requires At(json, ["attributes", "unidentifiedRats"]) == Ok(r.unidentifiedRats)
    requires At(json, ["attributes", "status"]) == Ok(status)
    requires r.active == (status == JStr("open")) && r.isOpen == (status == JStr("open") || status == JStr("inactive"))
    requires At(json, ["relationships", "epics"]) == Ok(epics) && Len(epics).Ok? && r.epic == (Len(epics).value > 0)
    requires At(json, ["attributes", "codeRed"]) == Ok(r.codeRed)
    requires At(json, ["attributes", "outcome"]) == Ok(outcome) && r.successful == (outcome == JStr("success"))
    requires At(json, ["attributes", "title"]) == Ok(r.title)
    requires At(json, ["attributes", "firstLimpetId"]) == Ok(limpet) && uuid(limpet) == Ok(r.firstLimpet)
    requires At(json, ["attributes", "markedForDeletion"]) == Ok(r.markForDeletion)
    ensures RescueFromJson(json, strptime, uuid) == Ok(r)
  {
  }

  lemma Lookup1(doc: Json, a: string)
    requires doc.JObj? && a in doc.fields
    ensures At(doc, [a]) == Ok(doc.fields[a])
  {
    assert [a][0] == a && [a][1..] == [];
    assert Nested.GetPath(doc.fields[a], []) == Ok(doc.fields[a]);
    assert Nested.GetPath(doc, [a]) == Nested.GetPath(doc.fields[a], [a][1..]);
  }

  lemma Lookup2(doc: Json, a: string, b: string)
    requires doc.JObj? && a in doc.fields && doc.fields[a].JObj? && b in doc.fields[a].fields
    ensures At(doc, [a, b]) == Ok(doc.fields[a].fields[b])
  {
    assert [a, b][0] == a && [a, b][1..] == [b];
    assert Nested.GetPath(doc, [a, b]) == Nested.GetPath(doc.fields[a], [b]);
    Lookup1(doc.fields[a], b);
  }

  lemma Lookup3(doc: Json, a: string, b: string, c: string)
    requires doc.JObj? && a in doc.fields && doc.fields[a].JObj? && b in doc.fields[a].fields
    requires doc.fields[a].fields[b].JObj? && c in doc.fields[a].fields[b].fields
    ensures At(doc, [a, b, c]) == Ok(doc.fields[a].fields[b].fields[c])
  {
    assert [a, b, c][0] == a && [a, b, c][1..] == [b, c];
    assert Nested.GetPath(doc, [a, b, c]) == Nested.GetPath(doc.fields[a], [b, c]);
    Lookup2(doc.fields[a], b, c);
  }

  lemma DocumentLookups(r: Rescue, rescueTime: int -> Json, quoteTime: int -> Json, uuidText: Uuid -> Json)
    ensures var doc := RescueDocument(r, rescueTime, quoteTime, uuidText);
      At(doc, ["type"]) == Ok(JStr("rescues")) &&
      At(doc, ["id"]) == Ok(r.caseId) &&
      At(doc, ["attributes", "data", "IRCNick"]) == Ok(r.ircNickname) &&
      At(doc, ["attributes", "data", "boardIndex"]) == Ok(r.boardIndex) &&
      At(doc, ["attributes", "data", "langID"]) == Ok(r.langId) &&
      At(doc, ["relationships", "epics"]) == Ok(JList(if r.epic then [JNull] else [])) &&
      At(doc, ["relationships", "rats", "data"]) == Ok(JList(RatDocs(r.rats, uuidText)))
  {
    var doc := RescueDocument(r, rescueTime, quoteTime, uuidText);
    var attrs := AttributesDoc(r, rescueTime, quoteTime, uuidText);
    var data := DataDoc(r);
    var relations := RelationshipsDoc(r, uuidText);
    assert doc.fields["attributes"] == attrs && doc.fields["relationships"] == relations;
    assert attrs.fields["data"] == data;
    assert data.fields["IRCNick"] == r.ircNickname && data.fields["boardIndex"] == r.boardIndex;
    assert data.fields["langID"] == r.langId;
    Lookup1(doc, "type");
    Lookup1(doc, "id");
    Lookup3(doc, "attributes", "data", "IRCNick");
    Lookup3(doc, "attributes", "data", "boardIndex");
    Lookup3(doc, "attributes", "data", "langID");
    Lookup2(doc, "relationships", "epics");
    Lookup3(doc, "relationships", "rats", "data");
  }

  lemma DocumentAttributes(r: Rescue, rescueTime: int -> Json, quoteTime: int -> Json, uuidText: Uuid -> Json)
    ensures var doc := RescueDocument(r, rescueTime, quoteTime, uuidText);
      At(doc, ["attributes", "client"]) == Ok(r.client) &&
      At(doc, ["attributes", "system"]) == Ok(r.system) &&
      At(doc, ["attributes", "createdAt"]) == Ok(rescueTime(r.createdAt)) &&
      At(doc, ["attributes", "updatedAt"]) == Ok(rescueTime(r.updatedAt)) &&
      At(doc, ["attributes", "quotes"]) == Ok(JList(QuoteDocs(r.quotes, quoteTime))) &&
      At(doc, ["attributes", "unidentifiedRats"]) == Ok(r.unidentifiedRats) &&
      At(doc, ["attributes", "status"]) == Ok(StatusOf(r)) &&
      At(doc, ["attributes", "codeRed"]) == Ok(r.codeRed) &&
      At(doc, ["attributes", "outcome"]) == Ok(if r.successful then JStr("success") else JNull) &&
      At(doc, ["attributes", "title"]) == Ok(r.title) &&
      At(doc, ["attributes", "firstLimpetId"]) == Ok(uuidText(r.firstLimpet)) &&
      At(doc, ["attributes", "markedForDeletion"]) == Ok(r.markForDeletion)
  {
    DocumentTimes(r, rescueTime, quoteTime, uuidText);
    DocumentMarks(r, rescueTime, quoteTime, uuidText);
  }

  /** The attributes written from the rescue's client, system and times. */
  lemma DocumentTimes(r: Rescue, rescueTime: int -> Json, quoteTime: int -> Json, uuidText: Uuid -> Json)
    ensures var doc := RescueDocument(r, rescueTime, quoteTime, uuidText);
      At(doc, ["attributes", "client"]) == Ok(r.client) &&
      At(doc, ["attributes", "system"]) == Ok(r.system) &&
      At(doc, ["attributes", "createdAt"]) == Ok(rescueTime(r.createdAt)) &&
      At(doc, ["attributes", "updatedAt"]) == Ok(rescueTime(r.updatedAt))
  {
    var doc := RescueDocument(r, rescueTime, quoteTime, uuidText);
    var attrs := AttributesDoc(r, rescueTime, quoteTime, uuidText);
    assert doc.fields["attributes"] == attrs;
    forall k | k in attrs.fields
      ensures At(doc, ["attributes", k]) == Ok(attrs.fields[k])
    {
      Lookup2(doc, "attributes", k);
    }
    assert attrs.fields["client"] == r.client && attrs.fields["system"] == r.system;
    assert attrs.fields["createdAt"] == rescueTime(r.createdAt);
    assert attrs.fields["updatedAt"] == rescueTime(r.updatedAt);
  }

  /** The attributes written from its quotes, status and flags. */
  lemma DocumentMarks(r: Rescue, rescueTime: int -> Json, quoteTime: int -> Json, uuidText: Uuid -> Json)
    ensures var doc := RescueDocument(r, rescueTime, quoteTime, uuidText);
      At(doc, ["attributes", "quotes"]) == Ok(JList(QuoteDocs(r.quotes, quoteTime))) &&
      At(doc, ["attributes", "unidentifiedRats"]) == Ok(r.unidentifiedRats) &&
      At(doc, ["attributes", "status"]) == Ok(StatusOf(r)) &&
      At(doc, ["attributes", "codeRed"]) == Ok(r.codeRed) &&
      At(doc, ["attributes", "outcome"]) == Ok(if r.successful then JStr("success") else JNull) &&
      At(doc, ["attributes", "title"]) == Ok(r.title) &&
      At(doc, ["attributes", "firstLimpetId"]) == Ok(uuidText(r.firstLimpet)) &&
      At(doc, ["attributes", "markedForDeletion"]) == Ok(r.markForDeletion)
  {
    var doc := RescueDocument(r, rescueTime, quoteTime, uuidText);
    var attrs := AttributesDoc(r, rescueTime, quoteTime, uuidText);
    assert doc.fields["attributes"] == attrs;
    forall k | k in attrs.fields
      ensures At(doc, ["attributes", k]) == Ok(attrs.fields[k])
    {
      Lookup2(doc, "attributes", k);
    }
    assert attrs.fields["quotes"] == JList(QuoteDocs(r.quotes, quoteTime));
    assert attrs.fields["unidentifiedRats"] == r.unidentifiedRats;
    assert attrs.fields["status"] == StatusOf(r);
    assert attrs.fields["codeRed"] == r.codeRed;
    assert attrs.fields["outcome"] == (if r.successful then JStr("success") else JNull);
    assert attrs.fields["title"] == r.title && attrs.fields["firstLimpetId"] == uuidText(r.firstLimpet);
    assert attrs.fields["markedForDeletion"] == r.markForDeletion;
  }

  /** `WebsocketAPIHandler20.update_rescue`: refused with ValueError when
      the case id is None; otherwise a `("rescues", "update")` request with
      the rescue's id and data, sent through the handler's `_request`. */
  method UpdateRescue(h: Websocket.WebsocketRequestHandler, rescue: RescueView, draws: seq<Uuid>)
    returns (r: Result<Uuid, ApiError>)
    requires h.Valid()
    requires exists j :: 0 <= j < |draws| && Websocket.Fresh(h.Bookkeeping(), draws[j])
    modifies h
    ensures h.Valid()
    ensures h.responses == old(h.responses) && h.connection == old(h.connection)
    ensures h.hostname == old(h.hostname) && h.token == old(h.token) && h.tls == old(h.tls) &&
      h.listenerStarted == old(h.listenerStarted)
    ensures rescue.caseId == JNull ==>
      r == Err(Raised(ValueError("Cannot send rescue without ID to the API"))) &&
      h.waiting == old(h.waiting) && h.sent == old(h.sent)
    ensures rescue.caseId != JNull && !old(h.Connected()) ==>
      r == Err(NotConnected(None)) && h.waiting == old(h.waiting) && h.sent == old(h.sent)
    ensures rescue.caseId != JNull && old(h.Connected()) ==>
      var id := draws[Websocket.FirstFresh(draws, old(h.Bookkeeping()))];
      r == Ok(id) && h.waiting == old(h.waiting) + {id} &&
      h.sent == old(h.sent) + [Websocket.JsonFrame(JObj(UpdateRequest(rescue, h.format(id))))]
  {
    if rescue.caseId == JNull {
      return Err(Raised(ValueError("Cannot send rescue without ID to the API")));
    }
    r := h.SendRequest(UpdateParams(rescue), draws);
  }

  /** The request `update_rescue` passes to `_request`. */
  function UpdateParams(rescue: RescueView): map<string, Json>
  {
    map["action" := JList([JStr("rescues"), JStr("update")]), "id" := rescue.caseId, "data" := rescue.json]
  }

  /** What goes on the wire for `update_rescue`: the action, the id, the
      data, and a meta holding only the request id. */
  function UpdateRequest(rescue: RescueView, idText: string): (m: map<string, Json>)
    ensures m.Keys == {"action", "id", "data", "meta"}
    ensures m["action"] == JList([JStr("rescues"), JStr("update")])
    ensures m["id"] == rescue.caseId && m["data"] == rescue.json
    ensures m["meta"] == JObj(map["request_id" := JStr(idText)])
    ensures Websocket.AttachId(UpdateParams(rescue), idText) == Ok(m)
  {
    UpdateParams(rescue)["meta" := JObj(map["request_id" := JStr(idText)])]
  }
}
