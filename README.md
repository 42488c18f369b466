# pipsqueak3 core, modelled in Dafny

pipsqueak3 is an IRC bot for the Fuel Rats. It dispatches chat commands to
registered handlers and binds their arguments. It keeps a board of the
rescues in progress. It talks to the Fuel Rats API over a websocket, pairing
each request with its response through a request id. This project models the
data handling of that core, and proves what the code promises about it and,
in several places, what the code does instead.

One module per source file:

| module | source | flavour |
|---|---|---|
| `Values` | shared | the JSON documents, Python exceptions as data, `Option`/`Result`/`Outcome` |
| `Nested` | `utils/nested.py` (and `ratlib/nested.py`, a byte-identical copy) | loops over a path into nested dicts; `set_nested` updates a `Dict` object in place |
| `TypeChecking` | `utils/typechecking.py` | pure |
| `Converter` | `Modules/api/converter.py` | field declarations, and the loops of `to_obj`, `to_json` and `to_search_parameters` |
| `Search` | `Modules/api/search.py` | operator objects, and a `Search` class whose `add` updates its registry |
| `ApiExceptions` | `Modules/api/exceptions.py` | the exception classes and their hierarchy |
| `Websocket` | `Modules/api/websocket.py` | a class holding the connection, the waiting-request set and the response map |
| `ApiHandlerDraft` | `Modules/api_handler.py` | the earlier draft of that handler, and its `update_rescue` |
| `V20` | `Modules/api/v20.py` | rescue decoding as a pure function; `update_rescue` on a websocket handler |
| `RatBoard` | `Modules/Rat_Board.py` | a `Board` class over an insertion-ordered dict |
| `RatCommand` | `Modules/rat_command.py` | the alias registry class, `trigger`'s lookup, the old parameter strings |
| `Parametrization` | `Modules/parametrization.py` | the argument cursor class and the binding loop |

Several choices hold throughout:

- **Dicts.** A dict the code mutates is a `map` field of a class. The rescue
  board also keeps insertion order, as an entry sequence.
- **What the code cannot see.** Callables the model cannot see are function
  parameters. These are sanitisers, the `isinstance` and type-name tests,
  UUID parsing and formatting, and `strptime`.
- **Random request ids.** `uuid4()` draws are a sequence parameter.
- **Exceptions.** A raised exception is an `Err`/`Fail` value.
- **Waiting.** Each asynchronous wait is one atomic step.

Where the code and its own tests or docstrings disagree, the model follows
the code. Lemmas then exhibit the difference:

- `Converter.ConverterSetNested` is the converter's own copy of `set_nested`.
  It calls `setdefault` on the top-level dict at every level. So a key of
  three or more segments lands under its last two segments only.
- `Converter.FromModel` goes through `to_obj`, not `to_json`. So the
  `to_json` sanitiser is never applied to model values.
- `ApiExceptions.ReturnCodeDefaultIgnored`: the `_default_message` the
  subclasses declare is never used as the default.
- `Parametrization.TextThenWordExample`: code and test disagree here. A TEXT
  parameter ends the binding, so `(TextParam(), WordParam())` on
  "!test one two" calls the command with "one two" alone.
  `tests/test_parametrization.py` expects the call `("one two", "two")`,
  with "two" bound again to the WORD parameter after the TEXT one.
- `Parametrization.NoArguments`: a message without arguments does not start
  the argument cursor at its end. So every parameter, even an optional one,
  raises IndexError.
- `ApiHandlerDraft.DraftRetrieveRepeatable` and
  `ApiHandlerDraft.DraftTimeoutThenLateReply`: the draft handler never pops a
  response, and it stores a reply that arrives after the timeout.

## Model

| member | source | states |
|---|---|---|
| Nested.Split | utils/nested.py:32 | `key.split(".")` has at least one segment and no segment contains '.' |
| Nested.JoinSplit | utils/nested.py:32 | joining the segments with '.' gives the key back |
| Nested.SplitNoDot | utils/nested.py:32 | a key without '.' is its own single segment |
| Nested.SplitAfterSegment | utils/nested.py:32 | a leading dot-free segment splits off first |
| Nested.SplitJoin | utils/nested.py:32 | dot-free segments joined and split again are the same segments |
| Nested.SingleSegmentIff | utils/nested.py:32 | a key is one segment exactly when it contains no '.' |
| Nested.GetNested | utils/nested.py:13-35 | the loop returns the value found by indexing with each segment in turn, or the KeyError/TypeError of the first failing step |
| Nested.GetPathErrors | utils/nested.py:31-35 | a failing lookup is TypeError, or KeyError of one of the path's segments |
| Nested.GetPathAppend | utils/nested.py:31-35 | looking up `p + q` is looking up `p`, then `q` in what it found |
| Nested.GetPathKeyErrorIff | utils/nested.py:22-25 | KeyError(k) exactly when some prefix of the path leads to a dict that lacks the next segment `k` |
| Nested.GetNestedExample | utils/nested.py:27-29 | `get_nested({"first": {"second": 42}}, "first.second")` is 42 |
| Nested.SetNested | utils/nested.py:38-62 | the new dict is the input with the value under the whole path, creating missing dicts; a non-dict met by `setdefault` before the last two segments is AttributeError, a non-dict receiving the final assignment is TypeError, and then nothing changes |
| Nested.SetPathOutcome | utils/nested.py:56-62 | a single segment always succeeds; a success keeps every top-level key and adds the first segment; the only failures are AttributeError and TypeError |
| Nested.GetPathStep | utils/nested.py:31-35 | a lookup through a dict is its first segment, then the rest below it |
| Nested.GetAfterSet | utils/nested.py:38-62 | after a successful set, a get on the same path returns the value |
| Nested.GetNestedAfterSetNested | utils/nested.py:13-62 | the same round trip, stated on string keys |
| Nested.SetCreatesIntermediates | utils/nested.py:40 | after a set, every proper prefix of the path leads to a dict |
| Nested.SetLeavesOtherPaths | utils/nested.py:57-62 | every path that leaves the set path reads as before |
| Nested.SetFailsIff | utils/nested.py:50-52 | set fails exactly when some proper prefix already holds a non-dict |
| Nested.SetSingleKey | utils/nested.py:62 | a dot-free key is one plain assignment |
| Nested.GetSingleKey | utils/nested.py:33 | a dot-free key is one plain lookup, KeyError when absent |
| TypeChecking.CheckType | utils/typechecking.py:12-41 | None exactly when the value is an instance of one of the given types; otherwise the message naming the expected types in order and the actual type |
| TypeChecking.AnyInstance | utils/typechecking.py:38 | true exactly when some listed type matches |
| TypeChecking.JoinNamesAppend | utils/typechecking.py:39-41 | appending a type appends ", " and its name |
| TypeChecking.CheckTypeExample | utils/typechecking.py:30-36 | checking 5 against str, dict, list gives the documented message |
| TypeChecking.CheckTypePassesFirst | utils/typechecking.py:38 | a value of the first type always passes |
| Converter.Setdefaults | Modules/api/converter.py:63-64 | repeated `setdefault` on one dict keeps old keys and adds each segment, mapped to an empty dict, when missing |
| Converter.ConverterSetPath | Modules/api/converter.py:61-66 | the only outcomes are success and TypeError |
| Converter.ConverterSetPathFrame | Modules/api/converter.py:61-66 | the top level only gains keys, keys off the path keep their values, and a failure is on a path of two or more segments and leaves the setdefaults already made |
| Converter.ConverterSetNested | Modules/api/converter.py:42-66 | the new dict and outcome are those of the converter's `set_nested` as written (setdefault always on `dest`) |
| Converter.ConverterSetAgreesShort | Modules/api/converter.py:42-66 | for one or two segments it agrees with the utility `set_nested` |
| Converter.ConverterGetAfterSetShort | Modules/api/converter.py:42-66 | hence get-after-set holds for such keys |
| Converter.ConverterSetLandsAtLastTwo | Modules/api/converter.py:61-66 | in general the value is found under the last two segments only |
| Converter.ConverterSetTopKeys | Modules/api/converter.py:63-64 | the top level gains every segment but the last |
| Converter.SplitThreeSegments | Modules/api/converter.py:61 | "a.b.c" splits into three segments |
| Converter.SetdefaultsTwo | Modules/api/converter.py:63-64 | two setdefaults add two empty dicts at the top |
| Converter.ConverterSetThreeSegments | Modules/api/converter.py:42-66 | setting "a.b.c" on an empty dict gives `{"a": {}, "b": {"c": v}}`, and reading "a.b.c" back is KeyError("b") |
| Converter.SetName | Modules/api/converter.py:123-131 | naming a field fills the attribute name and constructor argument only where unset, and nothing else changes |
| Converter.SetNameIdempotent | Modules/api/converter.py:123-131 | naming a field twice is naming it once |
| Converter.FromJson | Modules/api/converter.py:133-150 | a KeyError from the lookup or from `to_obj` selects the default: the fallback field, the plain default, or KeyError "… not found in provided json dict"; any other result passes through unchanged |
| Converter.FromJsonCases | Modules/api/converter.py:137-150 | the same, case by case on the lookup and `to_obj`: the value, `to_obj`'s non-KeyError result, the default after either KeyError, and other lookup errors unchanged |
| Converter.FromJsonPlainChainNoKeyError | Modules/api/converter.py:144-150 | a fallback chain ending in a plain default never lets a KeyError out |
| Converter.FromJsonKeyErrorFromChain | Modules/api/converter.py:144-150 | any escaping KeyError is a field's "not found" error, and the chain has no default |
| Converter.FromModel | Modules/api/converter.py:152-164 | a missing attribute is KeyError "provided object does not have attribute …"; without `to_json` the result is the attribute itself |
| Converter.FromSearchCriteria | Modules/api/converter.py:166-175 | the value itself without `to_json` |
| Converter.FromModelIgnoresToJson | Modules/api/converter.py:157-164 | which `to_json` a field has never changes `from_model`, which applies `to_obj` |
| Converter.SanitiserRulesDiffer | Modules/api/converter.py:152-175 | one field turns the same value into different things in `from_model` and `from_search_criteria` |
| Converter.Fields | Modules/api/converter.py:195-197 | every declared field, in order, named by its declaration |
| Converter.FieldForArg | Modules/api/converter.py:200-210 | the first field with that constructor argument, or ValueError(arg) exactly when none has it |
| Converter.ConstructorArgsNoNone | Modules/api/converter.py:216-222 | no gathered argument is None |
| Converter.ConstructorArgsNoModelFields | Modules/api/converter.py:213-224 | without fields that apply to the model there are no arguments |
| Converter.ConstructorArgsErrSticky | Modules/api/converter.py:213-224 | once gathering fails, later fields do not matter |
| Converter.ToObj | Modules/api/converter.py:213-224 | the loop computes the constructor arguments of the model fields in order |
| Converter.ConstructorArgsKeys | Modules/api/converter.py:216-222 | a successful `to_obj` has an argument exactly for the names some model field supplies with a non-None value, and the last such field's value wins |
| Converter.ConstructorArgsKeySet | Modules/api/converter.py:216-222 | a name has an argument exactly when some field supplies it |
| Converter.ConstructorArgsLastWins | Modules/api/converter.py:216-222 | the argument for a name is the value the last field supplying it read |
| Converter.ArgStepKeys | Modules/api/converter.py:218-222 | one iteration adds or overwrites only the name its field supplies and keeps the rest |
| Converter.ModelFields | Modules/api/converter.py:217 | only fields retained on the model, all named |
| Converter.ModelToJsonNoWireFields | Modules/api/converter.py:227-241 | without fields that apply to the wire the document is empty |
| Converter.ToObjOnlyModelFields | Modules/api/converter.py:217 | fields not retained on the model never affect `to_obj` |
| Converter.ModelToJsonErrSticky | Modules/api/converter.py:227-241 | once `to_json` fails, later fields do not matter |
| Converter.ToJson | Modules/api/converter.py:227-241 | the loop builds the wire document field by field through the converter's `set_nested` |
| Converter.ModelToJsonPrefix | Modules/api/converter.py:233-239 | each iteration extends the document of the earlier fields |
| Converter.ToJsonTopKeys | Modules/api/converter.py:227-241 | a successful document has at its top exactly the keys the contributing fields' paths produce |
| Converter.ToJsonLastFieldReadable | Modules/api/converter.py:235-239 | the last field's value reads back at its path when that path has at most two segments |
| Converter.WireFields | Modules/api/converter.py:233 | only fields retained on the wire |
| Converter.ToJsonOnlyWireFields | Modules/api/converter.py:233 | fields not on the wire never affect `to_json` |
| Converter.RemoveAll | Modules/api/converter.py:253 | `str.replace` with "" never lengthens the string |
| Converter.RemoveAllAbsent | Modules/api/converter.py:253 | a string without the pattern is unchanged |
| Converter.RemoveAllPrefix | Modules/api/converter.py:253 | a leading occurrence is dropped |
| Converter.SearchParamsErrSticky | Modules/api/converter.py:244-256 | once building search parameters fails, later criteria do not matter |
| Converter.ToSearchParameters | Modules/api/converter.py:244-256 | the loop builds the search-parameter document criterion by criterion, equal to `SearchParams`, whose kept criteria land at their stripped paths (`SearchParamsLastCriterionReadable`) |
| Converter.SearchParamsUnknownKeyFails | Modules/api/converter.py:250-251 | a criterion naming no field makes the call fail |
| Converter.SearchParamsUnknownKey | Modules/api/converter.py:200-210 | with nothing else failing, the error is ValueError of that key |
| Converter.SearchParamsDropsModelOnly | Modules/api/converter.py:252 | criteria for fields not on the wire are dropped silently |
| Converter.SearchParamsStripsAttributes | Modules/api/converter.py:253 | "attributes.client" is written at "client" |
| Converter.SearchParamsLastCriterionReadable | Modules/api/converter.py:250-254 | a successful call whose last criterion names a wire field holds that criterion's `from_search_criteria` value at the field's path with "attributes." removed: at the whole path for up to two segments, under its last two segments for a longer one |
| Search.UnaryGenerate | Modules/api/search.py:24-34 | `{op: value}`, the value sanitised when a sanitiser is given, or the sanitiser's error |
| Search.SanitizeAll | Modules/api/search.py:51-55 | each value sanitised in order, or the first failure; succeeds exactly when every value does |
| Search.SequenceGenerate | Modules/api/search.py:45-55 | `{op: [values]}` in argument order, each sanitised; fails exactly when some value's sanitiser fails |
| Search.Generate | Modules/api/search.py:24-59 | without a sanitiser it always succeeds; a success is a dict with the operator's marker as its only key |
| Search.OperatorMarkers | Modules/api/search.py:37-59 | Not, Contains and In write "$not", "$contains" and "$in" |
| Search.RegisteredTypes | Modules/api/search.py:70-80 | TypeError exactly for a nullable criterion without types; a single type becomes a tuple; nullable adds NoneType |
| Search.Search.constructor | Modules/api/search.py:67-68 | no criteria registered |
| Search.Search.Add | Modules/api/search.py:70-80 | stores the criterion's json key, types and sanitiser, replacing an earlier entry; TypeError and no change for a nullable criterion without types |
| Search.Search.GenerateQuery | Modules/api/search.py:82-97 | the loop computes the query document of the given criteria in order |
| Search.Checked | Modules/api/search.py:88-92 | no check without registered types; otherwise the value passes exactly when it is an instance of one, and fails with check_type's error |
| Search.QueryErrSticky | Modules/api/search.py:82-97 | once generation fails, later criteria do not matter |
| Search.QueryUnregisteredFails | Modules/api/search.py:85-87 | an unregistered criterion makes generate fail with KeyError |
| Search.QueryTypeMismatch | Modules/api/search.py:88-92 | a value matching none of its types is rejected with the mismatch message |
| Search.QueryWritesAtJsonKey | Modules/api/search.py:93-96 | the encoded value sits at the criterion's json key, and nothing off that path changes |
| Search.NullableAcceptsNone | Modules/api/search.py:75-88 | a nullable criterion with a type accepts None |
| ApiExceptions.NotConnected | Modules/api/exceptions.py:17-21 | the given message when truthy, else "Not connected to API" |
| ApiExceptions.MismatchedVersion | Modules/api/exceptions.py:24-28 | the message is "Tried to connect to <API version> API with <handler version> Handler." |
| ApiExceptions.MismatchedVersionNames | Modules/api/exceptions.py:27-28 | both versions can be read back from the message at fixed places |
| ApiExceptions.MismatchedVersionExample | Modules/api/exceptions.py:27-28 | for example, handler "v2.0" and API "v2.1" give "Tried to connect to v2.1 API with v2.0 Handler." |
| ApiExceptions.ReturnCode | Modules/api/exceptions.py:31-42 | keeps the kind, message and response it is given |
| ApiExceptions.ReturnCodeDefaultIgnored | Modules/api/exceptions.py:31-57 | constructed without a message every kind carries None, though three subclasses declare their own default message |
| ApiExceptions.Hierarchy | Modules/api/exceptions.py:13-57 | every class derives from Exception; exactly Unauthorized, Forbidden and InternalAPIError derive from the return-code base; nothing derives from APIError |
| Websocket.Uri | Modules/api/websocket.py:74-76 | exactly "wss://" or "ws://" by TLS, then the host, then "/?bearer=" and the token when the token is truthy |
| Websocket.CheckHandshake | Modules/api/websocket.py:80-90 | unparsable exactly when the message is not JSON; a mismatch names a version different from the handler's |
| Websocket.HandshakeProceedsIff | Modules/api/websocket.py:81-90 | the handshake proceeds exactly when the version field is readable and equals the handler's version; missing keys proceed |
| Websocket.ClassifyWithoutId | Modules/api/websocket.py:146-161 | an error code exactly when the message has "code"; otherwise an update exactly when its meta has "event"; else unrecognised |
| Websocket.ClassifyId | Modules/api/websocket.py:145-170 | stored exactly when the id is a UUID text of a waiting request; a non-string id escapes as an exception; a non-UUID string is logged as invalid |
| Websocket.Classify | Modules/api/websocket.py:144-170 | a decoded message is stored only under a waiting id, never ends the listener as a closed connection would, and a non-dict escapes as TypeError |
| Websocket.ClassifyStoredIff | Modules/api/websocket.py:144-170 | a message is stored under `u` exactly when its request id is a UUID text naming waiting request `u` |
| Websocket.ClassifyWithoutRequestId | Modules/api/websocket.py:146-161 | without a request id a message is an error code if it has "code", an update if it has an event, and otherwise ignored |
| Websocket.Step | Modules/api/websocket.py:165-170 | only a stored response changes the book |
| Websocket.Closing | Modules/api/websocket.py:134-136 | after the peer closes, the same connection is no longer open, so `connected` is false |
| Websocket.Run | Modules/api/websocket.py:127-170 | the listener handles at most one read per element of the stream |
| Websocket.RunBookkeeping | Modules/api/websocket.py:127-170 | over any stream the waiting set only shrinks, ids are answered only if they were waiting, stored responses stay, and no id is both waiting and answered |
| Websocket.FirstFresh | Modules/api/websocket.py:217-219 | the first draw that is neither waiting nor answered |
| Websocket.AttachId | Modules/api/websocket.py:221-224 | sets `meta.request_id`, creating `meta` when absent; TypeError exactly when `meta` is not a dict; all else kept |
| Websocket.CallParams | Modules/api/websocket.py:200-211 | the action pair, the caller's params, and the caller's meta merged into the params' meta; AttributeError when the params' meta is not a dict |
| Websocket.Retrieve | Modules/api/websocket.py:230-262 | a stored response is popped and returned; a still-waiting id times out and stops waiting; an unknown id is an APIError and nothing changes |
| Websocket.CorrelationRoundTrip | Modules/api/websocket.py:213-262 | a request registered, answered by a reply carrying its id, then retrieved, returns exactly that reply and leaves the book as before |
| Websocket.TimeoutThenLateReply | Modules/api/websocket.py:249-255 | after a timeout the id is dropped, and a late reply to it is ignored |
| Websocket.SecondRetrievalFails | Modules/api/websocket.py:245-246 | a response can be retrieved only once |
| Websocket.WebsocketRequestHandler.constructor | Modules/api/websocket.py:32-54 | disconnected, with the given settings and empty bookkeeping; `show` must render a string as itself |
| Websocket.WebsocketRequestHandler.Connect | Modules/api/websocket.py:62-92 | already connected gives NotConnectedError; otherwise it connects to `Uri`, and a bad handshake gives APIError or MismatchedVersionError, whose message for a string version `v` is "Tried to connect to " + v + " API with " + the handler version + " Handler." |
| Websocket.WebsocketRequestHandler.Disconnect | Modules/api/websocket.py:94-104 | NotConnectedError when not connected, else closes the connection |
| Websocket.WebsocketRequestHandler.Modify | Modules/api/websocket.py:106-120 | applies only truthy arguments, then reconnects when connected and some argument was given; after a reconnect the listener is running exactly when the handshake proceeded or it already was |
| Websocket.WebsocketRequestHandler.Redial | Modules/api/websocket.py:118-120 | from a connected handler, disconnects and connects to `Uri` of the current settings; succeeds exactly when the handshake proceeds, and the listener is then running when it proceeded or already was |
| Websocket.WebsocketRequestHandler.HandleMessage | Modules/api/websocket.py:133-170 | one read changes the book as `Step` says; a closed connection ends the listener and is no longer open |
| Websocket.WebsocketRequestHandler.Listen | Modules/api/websocket.py:127-170 | the loop changes the book as `Run` says; when it ends at a closed connection the handler is no longer connected |
| Websocket.WebsocketRequestHandler.SendRaw | Modules/api/websocket.py:172-180 | NotConnectedError without an open connection; otherwise the frame is sent, text as is, anything else JSON-encoded |
| Websocket.WebsocketRequestHandler.SendRequest | Modules/api/websocket.py:213-228 | the first fresh id is attached and sent, and it becomes waiting; errors leave the book alone |
| Websocket.WebsocketRequestHandler.Call | Modules/api/websocket.py:182-211 | builds `CallParams` and requests it; AttributeError from bad params, NotConnectedError when not connected, and in both cases nothing is sent or waiting; the connection settings and listener flag never change |
| Websocket.WebsocketRequestHandler.RetrieveResponse | Modules/api/websocket.py:230-262 | the book and result change as `Retrieve` says |
| ApiHandlerDraft.DraftStep | Modules/api_handler.py:124-152 | only a stored response changes the book, and stored responses are never removed |
| ApiHandlerDraft.DraftClassify | Modules/api_handler.py:137-149 | a message is stored only under a waiting id; a missing request id is logged exactly when the lookup raises KeyError |
| ApiHandlerDraft.DraftStops | Modules/api_handler.py:129-152 | a read that ends the draft listener stores nothing |
| ApiHandlerDraft.DraftIgnoredMessages | Modules/api_handler.py:137-149 | a message without an id, with a non-UUID id, or with an unexpected id changes nothing |
| ApiHandlerDraft.DraftRun | Modules/api_handler.py:124-152 | at most one read per element of the stream |
| ApiHandlerDraft.DraftRunBookkeeping | Modules/api_handler.py:124-152 | over any stream the waiting set only shrinks, ids are answered only if they were waiting, stored responses stay, and no id is both waiting and answered |
| ApiHandlerDraft.DraftTrace | Modules/api_handler.py:124-234 | no trace of reads, retrievals and registrations loses a stored id |
| ApiHandlerDraft.DraftRunIsTrace | Modules/api_handler.py:124-152 | the listener's run leaves the book the trace of the reads it handled leaves |
| ApiHandlerDraft.DraftRetrieve | Modules/api_handler.py:212-234 | a stored response is returned without removal; a waiting id times out as an APIError; an unknown id is an APIError |
| ApiHandlerDraft.DraftResponsesOnlyGrow | Modules/api_handler.py:124-234 | over any trace of reads and retrievals no stored response is removed or replaced |
| ApiHandlerDraft.DraftRetrieveRepeatable | Modules/api_handler.py:231-232 | a stored response can be retrieved any number of times |
| ApiHandlerDraft.DraftTimeoutThenLateReply | Modules/api_handler.py:224-229 | after a timeout the id is still waiting, so a late reply is stored |
| ApiHandlerDraft.DraftConnectError | Modules/api_handler.py:78-86 | no error exactly when the handshake proceeds |
| ApiHandlerDraft.BaseWebsocketAPIHandler.constructor | Modules/api_handler.py:38-60 | disconnected, with the given settings and empty bookkeeping |
| ApiHandlerDraft.BaseWebsocketAPIHandler.Connect | Modules/api_handler.py:64-90 | already connected gives APIError; otherwise it connects and checks the handshake |
| ApiHandlerDraft.BaseWebsocketAPIHandler.Disconnect | Modules/api_handler.py:92-105 | APIError when not connected; otherwise it closes, and cancels the listener if there is one |
| ApiHandlerDraft.BaseWebsocketAPIHandler.Reconnect | Modules/api_handler.py:107-122 | disconnects if connected, applies truthy arguments, and connects again; the listener runs exactly when the handshake passed, or was already running without a connection |
| ApiHandlerDraft.BaseWebsocketAPIHandler.HandleMessage | Modules/api_handler.py:130-152 | one read changes the book as `DraftStep` says; a closed connection escapes from `recv` and is no longer open |
| ApiHandlerDraft.BaseWebsocketAPIHandler.Listen | Modules/api_handler.py:124-152 | the loop changes the book as `DraftRun` says; when it ends at a closed connection the handler is no longer connected |
| ApiHandlerDraft.BaseWebsocketAPIHandler.SendRaw | Modules/api_handler.py:154-162 | APIError "Not connected to API" without a connection; otherwise sends the frame |
| ApiHandlerDraft.BaseWebsocketAPIHandler.SendRequest | Modules/api_handler.py:195-210 | the first fresh id is attached, sent and waiting |
| ApiHandlerDraft.BaseWebsocketAPIHandler.Call | Modules/api_handler.py:164-193 | builds the parameters and requests them; AttributeError from bad params, APIError "Not connected to API" when not connected, and in both cases nothing is sent or waiting; the connection settings and listener flag never change |
| ApiHandlerDraft.BaseWebsocketAPIHandler.RetrieveResponse | Modules/api_handler.py:212-234 | returns what `DraftRetrieve` says and changes nothing |
| ApiHandlerDraft.BaseWebsocketAPIHandler.UpdateRescue | Modules/api_handler.py:250-261 | a rescue without a truthy case id is refused with APIError; without a connection it fails with APIError "Not connected to API"; otherwise the update request is sent and waits; in the error cases nothing is sent or waiting, and the settings, listener and responses never change |
| ApiHandlerDraft.UpdateRescueShape | Modules/api_handler.py:260-261 | the update request carries the action pair, the id and the data |
| V20.Len | Modules/api/v20.py:108 | `len` fails exactly for values other than lists, dicts and strings |
| V20.Records | Modules/api/v20.py:75-95 | a list yields its items, and only a list yields any |
| V20.OrDefault | Modules/api/v20.py:85-93 | a KeyError becomes the default; other results pass through |
| V20.QuoteFromJson | Modules/api/v20.py:75-83 | a quotation holds the message, author and last author read from the element, and both timestamps parsed by `strptime`; a non-dict element is TypeError |
| V20.Quotes | Modules/api/v20.py:75-83 | one quotation per element in order, or the first element's error; succeeds exactly when every element decodes |
| V20.RatIds | Modules/api/v20.py:95 | one UUID per rat in order, or the first error |
| V20.IrcNickname | Modules/api/v20.py:61-67 | the IRC nickname, or the client name when it is missing |
| V20.RescueFromJson | Modules/api/v20.py:57-117 | a "rescues" document decodes into the rescue whose every part is read from its path; another type is the ValueError "JSON dict does not seem to represent a rescue" |
| V20.RescueFromJsonNotADict | Modules/api/v20.py:58-59 | a non-dict is TypeError, and a dict without "type" is KeyError("type") |
| V20.RescueFromJsonNoAttributes | Modules/api/v20.py:61-64 | a rescue document without attributes fails with KeyError("attributes") |
| V20.QuotesRoundTrip | Modules/api/v20.py:75-83 | quotation documents decode back to the quotations |
| V20.RatIdsRoundTrip | Modules/api/v20.py:95 | rat documents decode back to the rat ids |
| V20.RescueRoundTrip | Modules/api/v20.py:57-117 | the document of a rescue decodes back to that rescue |
| V20.DocumentDescribes | Modules/api/v20.py:57-117 | the document holds each part of the rescue at the path decoding reads |
| V20.DescribedDecodes | Modules/api/v20.py:57-117 | any document that holds the parts at those paths decodes to the rescue |
| V20.StatusFlags | Modules/api/v20.py:105-110 | the status written for a rescue reads back as its `active` and `is_open` flags, the outcome as `successful`, and the epics list as `epic` |
| V20.DecodesTo | Modules/api/v20.py:57-117 | a document whose every part is present and parses decodes to the rescue built from them |
| V20.DocumentLookups | Modules/api/v20.py:58-95 | the lookups decoding performs succeed on the document |
| V20.DocumentAttributes | Modules/api/v20.py:64-114 | each attribute reads back as written |
| V20.DocumentTimes | Modules/api/v20.py:69-100 | the client, system and both timestamps read back as written |
| V20.DocumentMarks | Modules/api/v20.py:82-114 | the quotes, unidentified rats, status, flags, title and first limpet read back as written |
| V20.UpdateRescue | Modules/api/v20.py:25-42 | a rescue without a case id is refused with ValueError; without a connection it fails with NotConnectedError; in both cases nothing is sent or waiting; otherwise the update request is sent and waits; the settings, listener and responses never change |
| V20.UpdateRequest | Modules/api/v20.py:37-42 | the frame carries exactly the action pair, the id, the rescue document and the request id |
| RatBoard.BoardBase | Modules/Rat_Board.py:24-51 | every board exception derives directly from RescueBoardException |
| RatBoard.IntText | Modules/Rat_Board.py:180 | `int` as text: nonempty, signed exactly when negative, one digit for small values |
| RatBoard.NatText | Modules/Rat_Board.py:180 | a natural as text: unsigned, one digit exactly below ten |
| RatBoard.AsMapKeys | Modules/Rat_Board.py:66 | the dict's keys are the entries' keys, each mapped to its entry |
| RatBoard.InAsMapIff | Modules/Rat_Board.py:174 | a key is in the dict exactly when an entry carries it |
| RatBoard.HeadNotInTail | Modules/Rat_Board.py:66 | the first key occurs nowhere after it |
| RatBoard.ConsDistinct | Modules/Rat_Board.py:66 | a front entry with a new key adds that key |
| RatBoard.AssignSpec | Modules/Rat_Board.py:177 | `d[k] = v` updates `k` only; an existing key keeps its place, a new one goes last |
| RatBoard.WithoutSpec | Modules/Rat_Board.py:210 | `pop` drops exactly `k`, keeping the other entries |
| RatBoard.Board.constructor | Modules/Rat_Board.py:58-67 | an empty board |
| RatBoard.Board.Contains | Modules/Rat_Board.py:69-105 | TypeError for a non-rescue; otherwise true exactly when some tracked rescue has the same case id, or the same client and creation time |
| RatBoard.Board.FindByIndex | Modules/Rat_Board.py:107-125 | the rescue at that index, or None |
| RatBoard.Board.FindByName | Modules/Rat_Board.py:127-138 | the first rescue of that client in insertion order, None exactly when there is none |
| RatBoard.Board.FindByUuid | Modules/Rat_Board.py:140-155 | the first rescue with that case id in insertion order, None exactly when there is none |
| RatBoard.Board.Append | Modules/Rat_Board.py:157-181 | a rescue without a non-zero index is ignored; a free index, or overwrite, stores it; an occupied index otherwise is IndexNotFreeError and nothing changes |
| RatBoard.Board.Modify | Modules/Rat_Board.py:183-195 | always reports no change |
| RatBoard.Board.Remove | Modules/Rat_Board.py:197-210 | drops the rescue's index, or KeyError when nothing is there |
| RatBoard.Board.ClearBoard | Modules/Rat_Board.py:212-217 | the board is empty |
| RatBoard.AppendThenRemove | Modules/Rat_Board.py:157-210 | appending at a free index and removing the same rescue restores the board |
| RatBoard.WithoutAbsent | Modules/Rat_Board.py:210 | popping an absent key changes nothing |
| RatBoard.WithoutAppend | Modules/Rat_Board.py:177-210 | popping a key just appended drops it |
| RatBoard.NoCaseIdsMatch | Modules/Rat_Board.py:98-99 | two rescues without case ids count as the same case |
| RatCommand.CaseFold | Modules/rat_command.py:125 | same length, each letter folded, no upper case left |
| RatCommand.CaseFoldIdempotent | Modules/rat_command.py:72 | folding twice is folding once |
| RatCommand.FoldAll | Modules/rat_command.py:125 | each alias folded, in order |
| RatCommand.RegisterAliases | Modules/rat_command.py:132-138 | existing aliases are kept, and new ones map to the function and come from the list |
| RatCommand.RegisterReportsIff | Modules/rat_command.py:132-138 | no collision is reported exactly when the aliases are distinct and none is registered |
| RatCommand.NoCollisionTail | Modules/rat_command.py:132-138 | storing the first alias of a collision-free list leaves the rest collision-free |
| RatCommand.RegisterSucceeds | Modules/rat_command.py:114-140 | without a collision every alias maps to the function and nothing else is added |
| RatCommand.RegisterCollides | Modules/rat_command.py:133-135 | the first clashing alias is reported, and the aliases before it stay registered |
| RatCommand.InEarlier | Modules/rat_command.py:133 | a repeated alias is the first or repeats one in the rest |
| RatCommand.Lookup | Modules/rat_command.py:58-96 | a command runs exactly when the line is nonempty and prefixed and its folded first word is registered, and it is that word's command |
| RatCommand.CommandRegistry.constructor | Modules/rat_command.py:52 | no commands |
| RatCommand.CommandRegistry.Register | Modules/rat_command.py:114-140 | a non-callable gives False; otherwise the registry and result follow `RegisterAliases` on the folded aliases, NameCollisionException on a clash |
| RatCommand.CommandRegistry.RegisterOne | Modules/rat_command.py:121-122 | a single name is registered as a one-element list |
| RatCommand.CommandRegistry.Command | Modules/rat_command.py:153-179 | registers the function and returns it, or raises InvalidCommandException |
| RatCommand.CommandRegistry.Flush | Modules/rat_command.py:143-150 | the registry is empty |
| RatCommand.CommandRegistry.Trigger | Modules/rat_command.py:58-96 | dispatch on the current registry |
| RatCommand.RegisteredAliasTriggers | Modules/rat_command.py:58-140 | after registration without collision, a prefixed message with any case of an alias runs the function |
| RatCommand.DuplicateAliasCollides | Modules/rat_command.py:125-135 | registering a name twice, in any case, collides on the second |
| RatCommand.PrettifiedPrefix | Modules/rat_command.py:240-258 | fewer characters give a prefix of the parameters |
| RatCommand.PrettifiedLetters | Modules/rat_command.py:240-258 | one parameter per letter, '?' skipped, each the letter's kind |
| RatCommand.PrettifyParams | Modules/rat_command.py:238-260 | the parameters of a string of recognised letters; a string with any unrecognised character fails, with ValueError naming the first one |
| RatCommand.PrettifiedExample | Modules/rat_command.py:241-258 | "cC?w" is a case, an optional created case, and a word |
| RatCommand.Parametrized | Modules/rat_command.py:182-235 | the wrapped command binds as `ZipBind` over `zip_longest(params, words[1:])` |
| RatCommand.Somes | Modules/rat_command.py:230-231 | each argument, bound |
| RatCommand.Nones | Modules/rat_command.py:217-220 | n missing optional arguments |
| RatCommand.ZipBind | Modules/rat_command.py:212-233 | a call binds exactly one argument per parameter, and only when there are no surplus arguments |
| RatCommand.ZipBindWords | Modules/rat_command.py:212-233 | with word parameters only, surplus arguments or a missing mandatory one give the usage reply; otherwise the arguments, then None for the rest |
| RatCommand.ZipBindOptional | Modules/rat_command.py:217-223 | past the last argument, a mandatory parameter gives usage, and optional ones give None |
| RatCommand.ParametrizedExamples | Modules/rat_command.py:212-233 | "ww?" on one argument binds it and None; two mandatory words on one or three give usage |
| Parametrization.InitialConsistent | Modules/parametrization.py:23-26 | a fresh cursor's end flag is right exactly when there is an argument |
| Parametrization.NextArgStep | Modules/parametrization.py:36-44 | succeeds exactly before the end and past no word, returning the word at the cursor and advancing it; a failure leaves the cursor alone |
| Parametrization.NextArgEolStep | Modules/parametrization.py:46-51 | succeeds exactly when the cursor is not exhausted and in range; the cursor is marked exhausted and does not move |
| Parametrization.NextArgConsistent | Modules/parametrization.py:36-44 | on a consistent cursor `next_arg` fails exactly at the end, else returns the next word and stays consistent |
| Parametrization.Oks | Modules/parametrization.py:36-44 | the words, each as a success |
| Parametrization.DrainRemaining | Modules/parametrization.py:36-44 | successive calls return the remaining words in order and end at the end |
| Parametrization.ArgumentsInOrder | Modules/parametrization.py:23-44 | a message's arguments come out in order, and one more call fails with "no arguments are left" |
| Parametrization.NoArgumentsIndexError | Modules/parametrization.py:23-44 | without arguments the cursor is not at its end, and `next_arg` raises IndexError |
| Parametrization.ArgumentProvider.constructor | Modules/parametrization.py:23-26 | the cursor starts after the command word, not at the end |
| Parametrization.ArgumentProvider.NextArg | Modules/parametrization.py:36-44 | the cursor steps as `NextArgStep` says |
| Parametrization.ArgumentProvider.NextArgEol | Modules/parametrization.py:46-51 | the cursor steps as `NextArgEolStep` says |
| Parametrization.ArgumentProvider.Next | Modules/parametrization.py:53-57 | StopIteration at the end, else `next_arg` |
| Parametrization.ParamStr | Modules/parametrization.py:78-80 | the usage name in square brackets exactly when optional, else in angle brackets |
| Parametrization.BindFrom | Modules/parametrization.py:226-249 | the loop returns early only with the usage reply or a raised error |
| Parametrization.BindFromArgs | Modules/parametrization.py:226-249 | a finished loop keeps the arguments already bound and adds at most one per remaining parameter, exactly one each when all are words |
| Parametrization.Bind | Modules/parametrization.py:220-264 | a call has at most one argument per parameter, exactly one each when all are words |
| Parametrization.Wrapper | Modules/parametrization.py:220-264 | the loop binds, replies with usage or raises as `Bind` says |
| Parametrization.BindAtEnd | Modules/parametrization.py:232-241 | at the end, a mandatory parameter gives usage and optional ones bind None |
| Parametrization.BindWordStep | Modules/parametrization.py:180-182 | a word parameter takes the next word |
| Parametrization.BindWordsSurplus | Modules/parametrization.py:251-254 | with more words than word parameters, binding finishes with every parameter bound and the cursor not at its end, which is the condition for the usage reply |
| Parametrization.BindWordsConsumed | Modules/parametrization.py:226-249 | otherwise the words bind in order, then None or usage for the rest |
| Parametrization.BindWords | Modules/parametrization.py:220-264 | with word parameters only: surplus words or a missing mandatory one give usage; otherwise the words, then None |
| Parametrization.TextEndsBinding | Modules/parametrization.py:193-195 | a text parameter takes the rest of the line and ends the binding |
| Parametrization.NoArguments | Modules/parametrization.py:23-26 | without arguments any parameter raises IndexError, and no parameters give usage |
| Parametrization.WordThenTextExample | Modules/parametrization.py:220-264 | (word, text) on four words binds the first word and the rest of the line |
| Parametrization.TextThenWordExample | Modules/parametrization.py:193-195 | (text, word) on "one two" calls the command with "one two" alone |

## Left out

- I/O and concurrency: sockets, `asyncio` tasks and event loops, and the
  polling loop of `_retrieve_response` are not modelled.
  - `RetrieveResponse` is the step at the end of waiting. An id still
    waiting then has timed out.
  - The listener is a method run over a stream of reads. It is not
    interleaved with requests, so the race between sending and registering
    a request is not modelled.
- The "already consumed by something else" errors
  (Modules/api/websocket.py:257-260, Modules/api_handler.py:231-234) need
  another task to act during the wait. They are unreachable in this
  sequential model.
- `_handle_update` in Modules/api/websocket.py is a stub that only logs. An
  update event is classified and otherwise ignored.
- Logging is not modelled.
- Callables in Field and Search (sanitisers, `isinstance`, type names) are
  function values.
- Coroutine sanitisers and the `NotIn` operator are not modelled. `NotIn`
  defines no `generate`.
- Converter.SetName: one Field object shared by two class attributes is not
  modelled. Fields are values, so naming one copy does not name the other.
- Websocket.WebsocketRequestHandler.Connect, ApiHandlerDraft.BaseWebsocketAPIHandler.Connect:
  the host shown in the "already connected" message is the connection's
  `host`, which the model records as the handler's hostname at connect
  time. The websockets library's own view of the remote host is not
  modelled.
- Websocket.WebsocketRequestHandler.Connect: the received version enters the
  MismatchedVersionError message through `show`, Python's `str()`. The
  handler requires `show` to give a string unchanged, so for a string
  version the whole message is fixed. The rendering of other JSON values
  (numbers, lists, dicts) is left to `show`.
- Websocket.WebsocketRequestHandler.SendRaw: bytes frames are not
  distinguished from text.
- Floating-point numbers in JSON documents are not modelled. Numbers are
  integers only.
- RatCommand.CaseFold: folds ASCII letters only. Python's full Unicode
  casefold is not modelled.
- RatCommand.Lookup: the rules fallback (`get_rule`, `Modules/rules.py`) is
  not part of this model. Its branch is reported as `ConsultRules`.
- `_flush` also clears the rules; that part is not modelled.
- Parametrization: the RescueParam and RatParam evaluations need the board
  and the rat cache. They are not part of this model.
- Parametrization.Wrapper: the extra positional `*args` after the context
  (`target_args = [context, *args]`, Modules/parametrization.py:222-224)
  are not modelled. Only the rules path passes any, and rules are not part
  of this model, so the command is called with the context and the bound
  arguments alone.
- `_generate_usage` would add a parameter object to a string, which raises
  TypeError; it is not modelled. Only `__str__` is.
- RatCommand.Parametrized: the Rescue and Rat parameters of the older
  decorator raise NotImplementedError (`RescueNotImplemented`,
  `RatNotImplemented`), as the code does. Their lookups on the board are not modelled.
- Websocket.CallParams, Websocket.AttachId, Websocket.WebsocketRequestHandler.Call,
  ApiHandlerDraft.BaseWebsocketAPIHandler.Call: `_call` and `_request`
  (Modules/api/websocket.py:205-224, Modules/api_handler.py:187-206) write
  into the caller's `params` and `meta` dicts in place. The model works on
  values, so that change to the caller's dicts is not captured.
- RatBoard: the `handler` field is stored and never used, so it is not
  modelled.
- RatBoard: Rescue objects are reduced to the fields the board reads.
- V20: the `Rescue` constructor's own validation is not part of this model.
  A decoded rescue is the record of its fields.
- V20: the `get_*` methods are stubs that do nothing, and are left out.
- V20 stands for the versioned handlers; Modules/api/v21.py,
  Modules/api/versions.py and Modules/api/tools.py (version selection) are
  not part of this model.
- Modules/trigger.py (the Context object) is reduced to its word lists and
  prefix flag.
- utils/abstract.py is not part of this model.
