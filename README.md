# MeshPortal server logic, modelled in Dafny

MeshPortal's server (`main.py`) is a FastAPI application that sits between a
MeshCore companion radio and browser clients. Most of it forwards HTTP
requests to the `meshcore` library and pushes device events to WebSocket
clients. This project models the deterministic part of it:

- `JsonValue` — payload values (dicts, lists, byte strings, scalars, other
  objects), Python truthiness, `dict.get`, `bytes.hex()` and
  `sanitize_for_json`, with its shape preservation, "no bytes remain" and
  idempotence proved.
- `Api` — the decisions the handlers make around their library calls: the
  transport selection and required-field checks of `connect`, the routing of
  `send_message` between channel, retry and plain sends, the `expected_ack`
  reply built from the send result, the remote-command whitelist, and the
  projection of a telemetry response. Library results are parameters; an
  `HTTPException` is `Failure(HttpError(status, detail))`.
- `Server` — the global `state` as a class `AppState` with the fields
  `mc`, `websockets` and `subscriptions`, updated in place: the two loops of
  `broadcast_event` that drop clients whose send failed, a client joining and
  leaving the WebSocket endpoint, event subscription set-up and clean-up, and
  the state effects of `connect` and `disconnect`.
- `Wrappers` — `Option` and `Result`.

The acknowledgement prefix matching, roster sorting and filtering, identity
keying by key prefix and reconnection described for this repository belong
to the browser client, whose code is not part of this model.

Where the handlers' code and their evident intent disagree (the refusals
of `connect` and the "Contact not found" of the telemetry handler, which the
code turns into 500 errors), the model keeps both: the code as written and
the intended behaviour, which the rest of the model uses. See "## Findings".

## Model

| member | source | states |
|---|---|---|
| `JsonValue.Truthy` | main.py:424 | Python truthiness: false exactly for the empty dict, list and byte string, 0, 0.0, "", False and None (the tests `if not contact` and `if result.payload`) |
| `JsonValue.Get` | main.py:451 | `d.get(key, default)`: the default when the key is absent, otherwise a value stored under the key |
| `JsonValue.GetFirst` | main.py:451 | the value `Get` returns is the one of the first entry with the key |
| `JsonValue.Hex` | main.py:30-31 | `bytes.hex()` gives two lower-case hex digits per byte |
| `JsonValue.UnhexHex` | main.py:30-31 | the hex text reads back to the original bytes |
| `JsonValue.HexInjective` | main.py:30-31 | distinct byte strings get distinct hex texts |
| `JsonValue.Sanitize` | main.py:24-35 | a dict stays a dict with the same keys in order, a list a list of the same length, the result is never a byte string or a foreign object, and a foreign object becomes its `str` text |
| `JsonValue.SanitizeKeepsShape` | main.py:24-35 | at every depth, dicts keep their keys in order with each value sanitised, lists their length and order with each element sanitised, byte strings become their hex text, other objects their `str` text, and int/float/str/bool/None stay as they are |
| `JsonValue.SanitizeBytes` | main.py:30-31 | a byte string becomes a string twice as long from which the bytes can be read back |
| `JsonValue.SanitizeIsPlain` | main.py:24-35 | the result holds no byte string and no foreign object anywhere |
| `JsonValue.SanitizeFixesExactlyPlain` | main.py:32-35 | a value is left unchanged exactly when it already holds only dicts, lists and int/float/str/bool/None |
| `JsonValue.SanitizeIdempotent` | main.py:24-35 | sanitising a sanitised value changes nothing |
| `Api.PyStr` | main.py:449 | `str()` of a string is the string itself and of a foreign object its carried text |
| `Api.FindContact` | main.py:423-425 | a contact is found exactly when the key is present and its record is truthy |
| `Api.SelectConnection` | main.py:193-213 | a connection is built exactly when no device is connected and the transport is serial/tcp/ble with its port/host/device name given; it carries the request's fields; every refusal is a 400, "Already connected" first |
| `Api.ConnectRefusals` | main.py:197-213 | the detail of each refusal: missing port, missing host, missing device name, unknown type |
| `Api.DecimalSpellsValue` | main.py:247 | the status written into `str(e)` reads back as the status number |
| `Api.Rewrapped` | main.py:244-247 | an HTTP error caught by `except Exception` becomes a 500 |
| `Api.ConnectReplyAsWritten` | main.py:196-247 | as written, the reply succeeds exactly when the intended one does |
| `Api.ConnectAsWrittenHidesRefusals` | main.py:196-247 | as written, every transport refusal reaches the client as a 500, e.g. "400: Port required for serial connection" |
| `Api.RouteSend` | main.py:406-441 | without a device session it gives 400 "Not connected"; a channel index always takes the channel send; otherwise an unknown or empty contact gives 404, `retries > 0` the retry send with `max_attempts = retries`, `retries <= 0` the plain send to the contact; without a channel index the channel send is never chosen; all with the request's text and the server's time |
| `Api.RouteSendIgnoresSigned` | main.py:413-441 | the request's `signed` flag does not change what is sent |
| `Api.SendReply` | main.py:443-459 | no result and an ERROR result are 500 failures; otherwise a byte token becomes its hex text, another truthy token its `str`, and a missing or falsy token or payload "" |
| `Api.SendReplyByteToken` | main.py:450-453 | whatever else the payload holds, a byte `expected_ack` is returned as hex text twice its length that reads back to the token |
| `Api.SendReplyErrorCode` | main.py:447-449 | an ERROR result with an `error_code` reports the payload's own code in the 500 detail |
| `Api.SendReplyUnknownError` | main.py:447-449 | an ERROR result without `error_code` is reported as "Unknown error" |
| `Api.RemoteCommand` | main.py:556-571 | only "reboot" and "advert" are sent, to the looked-up contact; an unknown target gives 404 whatever the command, any other command 400 |
| `Api.Telemetry` | main.py:596-617 | without a device session it gives 400, an unknown contact 404; a reply always starts with `battery` and has either the five readings or that one entry |
| `Api.Readings` | main.py:609-615 | the telemetry reply has the keys battery, temperature, humidity, pressure, voltage in that order, and a battery, temp, humidity, pressure or voltage reading present in the response is the value returned for it |
| `Api.TelemetryReadings` | main.py:607-615 | a telemetry response gives `battery`, `temperature`, `humidity`, `pressure`, `voltage` in that order |
| `Api.ReadingsDefaults` | main.py:610-614 | battery defaults to -1, other readings to None, temperature is `temp` when present, else `temperature` |
| `Api.TelemetryFallback` | main.py:617 | a response of any other type gives exactly `{battery: -1}` |
| `Api.TelemetryAsWritten` | main.py:599-620 | as written, the reply succeeds exactly when the intended one does |
| `Api.TelemetryAsWrittenHidesNotFound` | main.py:599-620 | as written, an unknown contact gets a 500 with detail "404: Contact not found" where a 404 is intended |
| `Server.Without` | main.py:123-126 | the survivors are exactly the listed clients that are not dropped |
| `Server.Failing` | main.py:116-121 | the collected clients are exactly the listed ones whose send failed |
| `Server.IndexOf` | main.py:126 | the position of the first occurrence of the client |
| `Server.RemoveFirst` | main.py:126 | `list.remove` takes out the first occurrence of the client and keeps the others in order |
| `Server.WithoutIsSubsequence` | main.py:123-126 | survivors keep their relative order |
| `Server.WithoutDistinct` | main.py:123-126 | pruning keeps the client list free of duplicates (it starts without any, since each client appended at main.py:629 is a new object) |
| `Server.AppState.constructor` | main.py:39-44 | the initial state has no session, no clients and no subscriptions |
| `Server.AppState.Connected` | main.py:193 | a device counts as connected only when a session exists (`state.mc and state.mc.is_connected`) |
| `Server.AppState.CollectFailed` | main.py:116-121 | the first loop collects, in order, the clients whose send failed |
| `Server.AppState.RemoveClients` | main.py:123-126 | the second loop removes the listed clients that are still present and leaves the others in order |
| `Server.AppState.BroadcastEvent` | main.py:109-126 | after a broadcast the client list is the old one without the clients whose send failed, in the same order |
| `Server.AppState.Accept` | main.py:628-629 | an accepted client is appended |
| `Server.AppState.Release` | main.py:666-668 | a client that leaves is removed if still listed, the others untouched |
| `Server.AppState.SetupEventHandlers` | main.py:129-153 | with a session, the five event subscriptions are appended; without one nothing changes |
| `Server.AppState.CleanupSubscriptions` | main.py:156-164 | afterwards no subscription is kept |
| `Server.AppState.Connect` | main.py:190-247 | a refused request returns the refusal of `SelectConnection` and changes no state; a device failure clears the session (keeping subscriptions made before it); success stores a connected session built from the request, subscribes to the five events and prunes the clients whose broadcast failed |
| `Server.AppState.Disconnect` | main.py:250-269 | without a session, "Not connected" and no change; otherwise subscriptions are dropped, and the session is cleared and clients told only when the device disconnects |

## Findings

| source | as written | input that shows it | evidently intended | confidence | as-written member | corrected member |
|---|---|---|---|---|---|---|
| main.py:196-247 | the transport refusals are raised inside `try`, caught by `except Exception` and re-raised as 500 with detail `str(e)`; `state.mc` is also cleared | `{"type": "serial"}` with no port, no device connected: 500 "400: Port required for serial connection" | a 400 with the refusal's detail and no state change | high for the status, medium for the exact detail text (relies on the framework's `HTTPException.__str__`); not executed | `Api.ConnectAsWrittenHidesRefusals` | `Api.SelectConnection` |
| main.py:599-620 | "Contact not found" is raised inside `try`, which has no `except HTTPException: raise`, and comes out as a 500 | telemetry for a key not in the contacts table: 500 "404: Contact not found" | a 404 "Contact not found" | high for the status, medium for the exact detail text; not executed | `Api.TelemetryAsWrittenHidesNotFound` | `Api.Telemetry` |

## Left out

- FastAPI routing, request parsing and the lifespan handler; request-model defaults (baudrate 115200, tcp_port 5000) are taken as already applied to the request values.
- Every `meshcore` call (building and connecting the session, `set_time`/`get_time`, `ensure_contacts`, auto message fetching, `subscribe`/`unsubscribe`, the `commands.*` sends): each appears only through its outcome, passed as a parameter (send result, telemetry response, handshake failure, disconnect error, the set of clients whose send fails).
- `json.dumps`/`json.loads` and the text of pushed messages; logging; `time.time()`, which is the `now` parameter.
- The WebSocket receive loop, ping/pong and the status greeting sent on accept.
- Concurrency: each handler runs to completion in the model; another task changing `state.websockets` during the awaits of `broadcast_event` is not modelled.
- The handlers `get_status`, `get_contacts`, `get_channels`, `set_channel`, `get_device_info`, `get_stats`, `update_device_settings`, `set_device_time`, `list_serial_ports`, `reset_contact_path` and `index`, which only forward values to or from the device.
- Api.PyStr: `str()` of ints, floats, bytes, dicts and lists is the caller-supplied `render`; only strings, booleans, None and foreign objects are rendered exactly.
- JsonValue.Sanitize: dict keys are strings in the model; Python leaves keys unsanitised whatever their type.
- JsonValue.Truthy: floats are reals (no NaN or infinities), and foreign objects are always truthy (a custom `__bool__` is not modelled).
- Server.AppState.Connect: follows the intended refusals (see Findings); the as-written clearing of `state.mc` on a refusal is described there but not modelled as a state change, and a failure raised by the final broadcast itself is not modelled.
