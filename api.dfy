/** The decisions the HTTP handlers of the server make before and after they
    call into the radio library: which connection to build, which send
    command to issue, how the send result becomes the `expected_ack` reply,
    which remote commands are allowed and how a telemetry response is
    projected. Every library call is replaced by its outcome as a parameter;
    an `HTTPException` is a `Failure(HttpError(...))`. */
module Api {
  import opened Wrappers
  import opened JsonValue

  /** An HTTP error reply: status code and detail text. */
  datatype HttpError = HttpError(status: int, detail: string)

  /** A contacts table as the library keeps it: public key to contact record. */
  type Contacts = map<string, Value>

  /** Python `str(v)`. Strings are themselves, the constants have their
      fixed names and a foreign object its carried text; for the other
      values the rendering is the given `render`. */
  function PyStr(v: Value, render: Value -> string): (s: string)
    ensures v.Prim? && v.scalar.Str? ==> s == v.scalar.s
    ensures v.Other? ==> s == v.repr
  {
    match v
    case Prim(Str(s)) => s
    case Prim(Bool(b)) => if b then "True" else "False"
    case Prim(Null) => "None"
    case Other(repr) => repr
    case _ => render(v)
  }

  /** `contacts.get(key)` followed by `if not contact`: a contact is found
      only when the key is present and its record is truthy. */
  function FindContact(contacts: Contacts, key: string): (r: Option<Value>)
    ensures r.Some? <==> key in contacts && Truthy(contacts[key])
    ensures r.Some? ==> r.value == contacts[key]
  {
    if key in contacts && Truthy(contacts[key]) then Some(contacts[key]) else None
  }

  /** The handlers below first test `if not state.mc`: their `hasSession`
      parameter says a device session exists, whether or not the library
      still reports it connected. */
  const NotConnected: HttpError := HttpError(400, "Not connected")
  const ContactNotFound: HttpError := HttpError(404, "Contact not found")

  /** The decimal text of a natural number, most significant digit first. */
  function Decimal(n: nat): (s: string)
    ensures |s| > 0 && forall i :: 0 <= i < |s| ==> '0' <= s[i] <= '9'
  {
    if n < 10 then [('0' as int + n) as char]
    else Decimal(n / 10) + [('0' as int + n % 10) as char]
  }

  /** The number a string of decimal digits spells. */
  function DigitsValue(s: string): nat
    requires forall i :: 0 <= i < |s| ==> '0' <= s[i] <= '9'
  {
    if s == [] then 0
    else DigitsValue(s[..|s| - 1]) * 10 + ((s[|s| - 1] as int) - ('0' as int))
  }

  /** `Decimal` spells the number it is given. */
  lemma {:induction false} DecimalSpellsValue(n: nat)
    ensures DigitsValue(Decimal(n)) == n
  {
    if n >= 10 {
      var s := Decimal(n);
      assert s[..|s| - 1] == Decimal(n / 10);
      DecimalSpellsValue(n / 10);
    }
  }

  /** What a handler's `except Exception as e` makes of an HTTP error raised
      inside its `try` block: a 500 whose detail is `str(e)`, that is
      "<status>: <detail>". */
  function Rewrapped(e: HttpError): (r: HttpError)
    requires e.status >= 0
    ensures r.status == 500
  {
    HttpError(500, Decimal(e.status) + ": " + e.detail)
  }

  // ---------------------------------------------------------------------
  // POST /api/connect

  /** The body of a connect request. The request model fills in baudrate
      115200 and tcp_port 5000 when the fields are absent. */
  datatype ConnectionRequest = ConnectionRequest(
    kind: string,
    port: Option<string>,
    baudrate: Option<int>,
    host: Option<string>,
    tcpPort: Option<int>,
    password: Option<string>,
    deviceName: Option<string>,
    pin: Option<string>)

  /** The transport object the handler builds. */
  datatype Connection =
    | Serial(port: string, baudrate: Option<int>)
    | Tcp(host: string, tcpPort: Option<int>, password: Option<string>)
    | Ble(deviceName: string, pin: Option<string>)

  /** An optional text field is given when it is neither None nor empty. */
  predicate Given(field: Option<string>) {
    field.Some? && field.value != ""
  }

  /** The request names a known transport and gives the field that
      transport cannot do without. */
  predicate Complete(req: ConnectionRequest) {
    || (req.kind == "serial" && Given(req.port))
    || (req.kind == "tcp" && Given(req.host))
    || (req.kind == "ble" && Given(req.deviceName))
  }

  /** `c` is the connection `req` asks for, built from the request's own fields. */
  predicate Describes(req: ConnectionRequest, c: Connection) {
    match c
    case Serial(port, baud) => req.kind == "serial" && req.port == Some(port) && baud == req.baudrate
    case Tcp(host, tcpPort, password) =>
      req.kind == "tcp" && req.host == Some(host) && tcpPort == req.tcpPort && password == req.password
    case Ble(name, pin) => req.kind == "ble" && req.deviceName == Some(name) && pin == req.pin
  }

  /** The checks at the start of `connect`: refuse when a device is already
      connected, when the transport's required field is missing, or when
      the transport is unknown; otherwise the connection to build. */
  function SelectConnection(alreadyConnected: bool, req: ConnectionRequest): (r: Result<Connection, HttpError>)
    ensures r.Success? <==> !alreadyConnected && Complete(req)
    ensures r.Success? ==> Describes(req, r.value)
    ensures r.Failure? ==> r.error.status == 400
    ensures alreadyConnected ==> r.error.detail == "Already connected"
  {
    if alreadyConnected then
      Failure(HttpError(400, "Already connected"))
    else if req.kind == "serial" then
      if !Given(req.port) then Failure(HttpError(400, "Port required for serial connection"))
      else Success(Serial(req.port.value, req.baudrate))
    else if req.kind == "tcp" then
      if !Given(req.host) then Failure(HttpError(400, "Host required for TCP connection"))
      else Success(Tcp(req.host.value, req.tcpPort, req.password))
    else if req.kind == "ble" then
      if !Given(req.deviceName) then Failure(HttpError(400, "Device name required for BLE connection"))
      else Success(Ble(req.deviceName.value, req.pin))
    else
      Failure(HttpError(400, "Unknown connection type: " + req.kind))
  }

  /** Each refusal names its reason; the reasons are checked in the order
      already-connected, missing field, unknown transport. */
  lemma ConnectRefusals(alreadyConnected: bool, req: ConnectionRequest)
    ensures !alreadyConnected && req.kind == "serial" && !Given(req.port) ==>
      SelectConnection(alreadyConnected, req) == Failure(HttpError(400, "Port required for serial connection"))
    ensures !alreadyConnected && req.kind == "tcp" && !Given(req.host) ==>
      SelectConnection(alreadyConnected, req) == Failure(HttpError(400, "Host required for TCP connection"))
    ensures !alreadyConnected && req.kind == "ble" && !Given(req.deviceName) ==>
      SelectConnection(alreadyConnected, req) == Failure(HttpError(400, "Device name required for BLE connection"))
    ensures !alreadyConnected && req.kind !in {"serial", "tcp", "ble"} ==>
      SelectConnection(alreadyConnected, req) == Failure(HttpError(400, "Unknown connection type: " + req.kind))
  {
  }

  /** The reply of `connect` as the handler is written: every refusal after
      the already-connected check is raised inside the handler's `try`
      block and comes out of its `except Exception` as a 500. */
  function ConnectReplyAsWritten(alreadyConnected: bool, req: ConnectionRequest): (r: Result<Connection, HttpError>)
    ensures r.Success? <==> SelectConnection(alreadyConnected, req).Success?
  {
    var selected := SelectConnection(alreadyConnected, req);
    if selected.Failure? && !alreadyConnected then Failure(Rewrapped(selected.error)) else selected
  }

  /** As written, no request that reaches the transport checks is refused
      with 400: a serial request without a port gets a 500 whose detail is
      "400: Port required for serial connection". */
  lemma ConnectAsWrittenHidesRefusals(req: ConnectionRequest)
    requires SelectConnection(false, req).Failure?
    ensures ConnectReplyAsWritten(false, req).error.status == 500
    ensures req.kind == "serial" && req.port == None ==>
      ConnectReplyAsWritten(false, req) == Failure(HttpError(500, "400: Port required for serial connection"))
  {
    assert Decimal(4) == "4" && Decimal(40) == "40" && Decimal(400) == "400";
    assert "400" + ": " + "Port required for serial connection" == "400: Port required for serial connection";
  }

  // ---------------------------------------------------------------------
  // POST /api/send

  /** The body of a send request. */
  datatype SendRequest = SendRequest(
    recipient: string,
    text: string,
    channelIdx: Option<int>,
    signed: bool,
    retries: int)

  /** The library call the handler makes. Every send is made with
      `signed=True` and stamped with the server's clock. */
  datatype SendCommand =
    | ChannelSend(channelIdx: int, text: string, timestamp: int)
    | RetrySend(contact: Value, text: string, timestamp: int, maxAttempts: int)
    | PlainSend(contact: Value, text: string, timestamp: int)

  /** Which send the handler issues, or the error it raises first. */
  function RouteSend(hasSession: bool, contacts: Contacts, req: SendRequest, now: int): (r: Result<SendCommand, HttpError>)
    ensures !hasSession ==> r == Failure(NotConnected)
    ensures hasSession && req.channelIdx.Some? ==>
      r == Success(ChannelSend(req.channelIdx.value, req.text, now))
    ensures hasSession && req.channelIdx.None? ==>
      (r.Failure? <==> FindContact(contacts, req.recipient).None?)
    ensures r.Failure? ==> r.error in {NotConnected, ContactNotFound}
    ensures r.Success? && r.value.ChannelSend? ==> req.channelIdx.Some?
    ensures hasSession && req.channelIdx.None? && FindContact(contacts, req.recipient).None? ==>
      r == Failure(ContactNotFound)
    ensures hasSession && req.channelIdx.None? && FindContact(contacts, req.recipient).Some? && req.retries <= 0 ==>
      r == Success(PlainSend(contacts[req.recipient], req.text, now))
    ensures r.Success? && !r.value.ChannelSend? ==>
      req.channelIdx.None? && req.recipient in contacts && r.value.contact == contacts[req.recipient]
      && r.value.text == req.text && r.value.timestamp == now
    ensures r.Success? && r.value.RetrySend? <==> r.Success? && req.channelIdx.None? && req.retries > 0
    ensures r.Success? && r.value.RetrySend? ==> r.value.maxAttempts == req.retries
  {
    if !hasSession then Failure(NotConnected)
    else if req.channelIdx.Some? then Success(ChannelSend(req.channelIdx.value, req.text, now))
    else
      match FindContact(contacts, req.recipient)
      case None => Failure(ContactNotFound)
      case Some(contact) =>
        if req.retries > 0 then Success(RetrySend(contact, req.text, now, req.retries))
        else Success(PlainSend(contact, req.text, now))
  }

  /** The request's `signed` flag has no effect on what is sent. */
  lemma RouteSendIgnoresSigned(hasSession: bool, contacts: Contacts, req: SendRequest, now: int)
    ensures RouteSend(hasSession, contacts, req, now) == RouteSend(hasSession, contacts, req.(signed := !req.signed), now)
  {
  }

  /** What the radio library hands back: an event type and its payload
      (a dict, or None). */
  datatype EventType = Error | MsgSent | TelemetryResponse | OtherType(name: string)
  datatype Event = Event(kind: EventType, payload: Option<seq<(string, Value)>>)

  /** `if result.payload`: the payload is present and not empty. */
  predicate HasPayload(e: Event) {
    e.payload.Some? && |e.payload.value| > 0
  }

  /** The `expected_ack` field of the send reply, or the error the handler
      raises: no result at all (a timeout) and an ERROR result are failures;
      a byte token becomes its hex text, any other truthy token its `str`,
      and a missing or falsy token the empty string. */
  function SendReply(result: Option<Event>, render: Value -> string): (r: Result<string, HttpError>)
    ensures r.Failure? <==> result.None? || result.value.kind == Error
    ensures r.Failure? ==> r.error.status == 500
    ensures result.None? ==> r.error.detail == "Message send timed out - no ACK received"
    ensures r.Success? && !HasPayload(result.value) ==> r.value == ""
    ensures r.Success? && HasPayload(result.value) ==>
      var ack := Get(result.value.payload.value, "expected_ack", Prim(Str("")));
      && (ack.Bytes? ==> r.value == Hex(ack.data))
      && (!ack.Bytes? && !Truthy(ack) ==> r.value == "")
      && (!ack.Bytes? && Truthy(ack) ==> r.value == PyStr(ack, render))
  {
    if result.None? then
      Failure(HttpError(500, "Message send timed out - no ACK received"))
    else if result.value.kind == Error then
      var code := if HasPayload(result.value)
                  then Get(result.value.payload.value, "error_code", Prim(Str("Unknown error")))
                  else Prim(Str("Unknown error"));
      Failure(HttpError(500, "Failed to send message: error_code " + PyStr(code, render)))
    else if HasPayload(result.value) then
      var ack := Get(result.value.payload.value, "expected_ack", Prim(Str("")));
      if ack.Bytes? then Success(Hex(ack.data))
      else if Truthy(ack) then Success(PyStr(ack, render))
      else Success("")
    else
      Success("")
  }

  /** A byte token reaches the client as hex text from which the token can
      be read back, so distinct tokens stay distinct. */
  lemma SendReplyByteToken(kind: EventType, entries: seq<(string, Value)>, token: seq<byte>, render: Value -> string)
    requires kind != Error
    requires Get(entries, "expected_ack", Prim(Str(""))) == Bytes(token)
    ensures SendReply(Some(Event(kind, Some(entries))), render).Success?
    ensures var text := SendReply(Some(Event(kind, Some(entries))), render).value;
      |text| == 2 * |token| && Unhex(text) == token
  {
    UnhexHex(token);
  }

  /** An ERROR result with an `error_code` reports that code. */
  lemma SendReplyErrorCode(entries: seq<(string, Value)>, render: Value -> string)
    requires "error_code" in Keys(entries)
    ensures SendReply(Some(Event(Error, Some(entries))), render)
      == Failure(HttpError(500, "Failed to send message: error_code "
                                + PyStr(Get(entries, "error_code", Prim(Null)), render)))
    ensures ("error_code", Get(entries, "error_code", Prim(Null))) in entries
  {
    GetIgnoresDefault(entries, "error_code", Prim(Str("Unknown error")), Prim(Null));
  }

  /** An ERROR result without an `error_code` reports "Unknown error". */
  lemma SendReplyUnknownError(payload: Option<seq<(string, Value)>>, render: Value -> string)
    requires payload.Some? ==> "error_code" !in Keys(payload.value)
    ensures SendReply(Some(Event(Error, payload)), render)
      == Failure(HttpError(500, "Failed to send message: error_code Unknown error"))
  {
    assert "Failed to send message: error_code " + "Unknown error"
      == "Failed to send message: error_code Unknown error";
  }

  // ---------------------------------------------------------------------
  // POST /api/remote/command

  /** The `send_cmd` call made for a remote command. */
  datatype RemoteCall = RemoteCall(contact: Value, command: string)

  /** Only the commands "reboot" and "advert" are passed on; the target is
      looked up first, so an unknown target is reported before the command
      is looked at. */
  function RemoteCommand(hasSession: bool, contacts: Contacts, target: string, command: string): (r: Result<RemoteCall, HttpError>)
    ensures r.Success? <==> hasSession && FindContact(contacts, target).Some? && command in {"reboot", "advert"}
    ensures r.Success? ==> r.value == RemoteCall(contacts[target], command)
    ensures !hasSession ==> r == Failure(NotConnected)
    ensures hasSession && FindContact(contacts, target).None? ==> r == Failure(ContactNotFound)
    ensures hasSession && FindContact(contacts, target).Some? && command !in {"reboot", "advert"} ==>
      r == Failure(HttpError(400, "Unknown command: " + command))
  {
    if !hasSession then Failure(NotConnected)
    else
      match FindContact(contacts, target)
      case None => Failure(ContactNotFound)
      case Some(contact) =>
        if command == "reboot" then Success(RemoteCall(contact, "reboot"))
        else if command == "advert" then Success(RemoteCall(contact, "advert"))
        else Failure(HttpError(400, "Unknown command: " + command))
  }

  // ---------------------------------------------------------------------
  // GET /api/contacts/{public_key}/telemetry

  const TelemetryKeys: seq<string> := ["battery", "temperature", "humidity", "pressure", "voltage"]

  /** The reply built from a telemetry payload. */
  function Readings(p: seq<(string, Value)>): (r: seq<(string, Value)>)
    ensures Keys(r) == TelemetryKeys
    ensures "battery" in Keys(p) ==> ("battery", r[0].1) in p
    ensures "temp" in Keys(p) ==> ("temp", r[1].1) in p
    ensures "humidity" in Keys(p) ==> ("humidity", r[2].1) in p
    ensures "pressure" in Keys(p) ==> ("pressure", r[3].1) in p
    ensures "voltage" in Keys(p) ==> ("voltage", r[4].1) in p
  {
    [("battery", Get(p, "battery", Prim(Int(-1)))),
     ("temperature", Get(p, "temp", Get(p, "temperature", Prim(Null)))),
     ("humidity", Get(p, "humidity", Prim(Null))),
     ("pressure", Get(p, "pressure", Prim(Null))),
     ("voltage", Get(p, "voltage", Prim(Null)))]
  }

  /** The telemetry reply, or the error raised. The response of the
      library's telemetry request is a parameter; None stands for no
      response at all, on which reading its type fails. */
  function Telemetry(hasSession: bool, contacts: Contacts, key: string, response: Option<Event>): (r: Result<seq<(string, Value)>, HttpError>)
    ensures !hasSession ==> r == Failure(NotConnected)
    ensures hasSession && FindContact(contacts, key).None? ==> r == Failure(ContactNotFound)
    ensures r.Failure? && r.error.status != 500 ==> !hasSession || FindContact(contacts, key).None?
    ensures r.Success? ==> |r.value| > 0 && r.value[0].0 == "battery" && (Keys(r.value) == TelemetryKeys || |r.value| == 1)
  {
    if !hasSession then Failure(NotConnected)
    else if FindContact(contacts, key).None? then Failure(ContactNotFound)
    else if response.None? then Failure(HttpError(500, "'NoneType' object has no attribute 'type'"))
    else if response.value.kind == TelemetryResponse then
      match response.value.payload
      case None => Failure(HttpError(500, "'NoneType' object has no attribute 'get'"))
      case Some(p) => Success(Readings(p))
    else
      Success([("battery", Prim(Int(-1)))])
  }

  /** A telemetry response gives the five readings in a fixed order. */
  lemma TelemetryReadings(contacts: Contacts, key: string, p: seq<(string, Value)>)
    requires FindContact(contacts, key).Some?
    ensures Telemetry(true, contacts, key, Some(Event(TelemetryResponse, Some(p)))) == Success(Readings(p))
    ensures Keys(Readings(p)) == TelemetryKeys
  {
  }

  /** A missing battery reads -1, a missing reading None, and the
      temperature comes from `temp` when the response has it, else from
      `temperature`. */
  lemma ReadingsDefaults(p: seq<(string, Value)>)
    ensures "battery" !in Keys(p) ==> Readings(p)[0].1 == Prim(Int(-1))
    ensures "temp" in Keys(p) ==> Readings(p)[1].1 == Get(p, "temp", Prim(Null))
    ensures "temp" !in Keys(p) ==> Readings(p)[1].1 == Get(p, "temperature", Prim(Null))
    ensures "temp" !in Keys(p) && "temperature" !in Keys(p) ==> Readings(p)[1].1 == Prim(Null)
    ensures "humidity" !in Keys(p) ==> Readings(p)[2].1 == Prim(Null)
    ensures "pressure" !in Keys(p) ==> Readings(p)[3].1 == Prim(Null)
    ensures "voltage" !in Keys(p) ==> Readings(p)[4].1 == Prim(Null)
  {
    if "temp" in Keys(p) {
      GetIgnoresDefault(p, "temp", Get(p, "temperature", Prim(Null)), Prim(Null));
    }
  }

  /** When the key is present, `Get` does not depend on the default. */
  lemma {:induction false} GetIgnoresDefault(es: seq<(string, Value)>, key: string, d1: Value, d2: Value)
    requires key in Keys(es)
    ensures Get(es, key, d1) == Get(es, key, d2)
  {
    if es[0].0 != key {
      assert Keys(es) == [es[0].0] + Keys(es[1..]);
      GetIgnoresDefault(es[1..], key, d1, d2);
    }
  }

  /** The telemetry reply as the handler is written: the "Contact not
      found" error is raised inside the `try` block, which has no
      `except HTTPException: raise`, so it comes out as a 500. */
  function TelemetryAsWritten(hasSession: bool, contacts: Contacts, key: string, response: Option<Event>): (r: Result<seq<(string, Value)>, HttpError>)
    ensures r.Success? <==> Telemetry(hasSession, contacts, key, response).Success?
  {
    var intended := Telemetry(hasSession, contacts, key, response);
    if hasSession && intended == Failure(ContactNotFound) then Failure(Rewrapped(ContactNotFound)) else intended
  }

  /** As written, an unknown contact gets a 500, not a 404. */
  lemma TelemetryAsWrittenHidesNotFound(contacts: Contacts, key: string, response: Option<Event>)
    requires FindContact(contacts, key).None?
    ensures TelemetryAsWritten(true, contacts, key, response) == Failure(HttpError(500, "404: Contact not found"))
    ensures Telemetry(true, contacts, key, response) == Failure(HttpError(404, "Contact not found"))
  {
    assert Decimal(4) == "4" && Decimal(40) == "40" && Decimal(404) == "404";
    assert "404" + ": " + "Contact not found" == "404: Contact not found";
  }

  /** Any response that is not a telemetry response yields exactly
      `{battery: -1}`. */
  lemma TelemetryFallback(contacts: Contacts, key: string, e: Event)
    requires FindContact(contacts, key).Some? && e.kind != TelemetryResponse
    ensures Telemetry(true, contacts, key, Some(e)) == Success([("battery", Prim(Int(-1)))])
  {
  }
}
