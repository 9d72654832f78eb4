/**
 * The SMSPilot `Sender` client: its configuration, the queue of pending
 * messages, the validation-gated `addSMS`, and the request payloads that
 * `send` and the query operations hand to the HTTP transport.
 *
 * Every operation is a pure function. A mutating operation returns a
 * `Call`: the client as it is after the call, together with the returned
 * value or the error raised. The transport (`callServer`) is a function
 * parameter from payload to parsed response.
 */
module Sender {
  import opened Wrappers
  import opened Json
  import opened Patterns
  import opened DateTimes

  /** The sender name used when none is configured. */
  const DefaultSenderName: string := "internet"

  /** The accepted time-to-live range, in minutes. */
  const TtlMin: int := 10
  const TtlMax: int := 1440

  /** The callback delivery methods the gateway knows. */
  const CallbackMethods: set<string> := {"post", "get"}

  /**
   * A Python argument whose runtime type the code inspects: `None`, an
   * `int`, a `str`, a `datetime`, or anything else (with its truthiness).
   */
  datatype PyValue =
    | PyNone
    | PyInt(i: int)
    | PyStr(s: string)
    | PyDateTime(dt: DateTime)
    | PyOther(truthy: bool)

  /** Python truthiness of an argument. */
  predicate Truthy(v: PyValue) {
    match v
    case PyNone => false
    case PyInt(i) => i != 0
    case PyStr(s) => s != ""
    case PyDateTime(_) => true
    case PyOther(t) => t
  }

  /** An optional string is truthy when it is present and non-empty. */
  predicate IsSet(o: Option<string>) {
    o.Some? && o.value != ""
  }

  /** What `if x: message[key] = x` copies: the value when truthy, nothing otherwise. */
  function Copied(o: Option<string>): (r: Option<string>)
    ensures r.Some? <==> IsSet(o)
    ensures r.Some? ==> r == o
  {
    if IsSet(o) then o else None
  }

  /** The failures the client raises, one per distinct check. */
  datatype Error =
    | MissingApiKey
    | InvalidDefaultSender
    | InvalidCallbackUrl
    | MethodWithoutCallback
    | MethodNotAllowed
    | IdNotInteger
    | DuplicateId
    | InvalidPhone
    | EmptyBody
    | InvalidSender
    | TtlNotInteger
    | TtlOutOfRange
    | NoPhoneList
    | AddSmsMissing
    | EmptyQueue
    | NoIdList
    | InvalidPacketId
    | ApiKeyKeyword
    | TooManyPositional
    | TransportFailure(reason: string)

  /** The settings fixed at construction; callback fields are stored as given. */
  datatype Config = Config(
    apiKey: string,
    defaultSender: string,
    callback: Option<string>,
    callbackMethod: Option<string>)

  /**
   * A queued message. `callback` and `callbackMethod` are present exactly
   * when they were copied from the configuration; `ttl` exactly when one
   * was given.
   */
  datatype Message = Message(
    id: int,
    sender: string,
    phone: string,
    text: string,
    sendDatetime: Option<string>,
    callback: Option<string>,
    callbackMethod: Option<string>,
    ttl: Option<int>)

  datatype Client = Client(config: Config, messages: seq<Message>)

  /** The client after a call, and what the call returned or raised. */
  datatype Call<+T> = Call(client: Client, outcome: Result<T, Error>)

  /** `callServer`: hands a payload to the gateway and returns its parsed reply, or fails. */
  type Transport = Value -> Result<Value, string>

  // ---------------------------------------------------------------------
  // Invariants

  predicate ConfigOk(cfg: Config) {
    && cfg.apiKey != ""
    && SenderOk(cfg.defaultSender)
    && (IsSet(cfg.callback) ==> CallbackOk(cfg.callback.value))
    && (IsSet(cfg.callbackMethod) ==> IsSet(cfg.callback) && cfg.callbackMethod.value in CallbackMethods)
  }

  predicate MessageOk(cfg: Config, m: Message) {
    && PhoneOk(m.phone)
    && m.text != ""
    && SenderOk(m.sender)
    && (m.sendDatetime.Some? ==> CheckDate(m.sendDatetime.value).Some?)
    && (m.ttl.Some? ==> TtlMin <= m.ttl.value <= TtlMax)
    && m.callback == Copied(cfg.callback)
    && m.callbackMethod == Copied(cfg.callbackMethod)
  }

  predicate HasId(ms: seq<Message>, id: int) {
    exists i :: 0 <= i < |ms| && ms[i].id == id
  }

  predicate IdsDistinct(ms: seq<Message>) {
    forall i, j :: 0 <= i < j < |ms| ==> ms[i].id != ms[j].id
  }

  /** A client every operation keeps: valid settings, well-formed messages, distinct ids. */
  predicate Valid(c: Client) {
    && ConfigOk(c.config)
    && (forall i :: 0 <= i < |c.messages| ==> MessageOk(c.config, c.messages[i]))
    && IdsDistinct(c.messages)
  }

  // ---------------------------------------------------------------------
  // Construction

  /** `Sender(api_key, callback, callback_method, defaultSender)`. */
  function New(apiKey: string, callback: Option<string>, callbackMethod: Option<string>,
               defaultSender: Option<string>): (r: Result<Client, Error>)
    ensures r.Success? <==>
      && apiKey != ""
      && (defaultSender.Some? ==> SenderOk(defaultSender.value))
      && (IsSet(callback) ==> CallbackOk(callback.value))
      && (IsSet(callbackMethod) ==> IsSet(callback) && callbackMethod.value in CallbackMethods)
    ensures r.Success? ==>
      && Valid(r.value)
      && r.value.messages == []
      && r.value.config == Config(apiKey, defaultSender.GetOr(DefaultSenderName), callback, callbackMethod)
    ensures r == Failure(MissingApiKey) <==> apiKey == ""
    ensures r == Failure(InvalidDefaultSender) <==>
      apiKey != "" && defaultSender.Some? && !SenderOk(defaultSender.value)
    ensures r == Failure(InvalidCallbackUrl) <==>
      && apiKey != ""
      && (defaultSender.Some? ==> SenderOk(defaultSender.value))
      && IsSet(callback) && !CallbackOk(callback.value)
    ensures r == Failure(MethodWithoutCallback) <==>
      && apiKey != ""
      && (defaultSender.Some? ==> SenderOk(defaultSender.value))
      && (IsSet(callback) ==> CallbackOk(callback.value))
      && IsSet(callbackMethod) && !IsSet(callback)
    ensures r == Failure(MethodNotAllowed) <==>
      && apiKey != ""
      && (defaultSender.Some? ==> SenderOk(defaultSender.value))
      && (IsSet(callback) ==> CallbackOk(callback.value))
      && IsSet(callbackMethod) && IsSet(callback) && callbackMethod.value !in CallbackMethods
  {
    if apiKey == "" then Failure(MissingApiKey)
    else if defaultSender.Some? && !SenderOk(defaultSender.value) then Failure(InvalidDefaultSender)
    else if IsSet(callback) && !CallbackOk(callback.value) then Failure(InvalidCallbackUrl)
    else if IsSet(callbackMethod) && !IsSet(callback) then Failure(MethodWithoutCallback)
    else if IsSet(callbackMethod) && callbackMethod.value !in CallbackMethods then Failure(MethodNotAllowed)
    else
      var cfg := Config(apiKey, defaultSender.GetOr(DefaultSenderName), callback, callbackMethod);
      assert SenderOk(DefaultSenderName) by {
        assert SenderBody(DefaultSenderName);
      }
      Success(Client(cfg, []))
  }

  // ---------------------------------------------------------------------
  // The queue

  /** `reset_queue`. */
  function ResetQueue(c: Client): (r: Call<()>)
    ensures r.outcome.Success? && r.client.messages == [] && r.client.config == c.config
    ensures Valid(c) ==> Valid(r.client)
  {
    Call(c.(messages := []), Success(()))
  }

  /** How the `send_datetime` argument is stored. */
  function SendTime(v: PyValue): (r: Option<string>)
    ensures r.Some? ==> CheckDate(r.value).Some?
    ensures v.PyStr? ==> r == CheckDate(v.s)
    ensures v.PyDateTime? ==> r == Some(Format(v.dt))
    ensures !v.PyStr? && !v.PyDateTime? ==> r == None
  {
    match v
    case PyStr(s) => CheckDate(s)
    case PyDateTime(t) => FormatPassesCheckDate(t); Some(Format(t))
    case _ => None
  }

  /** The stored time-to-live: the int when one is given, nothing when `ttl` is falsy. */
  function StoredTtl(ttl: PyValue): Option<int> {
    if Truthy(ttl) && ttl.PyInt? then Some(ttl.i) else None
  }

  /** Every check `addSMS` makes passes. */
  predicate Admissible(c: Client, id: PyValue, phone: string, body: string,
                       sender: Option<string>, ttl: PyValue) {
    && id.PyInt?
    && !HasId(c.messages, id.i)
    && PhoneOk(phone)
    && body != ""
    && SenderOk(sender.GetOr(c.config.defaultSender))
    && (Truthy(ttl) ==> ttl.PyInt? && TtlMin <= ttl.i <= TtlMax)
  }

  /** `addSMS(sms_id, phone, body, sender, send_datetime, ttl)`. */
  function AddSMS(c: Client, id: PyValue, phone: string, body: string, sender: Option<string>,
                  sendAt: PyValue, ttl: PyValue): (r: Call<()>)
    ensures r.outcome.Failure? ==> r.client == c
    ensures r.outcome.Success? <==> Admissible(c, id, phone, body, sender, ttl)
    ensures r.outcome.Success? ==>
      && r.client.config == c.config
      && |r.client.messages| == |c.messages| + 1
      && r.client.messages[..|c.messages|] == c.messages
      && var m := r.client.messages[|c.messages|];
      && m.id == id.i && m.phone == phone && m.text == body
      && m.sender == sender.GetOr(c.config.defaultSender)
      && m.sendDatetime == SendTime(sendAt)
      && m.callback == Copied(c.config.callback)
      && m.callbackMethod == Copied(c.config.callbackMethod)
      && (m.ttl.Some? <==> Truthy(ttl))
      && (m.ttl.Some? ==> ttl == PyInt(m.ttl.value))
    ensures r.outcome == Failure(IdNotInteger) <==> !id.PyInt?
    ensures r.outcome == Failure(DuplicateId) <==> id.PyInt? && HasId(c.messages, id.i)
    ensures r.outcome == Failure(InvalidPhone) <==>
      id.PyInt? && !HasId(c.messages, id.i) && !PhoneOk(phone)
    ensures r.outcome == Failure(EmptyBody) <==>
      id.PyInt? && !HasId(c.messages, id.i) && PhoneOk(phone) && body == ""
    ensures r.outcome == Failure(InvalidSender) <==>
      && id.PyInt? && !HasId(c.messages, id.i) && PhoneOk(phone) && body != ""
      && !SenderOk(sender.GetOr(c.config.defaultSender))
    ensures r.outcome == Failure(TtlNotInteger) <==>
      && id.PyInt? && !HasId(c.messages, id.i) && PhoneOk(phone) && body != ""
      && SenderOk(sender.GetOr(c.config.defaultSender))
      && Truthy(ttl) && !ttl.PyInt?
    ensures r.outcome == Failure(TtlOutOfRange) <==>
      && id.PyInt? && !HasId(c.messages, id.i) && PhoneOk(phone) && body != ""
      && SenderOk(sender.GetOr(c.config.defaultSender))
      && ttl.PyInt? && ttl.i != 0 && !(TtlMin <= ttl.i <= TtlMax)
    ensures Valid(c) ==> Valid(r.client)
  {
    if !id.PyInt? then Call(c, Failure(IdNotInteger))
    else if HasId(c.messages, id.i) then Call(c, Failure(DuplicateId))
    else if !PhoneOk(phone) then Call(c, Failure(InvalidPhone))
    else if body == "" then Call(c, Failure(EmptyBody))
    else
      var from := sender.GetOr(c.config.defaultSender);
      if !SenderOk(from) then Call(c, Failure(InvalidSender))
      else if Truthy(ttl) && !ttl.PyInt? then Call(c, Failure(TtlNotInteger))
      else if Truthy(ttl) && !(TtlMin <= ttl.i <= TtlMax) then Call(c, Failure(TtlOutOfRange))
      else
        var m := Message(id.i, from, phone, body, SendTime(sendAt),
                         Copied(c.config.callback), Copied(c.config.callbackMethod), StoredTtl(ttl));
        Call(c.(messages := c.messages + [m]), Success(()))
  }

  /**
   * `batch_send` as written: it clears the queue and then calls `add_sms`,
   * which the class does not define, so any non-empty list fails.
   */
  function BatchSend(c: Client, queue: Option<seq<(PyValue, string)>>, body: string,
                     sender: Option<string>): (r: Call<()>)
    ensures queue.None? ==> r == Call(c, Failure(NoPhoneList))
    ensures queue.Some? ==> r.client.messages == [] && r.client.config == c.config
    ensures queue.Some? ==> (r.outcome.Success? <==> queue.value == [])
    ensures queue.Some? && queue.value != [] ==> r.outcome == Failure(AddSmsMissing)
  {
    match queue
    case None => Call(c, Failure(NoPhoneList))
    case Some(q) =>
      var cleared := ResetQueue(c).client;
      if q == [] then Call(cleared, Success(())) else Call(cleared, Failure(AddSmsMissing))
  }

  // ---------------------------------------------------------------------
  // Payloads

  /** The keys every queued message carries in the payload. */
  const MessageKeys: set<string> := {"id", "from", "to", "text", "send_datetime"}

  function OptionalString(o: Option<string>): Value {
    match o
    case Some(s) => Str(s)
    case None => Null
  }

  /** The dict `addSMS` builds for a message. */
  function MessageObject(m: Message): (o: Object)
    ensures MessageKeys <= o.Keys
    ensures "callback" in o <==> m.callback.Some?
    ensures "callback_method" in o <==> m.callbackMethod.Some?
    ensures "ttl" in o <==> m.ttl.Some?
    ensures o.Keys <= MessageKeys + {"callback", "callback_method", "ttl"}
  {
    var base := map[
      "id" := Int(m.id), "from" := Str(m.sender), "to" := Str(m.phone), "text" := Str(m.text),
      "send_datetime" := OptionalString(m.sendDatetime)];
    var withCallback := if m.callback.Some? then base["callback" := Str(m.callback.value)] else base;
    var withMethod :=
      if m.callbackMethod.Some? then withCallback["callback_method" := Str(m.callbackMethod.value)]
      else withCallback;
    if m.ttl.Some? then withMethod["ttl" := Int(m.ttl.value)] else withMethod
  }

  function StringField(o: Object, key: string): Option<string> {
    if key in o && o[key].Str? then Some(o[key].s) else None
  }

  /** Reads a message back from its dict; the inverse of `MessageObject`. */
  function MessageOf(o: Object): Option<Message> {
    if MessageKeys <= o.Keys && o["id"].Int? && o["from"].Str? && o["to"].Str? && o["text"].Str?
       && (o["send_datetime"].Str? || o["send_datetime"].Null?)
       && ("ttl" in o ==> o["ttl"].Int?)
    then
      Some(Message(o["id"].i, o["from"].s, o["to"].s, o["text"].s,
                   StringField(o, "send_datetime"), StringField(o, "callback"),
                   StringField(o, "callback_method"), if "ttl" in o then Some(o["ttl"].i) else None))
    else None
  }

  /** A message's dict carries every field of the message. */
  lemma MessageObjectRoundTrip(m: Message)
    ensures MessageOf(MessageObject(m)) == Some(m)
  {
  }

  /** `build_data(*args, **kwargs)`: the api key, the keyword fields, and one optional dict merged over them. */
  function BuildData(c: Client, args: seq<Object>, kwargs: Object): (r: Result<Object, Error>)
    ensures r.Success? <==> "apikey" !in kwargs && |args| <= 1
    ensures r == Failure(ApiKeyKeyword) <==> "apikey" in kwargs
    ensures r == Failure(TooManyPositional) <==> "apikey" !in kwargs && |args| > 1
    ensures r.Success? ==>
      r.value.Keys == {"apikey"} + kwargs.Keys + (if |args| == 1 then args[0].Keys else {})
    ensures r.Success? ==> forall k :: k in r.value ==>
      r.value[k] == (if |args| == 1 && k in args[0] then args[0][k]
                     else if k in kwargs then kwargs[k] else Str(c.config.apiKey))
  {
    if "apikey" in kwargs then Failure(ApiKeyKeyword)
    else
      var base := kwargs["apikey" := Str(c.config.apiKey)];
      if |args| == 0 then Success(base)
      else if |args| == 1 then Success(base + args[0])
      else Failure(TooManyPositional)
  }

  /** A payload of the api key and the given fields, as the client's own operations build it. */
  function Request(c: Client, fields: Object): (p: Object)
    requires "apikey" !in fields
    ensures p.Keys == fields.Keys + {"apikey"}
    ensures p["apikey"] == Str(c.config.apiKey)
    ensures forall k :: k in fields ==> p[k] == fields[k]
  {
    BuildData(c, [], fields).value
  }

  function MessageList(ms: seq<Message>): (vs: seq<Value>)
    ensures |vs| == |ms|
    ensures forall i :: 0 <= i < |ms| ==> vs[i] == Obj(MessageObject(ms[i]))
  {
    seq(|ms|, i requires 0 <= i < |ms| => Obj(MessageObject(ms[i])))
  }

  /** The payload `send` hands to the transport: the api key and the queue in order. */
  function SendPayload(c: Client): (p: Object)
    ensures p.Keys == {"apikey", "send"}
    ensures p["apikey"] == Str(c.config.apiKey)
    ensures p["send"] == Arr(MessageList(c.messages))
  {
    Request(c, map["send" := Arr(MessageList(c.messages))])
  }

  /** A transport call; a transport failure propagates unchanged. */
  function Exchange(payload: Object, transport: Transport): (r: Result<Value, Error>)
    ensures r.Success? <==> transport(Obj(payload)).Success?
    ensures r.Success? ==> r.value == transport(Obj(payload)).value
    ensures r.Failure? ==> r.error == TransportFailure(transport(Obj(payload)).error)
  {
    match transport(Obj(payload))
    case Success(reply) => Success(reply)
    case Failure(e) => Failure(TransportFailure(e))
  }

  /** `send`: fails on an empty queue; clears the queue only once the transport has replied. */
  function Send(c: Client, transport: Transport): (r: Call<Value>)
    ensures r.outcome == Failure(EmptyQueue) <==> c.messages == []
    ensures c.messages != [] ==> r.outcome == Exchange(SendPayload(c), transport)
    ensures r.outcome.Success? ==> r.client == c.(messages := [])
    ensures r.outcome.Failure? ==> r.client == c
    ensures Valid(c) ==> Valid(r.client)
  {
    if c.messages == [] then Call(c, Failure(EmptyQueue))
    else
      var reply := Exchange(SendPayload(c), transport);
      if reply.Success? then Call(c.(messages := []), reply) else Call(c, reply)
  }

  // ---------------------------------------------------------------------
  // Queries

  /** The entries of `server_ids` that are ints, in their original order. */
  function IntIds(xs: seq<PyValue>): (r: seq<int>)
    ensures |r| <= |xs|
    ensures forall k :: k in r <==> PyInt(k) in xs
    ensures |r| == |xs| <==> forall i :: 0 <= i < |xs| ==> xs[i].PyInt?
  {
    if xs == [] then []
    else
      var rest := IntIds(xs[1..]);
      assert xs == [xs[0]] + xs[1..];
      if xs[0].PyInt? then [xs[0].i] + rest else rest
  }

  function ServerIdEntries(ids: seq<int>): (vs: seq<Value>)
    ensures |vs| == |ids|
    ensures forall i :: 0 <= i < |ids| ==> vs[i] == Obj(map["server_id" := Int(ids[i])])
  {
    seq(|ids|, i requires 0 <= i < |ids| => Obj(map["server_id" := Int(ids[i])]))
  }

  /** The payload of `checkStatus`; only a missing list is refused. */
  function StatusRequest(c: Client, serverIds: Option<seq<PyValue>>): (r: Result<Object, Error>)
    ensures r.Failure? <==> serverIds.None?
    ensures r.Failure? ==> r.error == NoIdList
    ensures r.Success? ==>
      && r.value.Keys == {"apikey", "check"}
      && r.value["apikey"] == Str(c.config.apiKey)
      && r.value["check"] == Arr(ServerIdEntries(IntIds(serverIds.value)))
  {
    match serverIds
    case None => Failure(NoIdList)
    case Some(xs) => Success(Request(c, map["check" := Arr(ServerIdEntries(IntIds(xs)))]))
  }

  /** `checkStatus(server_ids)`. */
  function CheckStatus(c: Client, serverIds: Option<seq<PyValue>>, transport: Transport): (r: Result<Value, Error>)
    ensures r.Failure? ==> r.error == NoIdList || r.error.TransportFailure?
    ensures serverIds.None? ==> r == Failure(NoIdList)
    ensures serverIds.Some? ==> r == Exchange(StatusRequest(c, serverIds).value, transport)
  {
    var payload :- StatusRequest(c, serverIds);
    Exchange(payload, transport)
  }

  /** The payload of `checkPacketStatus`; the id must be a non-empty digit string. */
  function PacketStatusRequest(c: Client, packetId: string): (r: Result<Object, Error>)
    ensures r.Failure? <==> !IsDigitString(packetId)
    ensures r.Failure? ==> r.error == InvalidPacketId
    ensures r.Success? ==>
      && r.value.Keys == {"apikey", "check", "server_packet_id"}
      && r.value["apikey"] == Str(c.config.apiKey)
      && r.value["check"] == Bool(true)
      && r.value["server_packet_id"] == Str(packetId)
  {
    if !IsDigitString(packetId) then Failure(InvalidPacketId)
    else Success(Request(c, map["check" := Bool(true), "server_packet_id" := Str(packetId)]))
  }

  /** `checkPacketStatus(server_packet_id)`. */
  function CheckPacketStatus(c: Client, packetId: string, transport: Transport): (r: Result<Value, Error>)
    ensures r.Failure? ==> r.error == InvalidPacketId || r.error.TransportFailure?
    ensures !IsDigitString(packetId) ==> r == Failure(InvalidPacketId)
    ensures IsDigitString(packetId) ==> r == Exchange(PacketStatusRequest(c, packetId).value, transport)
  {
    var payload :- PacketStatusRequest(c, packetId);
    Exchange(payload, transport)
  }

  /** The payload of `checkBalance(value)`; the caller's value is passed through. */
  function BalanceRequest(c: Client, value: Value): (p: Object)
    ensures p.Keys == {"apikey", "balance"}
    ensures p["apikey"] == Str(c.config.apiKey) && p["balance"] == value
  {
    Request(c, map["balance" := value])
  }

  /** The payload of `userinfo`. */
  function InfoRequest(c: Client): (p: Object)
    ensures p.Keys == {"apikey", "info"}
    ensures p["apikey"] == Str(c.config.apiKey) && p["info"] == Bool(true)
  {
    Request(c, map["info" := Bool(true)])
  }

  /** The payload of `getInbox`. */
  function InboxRequest(c: Client): (p: Object)
    ensures p.Keys == {"apikey", "inbound"}
    ensures p["apikey"] == Str(c.config.apiKey) && p["inbound"] == Bool(true)
  {
    Request(c, map["inbound" := Bool(true)])
  }

  /** `checkBalance(value)`; the source's default for `value` is `True`. */
  function CheckBalance(c: Client, value: Value, transport: Transport): (r: Result<Value, Error>)
    ensures r.Failure? ==> r.error.TransportFailure?
    ensures r.Success? <==> transport(Obj(BalanceRequest(c, value))).Success?
    ensures r == Exchange(BalanceRequest(c, value), transport)
  {
    Exchange(BalanceRequest(c, value), transport)
  }

  /** `userinfo`. */
  function UserInfo(c: Client, transport: Transport): (r: Result<Value, Error>)
    ensures r.Failure? ==> r.error.TransportFailure?
    ensures r.Success? <==> transport(Obj(InfoRequest(c))).Success?
    ensures r == Exchange(InfoRequest(c), transport)
  {
    Exchange(InfoRequest(c), transport)
  }

  /** `getInbox`. */
  function GetInbox(c: Client, transport: Transport): (r: Result<Value, Error>)
    ensures r.Failure? ==> r.error.TransportFailure?
    ensures r.Success? <==> transport(Obj(InboxRequest(c))).Success?
    ensures r == Exchange(InboxRequest(c), transport)
  {
    Exchange(InboxRequest(c), transport)
  }
}
