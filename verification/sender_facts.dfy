/**
 * Properties that relate several client operations, the scenarios the
 * library's tests describe, and a single-message payload example.
 */
module SenderFacts {
  import opened Wrappers
  import opened Json
  import opened Patterns
  import opened DateTimes
  import opened Sender

  const Phone: string := "79101234567"

  lemma PhoneIsValid()
    ensures PhoneOk(Phone)
  {
    assert PhoneBody(Phone);
  }

  /** `checkStatus` keeps the int entries in their original order. */
  lemma {:induction false} IntIdsOfConcat(xs: seq<PyValue>, ys: seq<PyValue>)
    ensures IntIds(xs + ys) == IntIds(xs) + IntIds(ys)
    decreases |xs|
  {
    if xs != [] {
      assert (xs + ys)[1..] == xs[1..] + ys;
      IntIdsOfConcat(xs[1..], ys);
    } else {
      assert xs + ys == ys;
    }
  }

  /** The omitted sender falls back to the default, which a valid client always accepts. */
  lemma DefaultSenderNeverRejected(c: Client, id: PyValue, phone: string, body: string,
                                   sendAt: PyValue, ttl: PyValue)
    requires Valid(c)
    ensures AddSMS(c, id, phone, body, None, sendAt, ttl).outcome != Failure(InvalidSender)
  {
  }

  /** Queue ids stay pairwise distinct, however many messages are added. */
  lemma AddKeepsIdsDistinct(c: Client, id: PyValue, phone: string, body: string,
                            sender: Option<string>, sendAt: PyValue, ttl: PyValue)
    requires IdsDistinct(c.messages)
    ensures IdsDistinct(AddSMS(c, id, phone, body, sender, sendAt, ttl).client.messages)
  {
  }

  /** Adding the same id twice: the second call fails and the queue keeps one message. */
  lemma DuplicateIdRejected(c: Client, k: int, phone: string, body: string,
                            sendAt: PyValue, ttl: PyValue, phone2: string, body2: string)
    requires c.messages == []
    requires AddSMS(c, PyInt(k), phone, body, None, sendAt, ttl).outcome.Success?
    ensures var c1 := AddSMS(c, PyInt(k), phone, body, None, sendAt, ttl).client;
            var r := AddSMS(c1, PyInt(k), phone2, body2, None, PyNone, PyNone);
            r.outcome == Failure(DuplicateId) && |r.client.messages| == 1
  {
    var c1 := AddSMS(c, PyInt(k), phone, body, None, sendAt, ttl).client;
    assert c1.messages[0].id == k;
  }

  /** After a successful send, any id may be used again. */
  lemma IdsReusableAfterSend(c: Client, transport: Transport, k: int, phone: string, body: string,
                             sender: Option<string>, sendAt: PyValue, ttl: PyValue)
    requires Send(c, transport).outcome.Success?
    ensures AddSMS(Send(c, transport).client, PyInt(k), phone, body, sender, sendAt, ttl).outcome
            != Failure(DuplicateId)
  {
  }

  /** The ttl bounds are inclusive, and a falsy ttl is dropped rather than refused. */
  lemma TtlRules(c: Client, k: int, phone: string, body: string)
    requires Valid(c) && !HasId(c.messages, k) && PhoneOk(phone) && body != ""
    ensures AddSMS(c, PyInt(k), phone, body, None, PyNone, PyInt(TtlMin)).outcome.Success?
    ensures AddSMS(c, PyInt(k), phone, body, None, PyNone, PyInt(TtlMax)).outcome.Success?
    ensures AddSMS(c, PyInt(k), phone, body, None, PyNone, PyInt(TtlMin - 1)).outcome == Failure(TtlOutOfRange)
    ensures AddSMS(c, PyInt(k), phone, body, None, PyNone, PyInt(TtlMax + 1)).outcome == Failure(TtlOutOfRange)
    ensures AddSMS(c, PyInt(k), phone, body, None, PyNone, PyStr("Test")).outcome == Failure(TtlNotInteger)
    ensures var r := AddSMS(c, PyInt(k), phone, body, None, PyNone, PyInt(0));
            r.outcome.Success? && r.client.messages[|c.messages|].ttl == None
  {
  }

  /** A malformed timestamp string is stored as null and raises nothing. */
  lemma MalformedTimestampStoredAsNull(c: Client, k: int, phone: string, body: string)
    requires Valid(c) && !HasId(c.messages, k) && PhoneOk(phone) && body != ""
    ensures var r := AddSMS(c, PyInt(k), phone, body, None, PyStr("20.12.2013"), PyNone);
            r.outcome.Success? && r.client.messages[|c.messages|].sendDatetime == None
  {
    assert !DateHead("20.12.2013") by {
      assert "20.12.2013"[2] == '.';
    }
  }

  /** A `datetime` send time reaches the transport as its `YYYY-MM-DD HH:MM:SS` rendering. */
  lemma DateTimeReachesPayload(c: Client, k: int, phone: string, body: string, t: DateTime)
    requires Valid(c) && !HasId(c.messages, k) && PhoneOk(phone) && body != ""
    ensures var r := AddSMS(c, PyInt(k), phone, body, None, PyDateTime(t), PyNone);
            && r.outcome.Success?
            && var sent := MessageObject(r.client.messages[|c.messages|])["send_datetime"];
            && sent == Str(Format(t))
            && Parse(sent.s) == Some(t)
  {
    FormatRoundTrip(t);
  }

  /** A configured callback is copied onto every message added afterwards. */
  lemma CallbackCopiedOntoMessages(id: PyValue, phone: string, body: string, sender: Option<string>,
                                   sendAt: PyValue, ttl: PyValue)
    ensures New("K", Some("http://ya.ru/"), Some("put"), None) == Failure(MethodNotAllowed)
    ensures New("K", None, Some("post"), None) == Failure(MethodWithoutCallback)
    ensures New("K", Some("https://ya.ru/"), None, None) == Failure(InvalidCallbackUrl)
    ensures New("K", Some("http://ya.ru/"), Some("post"), None).Success?
    ensures var c := New("K", Some("http://ya.ru/"), Some("post"), None).value;
            var r := AddSMS(c, id, phone, body, sender, sendAt, ttl);
            r.outcome.Success? ==>
              && MessageObject(r.client.messages[0])["callback"] == Str("http://ya.ru/")
              && MessageObject(r.client.messages[0])["callback_method"] == Str("post")
  {
    HttpsRejected("ya.ru/");
    var url := "http://ya.ru/";
    assert url[..|HttpScheme|] == HttpScheme;
    assert CallbackBody(url);
  }

  /** The single-message request the gateway receives for a fresh client. */
  lemma SingleMessagePayload(transport: Transport)
    ensures New("K", None, None, None).Success?
    ensures var c := New("K", None, None, None).value;
            var r := AddSMS(c, PyInt(1), Phone, "Hi", None, PyNone, PyNone);
            && r.outcome.Success?
            && SendPayload(r.client) == map[
                 "apikey" := Str("K"),
                 "send" := Arr([Obj(map[
                   "id" := Int(1), "from" := Str("internet"), "to" := Str(Phone),
                   "text" := Str("Hi"), "send_datetime" := Null])])]
            && Send(r.client, transport).outcome == Exchange(SendPayload(r.client), transport)
  {
    PhoneIsValid();
    var c := New("K", None, None, None).value;
    var r := AddSMS(c, PyInt(1), Phone, "Hi", None, PyNone, PyNone);
    var m := r.client.messages[0];
    assert m == Message(1, "internet", Phone, "Hi", None, None, None, None);
    assert MessageList(r.client.messages) == [Obj(MessageObject(m))];
  }

  /** `build_data` puts the api key next to keyword fields and merges a positional dict over them. */
  lemma BuildDataMerges(c: Client)
    ensures var r := BuildData(c, [map["test" := Str("ok")]], map["test2" := Str("ook")]);
            && r.Success?
            && r.value["apikey"] == Str(c.config.apiKey)
            && r.value["test"] == Str("ok")
            && r.value["test2"] == Str("ook")
    ensures BuildData(c, [map[], map[]], map[]) == Failure(TooManyPositional)
  {
  }

  /** An empty id list is sent as an empty check; only a missing list is refused. */
  lemma StatusOfEmptyList(c: Client)
    ensures StatusRequest(c, Some([])).Success?
    ensures StatusRequest(c, Some([])).value["check"] == Arr([])
    ensures StatusRequest(c, Some([PyStr("5"), PyInt(7)])).value["check"]
            == Arr([Obj(map["server_id" := Int(7)])])
  {
    var xs := [PyStr("5"), PyInt(7)];
    assert IntIds([]) == [];
    assert IntIds(xs[1..]) == [7] by {
      assert xs[1..] == [PyInt(7)];
      assert [PyInt(7)][1..] == [];
    }
    assert IntIds(xs) == [7];
    assert ServerIdEntries([7]) == [Obj(map["server_id" := Int(7)])];
  }

  /** A packet id with a non-digit is refused; a digit string is passed through. */
  lemma PacketIdExamples(c: Client)
    ensures PacketStatusRequest(c, "12a3") == Failure(InvalidPacketId)
    ensures PacketStatusRequest(c, "").Failure?
    ensures PacketStatusRequest(c, "123").value["server_packet_id"] == Str("123")
  {
    assert !IsDigit("12a3"[2]);
  }
}
