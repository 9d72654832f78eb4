# SMSPilot sender, modelled in Dafny

A model of the `Sender` class of pySMSPilot, a client for the SMSPilot.ru
JSON API (version 2). The client holds an API key, a default sender name
and an optional delivery callback; it queues outbound messages after
checking them, sends the whole queue as one request, and builds the
requests for delivery status, balance, user info and inbox.

Everything the class decides happens before the HTTP call, so the model
is pure functions over immutable values:

- `Patterns` (`patterns.dfy`): the phone, sender-name and callback-URL
  checks (`_checkPhone`, `_checkSender`, `_checkCallback`) and the
  timestamp prefix check `_checkDate`. Python's `$` also matches just before
  one final newline, and the model reproduces this: `"79\n"` is a valid
  phone. `\s` is exactly Python 3's `str.isspace` set.
- `DateTimes` (`datetimes.dfy`): a `datetime` value and its rendering with
  `strftime("%Y-%m-%d %H:%M:%S")`. `Parse` reads the fields back and is used
  only to prove that the rendering loses nothing.
- `Sender` (`sender.dfy`): the client. `Config` is the constructor's
  settings. `Message` is a queued message. `Client` is the settings plus
  the queue. A mutating operation returns a `Call`, which holds the client
  after the call and the value returned or the `Error` raised. Arguments
  whose runtime type the code inspects are the tagged variant `PyValue`
  (`None`, int, str, `datetime`, anything else with its truthiness). Payloads
  are `Json.Value` objects. The HTTP transport `callServer` is a parameter
  `Transport` from payload to parsed reply or failure. `Exchange` is the one
  place where it is called.
- `SenderFacts` (`sender_facts.dfy`): properties that span several
  operations, and the scenarios the library's tests describe.
- `Wrappers`, `Json`: `Option`/`Result` and the JSON value type.

Behaviour of the code that the model follows (all in
`pySMSPilot/sender.py` unless noted):

- A queued message always carries `send_datetime`, which is null when no
  time was given (`sender.py:91`).
- A timestamp string that does not match is stored as null without an
  error. The test at `test_sender.py:56-61` expects an exception, but the
  code never raises one (`sender.py:79-80`).
- `checkStatus` refuses only a missing list (`None`). An empty list is
  sent as an empty `check` (`sender.py:136-142`).
- `send` clears the queue only after the transport has returned. If the
  transport fails, the queue is kept (`sender.py:131-132`).
- A send-time argument of any other type is silently treated as absent
  (`sender.py:83-84`).
- A falsy ttl (`None`, `0`, `""`) is dropped rather than refused (`sender.py:99`).

`batch_send` is defective. It clears the queue and then calls
`self.add_sms`, which the class does not define. So any non-empty list of
(id, phone) pairs ends in an AttributeError, and the queue stays cleared. `Sender.BatchSend`
models exactly that.

## Model

| member | source | states |
|---|---|---|
| `Patterns.PhoneShape` | pySMSPilot/sender.py:170-173 | `PhoneOk` (the phone check) accepts exactly "7" followed by one or more ASCII digits, optionally followed by one final newline |
| `Patterns.PhoneHasNoLengthBound` | pySMSPilot/sender.py:172 | "7" followed by any positive number of digits is accepted: there is no upper length bound |
| `Patterns.SenderShape` | pySMSPilot/sender.py:175-178 | `SenderOk` (the sender check) accepts exactly 3 to 11 characters from `[A-Za-z0-9.-]`, optionally followed by one final newline |
| `Patterns.CallbackShape` | pySMSPilot/sender.py:180-184 | `CallbackOk` (the callback check) accepts exactly "http://" followed by any text without whitespace, optionally followed by one final newline |
| `Patterns.HttpsRejected` | pySMSPilot/sender.py:183 | no https URL passes `CallbackOk` (the callback check) |
| `Patterns.SpaceRun` | pySMSPilot/sender.py:166 | the computed whitespace run is all whitespace and is followed by a non-space or the end of the string |
| `Patterns.SpaceRunIsMaximal` | pySMSPilot/sender.py:166 | a whitespace run that is followed by a non-space is exactly the run `SpaceRun` finds |
| `Patterns.CheckDate` | pySMSPilot/sender.py:163-168 | `_checkDate` returns either its input unchanged or nothing |
| `Patterns.CheckDateIsPrefixMatch` | pySMSPilot/sender.py:166-168 | `_checkDate` returns its input exactly when the input begins with `DDDD-DD-DD`, one or more whitespace characters and `DD:DD:DD`; trailing text is allowed |
| `Patterns.CheckDateIgnoresSuffix` | pySMSPilot/sender.py:166 | the timestamp check is a prefix match: appending any text to an accepted string keeps it accepted |
| `DateTimes.Digits` | pySMSPilot/sender.py:82 | zero-padded decimal rendering has exactly the requested width and only digits |
| `DateTimes.DigitsRoundTrip` | pySMSPilot/sender.py:82 | a zero-padded field reads back as the number that was rendered |
| `DateTimes.Format` | pySMSPilot/sender.py:82 | `strftime("%Y-%m-%d %H:%M:%S")` of a four-digit-year datetime is 19 characters long |
| `DateTimes.FormatRoundTrip` | pySMSPilot/sender.py:82 | every field of the datetime can be read back from its rendering |
| `DateTimes.FormatInjective` | pySMSPilot/sender.py:82 | two different datetimes never render to the same string |
| `DateTimes.FormatPassesCheckDate` | pySMSPilot/sender.py:82 | a rendered datetime always passes the timestamp check |
| `Sender.New` | pySMSPilot/sender.py:26-48 | construction succeeds exactly when: the API key is non-empty; a given default sender passes the sender check; a truthy callback passes the URL check; and a truthy method comes with a truthy callback and is "post" or "get". The default sender is "internet" when omitted and is otherwise stored verbatim. The client starts with an empty queue, and each failure kind is reported in the source's check order |
| `Sender.ResetQueue` | pySMSPilot/sender.py:50-52 | the queue is emptied and the settings are kept |
| `Sender.SendTime` | pySMSPilot/sender.py:78-84 | a string send time is kept exactly when it passes the timestamp check. A datetime is stored as its rendering. Anything else is stored as null. A stored time always passes the timestamp check |
| `Sender.AddSMS` | pySMSPilot/sender.py:65-108 | a call succeeds exactly when: the id is an int not already queued; the phone is valid; the body is non-empty; the effective sender is valid; and the ttl is falsy or an int in [10, 1440]. On success exactly one message is appended, earlier entries are unchanged, the sender defaults to the configured one, a truthy callback and method are copied, and a ttl is kept exactly when truthy. A rejected call leaves the client unchanged. The first failing check decides the error. The client invariant (valid settings, well-formed messages, distinct ids) is preserved |
| `Sender.BatchSend` | pySMSPilot/sender.py:110-116 | a missing list fails without touching the queue. Any list clears the queue. The call fails, because `add_sms` is missing, exactly when the list is non-empty |
| `Sender.MessageObject` | pySMSPilot/sender.py:86-104 | a message's dict always has `id`, `from`, `to`, `text` and `send_datetime`. It has `callback`, `callback_method` and `ttl` exactly when the message holds them, and no other key |
| `Sender.MessageObjectRoundTrip` | pySMSPilot/sender.py:86-104 | the message dict carries every field of the message: the message can be read back from it |
| `Sender.BuildData` | pySMSPilot/sender.py:54-63 | the result holds `apikey`, every keyword field and the keys of one positional dict, whose values win. An `apikey` keyword, or more than one positional dict, is a TypeError |
| `Sender.Request` | pySMSPilot/sender.py:58 | a request built by the client's own operations always succeeds and holds exactly the given fields plus `apikey` |
| `Sender.MessageList` | pySMSPilot/sender.py:130 | the `send` list holds every queued message's dict, in queue order |
| `Sender.SendPayload` | pySMSPilot/sender.py:130 | the payload of `send` holds exactly `apikey` and `send`, and `send` lists the queue in order |
| `Sender.Exchange` | pySMSPilot/sender.py:118-125 | the transport's reply is returned verbatim, and a transport failure propagates unchanged |
| `Sender.Send` | pySMSPilot/sender.py:127-133 | an empty queue fails with `EmptyQueue`. Otherwise the transport receives the send payload and its reply is returned. The queue is cleared only when the transport succeeds; a failed call leaves the client unchanged. The client invariant is preserved |
| `Sender.IntIds` | pySMSPilot/sender.py:138-141 | exactly the int entries are kept, never more entries than given, and nothing is dropped exactly when every entry is an int |
| `Sender.ServerIdEntries` | pySMSPilot/sender.py:141 | each kept id becomes `{server_id: id}`, in order |
| `Sender.StatusRequest` | pySMSPilot/sender.py:135-142 | only a missing list is refused. Otherwise the payload is exactly `apikey` plus `check`, the list of `{server_id}` entries for the int ids |
| `Sender.CheckStatus` | pySMSPilot/sender.py:135-143 | fails only on a missing list or a transport failure. Otherwise the status payload goes to the transport |
| `Sender.PacketStatusRequest` | pySMSPilot/sender.py:145-148 | refused unless the id passes `IsDigitString` (`str.isdigit`: a non-empty digit string). Otherwise the payload is exactly `apikey`, `check: true` and `server_packet_id` |
| `Sender.CheckPacketStatus` | pySMSPilot/sender.py:145-149 | fails only on a bad packet id or a transport failure |
| `Sender.BalanceRequest` | pySMSPilot/sender.py:151-152 | the payload is exactly `apikey` and `balance`, holding the given value |
| `Sender.CheckBalance` | pySMSPilot/sender.py:151-153 | the balance payload goes to the transport and its reply (or failure) is returned unmodified; there is no local validation |
| `Sender.InfoRequest` | pySMSPilot/sender.py:155-156 | the payload is exactly `apikey` and `info: true` |
| `Sender.UserInfo` | pySMSPilot/sender.py:155-157 | the user-info payload goes to the transport and its reply (or failure) is returned unmodified; there is no local validation |
| `Sender.InboxRequest` | pySMSPilot/sender.py:159-160 | the payload is exactly `apikey` and `inbound: true` |
| `Sender.GetInbox` | pySMSPilot/sender.py:159-161 | the inbox payload goes to the transport and its reply (or failure) is returned unmodified; there is no local validation |
| `SenderFacts.IntIdsOfConcat` | pySMSPilot/sender.py:138-141 | filtering the ids keeps their original order: the filter of a concatenation is the concatenation of the filters |
| `SenderFacts.DefaultSenderNeverRejected` | pySMSPilot/sender.py:74-77 | when the sender is omitted, a valid client never reports a bad sender |
| `SenderFacts.AddKeepsIdsDistinct` | pySMSPilot/sender.py:68-69 | queue ids stay pairwise distinct across `addSMS` |
| `SenderFacts.DuplicateIdRejected` | pySMSPilot/sender.py:68-69 | adding the same id twice: the second call fails with a duplicate-id error and the queue keeps one message |
| `SenderFacts.IdsReusableAfterSend` | pySMSPilot/sender.py:132 | after a successful send, no id is reported as a duplicate |
| `SenderFacts.TtlRules` | pySMSPilot/sender.py:99-106 | ttl 10 and 1440 are accepted. 9 and 1441 are out of range. A truthy string is not an int. A ttl of 0 is dropped without error |
| `SenderFacts.MalformedTimestampStoredAsNull` | pySMSPilot/sender.py:78-80 | a malformed timestamp string such as "20.12.2013" is stored as null and raises nothing |
| `SenderFacts.DateTimeReachesPayload` | pySMSPilot/sender.py:81-82 | a datetime send time reaches the transport as its rendering, and that rendering reads back as the same datetime |
| `SenderFacts.CallbackCopiedOntoMessages` | pySMSPilot/sender.py:39-48 | method "put" and a method without a callback are refused, and so is an https callback. With callback "http://ya.ru/" and method "post", every message added carries both |
| `SenderFacts.SingleMessagePayload` | pySMSPilot/sender.py:86-92 | a fresh client with key "K" and one message (id 1, phone 79101234567, text "Hi") sends exactly `{apikey: "K", send: [{id: 1, from: "internet", to: "79101234567", text: "Hi", send_datetime: null}]}` |
| `SenderFacts.BuildDataMerges` | pySMSPilot/sender.py:58-62 | a positional dict and keyword fields both end up next to the API key, and two positional dicts are a TypeError |
| `SenderFacts.StatusOfEmptyList` | pySMSPilot/sender.py:136-142 | an empty id list is accepted and sent as an empty `check`. Non-int entries are dropped |
| `SenderFacts.PacketIdExamples` | pySMSPilot/sender.py:146-148 | "12a3" and "" are refused, and "123" is sent as `server_packet_id` |

## Left out

- `callServer` internals are not modelled: the HTTP POST to the fixed URL, JSON encoding and decoding, and the request headers (`sender.py:19-24`). They are network I/O and become the `Transport` parameter.
- The key order of JSON objects is not modelled, because objects are maps. Key order matters only to the serialization, which is left out.
- Non-ASCII digits are not modelled. Python's `\d` and `str.isdigit` also accept other Unicode digits, but here a digit is `0`–`9` only. `[0-9]` in the phone pattern is exact.
- `DateTimes.Format`: only years 1000–9999 are modelled, where `%Y` gives four digits. The promise of `Sender.SendTime` and `Sender.MessageOk` that a stored time always passes the timestamp check rests on this restriction; for years 1–999 the rendering depends on platform and Python version. Microseconds and time zones do not appear in the format and are not modelled.
- Non-string arguments where the code expects strings are not modelled. A falsy API key of any type (such as `False`) is refused like `""`, and a falsy non-string callback is stored without a check, like `None`. A truthy non-string API key, and a non-empty sized body such as a list, are accepted and sent as they are. A non-string phone, sender, truthy callback or packet id ends in a TypeError or AttributeError; a `None` phone fails the phone check.
- Python 2 behaviour is not modelled; the model follows Python 3. Under Python 2 a `unicode` send time is not a `str` and is stored as null, `long` ids are refused, and `\s`/`\d` are ASCII-only.
- Python's `bool` being an `int` (`True` as an id or ttl) is not modelled.
- `Sender.CheckBalance` has no default argument: `checkBalance()` uses `value=True`, and the caller passes `Bool(true)` explicitly.
- `addSMS` returns `self` for chaining. The model returns the new client inside the `Call`.
- `batch_send` is modelled only as written (reset, then failure); its evidently intended loop over `addSMS` is not.
- The gateway's own behaviour is not modelled: the replies it echoes and the balance it reports.
