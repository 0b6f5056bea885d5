# homework_bot in Dafny

A model of the decision logic of a Telegram bot that polls the Yandex
Practicum homework-review API every ten minutes and relays status changes of
the user's homework to one chat. The model covers what `homework.py` decides:

- which `from_date` a request carries (`current_timestamp or int(time.time())`)
  and how the HTTP answer is classified (`get_api_answer`);
- the shape check of the decoded payload (`check_response`);
- the notification text built from one homework record, with the verdict
  table `HOMEWORK_STATUSES` (`parse_status`);
- the credential check (`check_tokens`), a loop with an early return;
- one iteration of `main` as a step function over the watermark, and `main`
  itself as a loop over a finite list of ticks.

Modules: `Exceptions` (the exception classes as an `Error` datatype and a
`Result` type), `JsonValues` (decoded JSON values and the Python operators the
script applies to them: truthiness, `in`, `[]`, `dict.get`, f-string text),
`Homework` (the functions of `homework.py`), `MainLoop` (one tick and the
loop).

The watermark is a JSON value, not an integer: `current_date` is copied from
the payload whatever its JSON type, and a falsy one (0, null, "") makes the
next request fall back to the clock through `or`. A homework record that is not
a dict is handled as Python does: `in` on a list or str does not raise, so such
a record fails with KeyError when a key is missing and with TypeError at `[]`
otherwise; `in` on None, a bool or an int fails with TypeError. A status that is
a list or a dict fails with TypeError, because the lookup in the verdict table
hashes it.

Behaviour that a reader might expect but the code does not have:

- The loop keeps no last-seen status. Every successful tick sends a message,
  so the same answer on two ticks sends the same text twice
  (`MainLoop.NoDeduplication`).
- An empty `homeworks` list is valid: `check_response` returns it and the tick
  sends the fixed text `Список пуст`.
- An empty-string `homework_name` is accepted; only null is rejected.
- Only the first record of the list is read (`MainLoop.OnlyFirstRecordMatters`).
- A body that is not JSON is a failure of the tick. Which exception carries it
  depends on the `requests` version: in recent versions its decode error is
  also a `RequestException` and becomes `RequestExceptionError`; otherwise the
  re-raise at `homework.py:81` calls `json.JSONDecodeError` with one argument
  instead of three, which itself raises TypeError. The model tags it
  `UndecodableBody`; either way the tick sends nothing and keeps the watermark.

## Model

| member | source | states |
|---|---|---|
| `Homework.FromDate` | homework.py:63 | a truthy watermark is sent as `from_date` unchanged; a falsy one (None, 0, "", empty list or dict) is replaced by the clock reading |
| `Homework.GetApiAnswer` | homework.py:66-81 | a transport failure is RequestExceptionError; any status code other than 200 is StatusCodeError carrying that code, whatever the body; a 200 answer succeeds exactly when its body decodes, and yields the decoded value unchanged |
| `Homework.CheckResponse` | homework.py:84-100 | a non-dict fails with TypeError before any key is looked at; a dict without `homeworks` fails with KeyError; a non-list `homeworks` fails with APIResponseException; it succeeds exactly on a dict whose `homeworks` is a list and returns that list verbatim, the empty list included |
| `Homework.ParseStatus` | homework.py:103-121 | a dict missing `homework_name` or `status` fails with KeyError whatever the values; a non-dict record never yields a message; a null name fails with StatusError before the status is examined; a hashable status outside the table fails with StatusError and a list or dict status with TypeError; it succeeds exactly when both keys are present, the name is not null (an empty name passes) and the status is one of approved/reviewing/rejected, and then returns `Изменился статус проверки работы "<name>". <verdict>` with the verdict of that status |
| `Homework.VerdictsAreSuffixFree` | homework.py:28-32 | no text ends with the closing quote and verdict of two different statuses |
| `Homework.DecodeNoticeRoundTrip` | homework.py:115-121 | the notification text determines the homework name and the status: decoding it gives both back |
| `Homework.ParseStatusDecodes` | homework.py:119-121 | every message parse_status returns decodes to the record's own name text and status |
| `Homework.EmptyListMessageIsNoNotice` | homework.py:155-156 | the empty-list text cannot be mistaken for a status notification |
| `Homework.CheckTokens` | homework.py:124-139 | returns true exactly when none of the three credentials is missing (an empty string counts as present) |
| `JsonValues.Contains` | homework.py:105 | Python `in` with a str key: key membership on a dict, never failing on a dict, list or str, and TypeError on None, a bool or an int |
| `JsonValues.Subscript` | homework.py:109-110 | Python `[]` with a str key succeeds exactly on a dict holding the key and yields its value; a dict without the key gives KeyError |
| `JsonValues.Format` | homework.py:121 | an f-string inserts a str name verbatim and an int name in decimal |
| `JsonValues.Get` | homework.py:158 | `dict.get` yields the value under the key when present and the default otherwise |
| `MainLoop.Notification` | homework.py:152-156 | the inner `try`: a payload failing validation fails with the validator's error; an empty list gives `Список пуст`; otherwise the result is parse_status of element 0; it succeeds exactly when the payload is well shaped and its list is empty or its first record is reportable |
| `MainLoop.Step` | homework.py:150-161 | a tick sends a message exactly when it ends without failure; the message is the notification of the fetched payload; after a send the watermark is the payload's `current_date` if present and the previous watermark otherwise; a failed fetch, validation or parse sends nothing, reports the failure it raised and keeps the watermark |
| `MainLoop.StepSendsKnownText` | homework.py:152-157 | an empty list sends the empty-list text; otherwise the message sent decodes to the name and status of the first record |
| `MainLoop.OnlyFirstRecordMatters` | homework.py:153 | two payloads with the same first record and the same `current_date` make identical ticks, whatever the rest of their lists |
| `MainLoop.NoDeduplication` | homework.py:150-161 | the same successful answer on two consecutive ticks sends the same text on both |
| `MainLoop.FalsyCurrentDateMeansNow` | homework.py:63-64 | after a tick whose payload has a falsy `current_date`, the next request asks from that next tick's clock reading |
| `MainLoop.ApprovedRecordTick` | homework.py:150-158 | a payload with one approved record `hw1` and `current_date` 1000 sends `Изменился статус проверки работы "hw1". Работа проверена: ревьюеру всё понравилось. Ура!` and moves the watermark to 1000 |
| `MainLoop.ReplayOutboxBound` | homework.py:149-162 | the loop sends at most one message per tick |
| `MainLoop.ReplaySendsKnownText` | homework.py:149-162 | every message the loop sends is the empty-list text or a notification naming a documented status |
| `MainLoop.ReplayWhileUnreachable` | homework.py:159-161 | while every request fails in transport, the loop sends nothing and the watermark stays at its start value |
| `MainLoop.Run` | homework.py:142-162 | main stops before sending anything exactly when a credential is missing; otherwise the chat receives the greeting followed by the messages of the ticks in order, and the watermark is the one the ticks reach starting from the start-up clock reading |

## Left out

- The HTTP request itself (`requests.get`, the `Authorization` header, the endpoint URL) and JSON decoding: the API is a parameter, a function from the `from_date` sent to the reply received.
- Floating-point JSON numbers: the `Json` datatype has no float case.
- `JsonValues.Format`: `repr` of a str inside a list is written between single quotes without Python's escaping and quote choice, and a non-empty dict used as a homework name is written `{...}`, because the map keeps no key order.
- The order of keys in a JSON object and duplicate keys: objects are maps.
- Sending to Telegram (`send_message`) and building the bot: the chat is the list of messages sent, and a send never fails. The source catches `telegram.TelegramErrors`, a name the library is not shown to define; if it does not resolve, a failing send would escape to the outer handler and skip the watermark update of that tick. That case is not modelled.
- MainLoop.Run: `telegram.Bot(token=TELEGRAM_TOKEN)` is built at homework.py:144, before `check_tokens` runs at line 146, and its constructor (library code that is not part of this model) may reject a missing or malformed bot token by raising; the model assumes construction always succeeds, so "stops exactly when a credential is missing" holds only under that assumption.
- `time.time()`, `time.sleep(RETRY_TIME)` and the endless `while True`: each tick takes its clock reading as input, and `Run` runs a finite list of ticks.
- Logging (the configuration and every `logger` call) and the log text of each exception: errors carry their kind and, where one class is raised for several reasons, which check fired.
- Loading the environment and `exit()`: the three credentials are parameters, and `Run` returns `started = false` where the script exits.
- `Homework.CheckTokens`: that the scan stops at the first missing credential is visible only in the log line it writes, so the contract states the returned value only.
