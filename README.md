# homework_bot, modelled in Dafny

A model of the Telegram bot in `homework.py` that polls the Yandex Practicum
homework-status API and tells a student in a chat when a review status changes.
The model covers the bot's decisions: the check of the three credentials, the
status-code decision of the API call, the shape check of the API answer, the
parsing of one homework record into a notification, and the polling loop of
`main`, one iteration at a time and over a finite list of iterations. HTTP,
Telegram, the clock, sleeping and logging are replaced by inputs.

Files:

- `wrappers.dfy` — `Option` and `Result`.
- `json.dfy` — `JValue`, the decoded JSON answer, with the Python semantics the bot
  relies on: truthiness, `dict.get`, `type(v).__name__`, `str(v)` (decimal digits for
  integers, with a round-trip lemma).
- `exceptions.dfy` — `Error`: the bot's three exception classes and the built-in
  `KeyError`, `TypeError`, `AttributeError` and JSON-decoding error its code raises,
  with `str(error)`.
- `homework.dfy` — `VERDICTS` and the pure checks: `CheckTokens`, `GetApiAnswer`,
  `CheckResponse`, `ParseStatus`.
- `polling.dfy` — one loop iteration as a pure specification (`Iteration` for the
  `try` block, `Settle` for the `except` block, `StepSpec`, `Loop`, `RunSpec`), the
  class `Poller` whose fields are the loop's mutable state (`timestamp`, the messages
  `sent`) and whose `Step` method is proved against `StepSpec`, and `Run`, the whole of
  `main` over a finite list of rounds, proved against `RunSpec`.
- `polling_properties.dfy` — what one iteration and a whole run guarantee.

Inputs that stand for the outside world: `Tokens` (the three environment variables,
`None` when unset); `now` (`int(time.time())` at start-up); and per iteration a
`Round` holding the `HttpResult` (a transport failure with the text of the
`requests` exception, or a status code and a body that is either decoded JSON or not
JSON), and the `Delivery` outcome of each of the at most two `send_message` calls
(the status message and the failure report; a refusal carries the text of the
Telegram error).

Behaviour of the code that the model keeps as written, though a reader might expect otherwise:

- The credential check stops at the first unset variable, in the order
  `PRACTICUM_TOKEN`, `TELEGRAM_TOKEN`, `TELEGRAM_CHAT_ID`, and does not report the
  others. An empty value counts as present, since the test is `is None`.
- A transport failure and a non-200 status both raise `NotWrongHttpStatus`; there is
  no separate transport error.
- The three shape failures of the answer are `TypeError`, `KeyError` and `TypeError`,
  not one shape error.
- A failing iteration may already have delivered the status message: when the
  answer passes the checks but has no `current_date`, the status message goes out,
  then `KeyError('current_date')` is raised and the failure report goes out too, and
  the timestamp stays where it was.
- `current_timestamp` takes whatever JSON value the server put in `current_date`, so
  the model's timestamp is a `JValue`, not an integer.
- A `homework_name` that is truthy but not a string is rendered with `str()`; a
  truthy `status` that is a list or an object raises `TypeError` (unhashable), and one
  that is a number or a boolean raises `UnknownStatusHomework`. A record that is not a
  dict raises `AttributeError` at `.get`.

## Model

| member | source | states |
|---|---|---|
| Homework.CheckTokens | homework.py:39-50 | No credential is reported missing iff all three are set; otherwise the reported one is the first unset in the order PRACTICUM_TOKEN, TELEGRAM_TOKEN, TELEGRAM_CHAT_ID, whatever the later ones are |
| Homework.GetApiAnswer | homework.py:64-81 | The body is returned iff the request succeeded with status 200 (and the body is JSON), unchanged; a transport failure and every other status raise NotWrongHttpStatus, whose message for a bad status starts with the endpoint and ends with the status code |
| Homework.CheckResponse | homework.py:84-96 | Not a dict: TypeError; a dict without `homeworks`: KeyError; `homeworks` not a list: TypeError, tested in this order; success iff all three hold, returning the list unchanged, the empty list included |
| Homework.ParseStatus | homework.py:99-114 | A falsy `homework_name` gives KeyError before `status` is looked at; then a falsy `status` gives KeyError; a list or dict status TypeError; any other status outside the verdict table UnknownStatusHomework; success iff the name is truthy and the status is a verdict code, and the message is then exactly the prefix, the name, the closing quote and the verdict sentence |
| Homework.ParseStatusAcceptsExactlyVerdicts | homework.py:23-27 | For a record with a non-empty name, exactly `approved`, `reviewing` and `rejected` are accepted, each yielding its own fixed sentence; any other non-empty code is UnknownStatusHomework |
| Homework.StatusMessageInjective | homework.py:113-114 | Two records that give the same notification have the same rendered name and the same status: the notification determines the homework and its verdict |
| Homework.VerdictTailDecides | homework.py:23-27 | The three verdict sentences differ in their last two characters, so those characters decide the status |
| Json.DigitsRoundTrip | homework.py:78-80 | The decimal text the status code is rendered with reads back as the same number |
| Polling.CurrentDate | homework.py:136 | Reading `current_date` succeeds iff the key is present and then yields its value; otherwise it raises KeyError('current_date') |
| Json.Truthy | homework.py:103-110 | The `not` tests: a value is falsy exactly when it is `None`, `False`, `0`, `''`, `[]` or `{}` |
| Json.Decimal | homework.py:78-80 | `str()` of an integer: a non-negative one renders as canonical digits (at least one, no leading zero) that read back as the number, a negative one as `-` followed by the canonical digits of its magnitude |
| Json.TypeName | homework.py:101-111 | `type(v).__name__` in Python's error texts: one of `NoneType`, `bool`, `int`, `str`, `list`, `dict`, and `dict`, `list` and `str` exactly for objects, arrays and strings |
| Json.Get | homework.py:101-102 | `dict.get`: the value under the key when present, otherwise `None`, which is falsy |
| Json.Render | homework.py:114 | The f-string's `str()` of the name: a string is inserted as it is, an integer as its canonical decimal digits (read back as the same number, `-` first when negative), a boolean as `True` or `False`, `None` as `None` |
| Exceptions.Str | homework.py:140-141 | `str(error)`: a KeyError shows exactly its key between single quotes; every other error shows exactly the message it was raised with |
| Homework.StatusMessage | homework.py:114 | The notification is the fixed prefix, then exactly the name, then the closing-quote separator, then the verdict sentence of the status, and nothing else |
| Polling.SendError | homework.py:58-61 | A refused send raises NotSendMessage whose message starts with the fixed "message not sent" prefix |
| Polling.FailureReport | homework.py:141 | The failure report is the fixed prefix `Сбой в работе программы: ` followed by `str(error)` |
| Polling.Iteration | homework.py:129-136 | The `try` block delivers at most one message, and it is exactly `parse_status(homeworks[0])`, delivered only when Telegram accepted it; an exception from the fetch, from `check_response`, from `parse_status` or from the refused send is the block's exception and nothing is delivered; once the checks pass and the list is empty or its status message was delivered, the block's outcome is reading `current_date`, so it succeeds with that value or raises KeyError('current_date'); a new timestamp comes only from a 200 dict answer holding `current_date`, and is that value |
| Polling.Settle | homework.py:137-142 | After the `try` block: on success the timestamp is the new date, on an exception it stays; the chat keeps what the block delivered and gains exactly `FailureReport(e)` for the raised `e`, as its last message, when the block raised and the report was delivered; the loop crashes, with NotSendMessage carrying the Telegram error, iff the block raised and the report was refused |
| Polling.StepSpec | homework.py:128-142 | One iteration only appends to the chat, at most two messages, and the only exception that can escape it is NotSendMessage |
| Polling.Loop | homework.py:128-142 | A run of the loop ends crashed or still polling, never in the start-up stop |
| Polling.RunSpec | homework.py:117-142 | `main` stops at start-up when a credential is missing, and otherwise does not stop there |
| Polling.Poller.constructor | homework.py:126 | The loop starts at the start-up time with no message sent |
| Polling.Poller.Send | homework.py:53-61 | A delivered message is appended to the chat and nothing is raised; a refused one leaves the chat as it was and raises NotSendMessage carrying the Telegram error |
| Polling.Poller.Attempt | homework.py:129-136 | The `try` block leaves the timestamp alone, delivers exactly what `Iteration` says and yields its new timestamp or exception |
| Polling.Poller.Step | homework.py:128-142 | One loop iteration changes the timestamp and the chat exactly as `StepSpec` says, and reports whether an exception escaped |
| Polling.Run | homework.py:117-142 | `main` over a finite list of rounds ends exactly as `RunSpec` says: stopped by the credential check, crashed by an escaping exception, or still polling |
| PollingProperties.StepSuccessPath | homework.py:130-137 | A 200 answer that passes the checks moves the timestamp to `current_date`; one message, the status of the first homework, is sent iff the list is non-empty |
| PollingProperties.StepFailurePath | homework.py:139-142 | When the `try` block raises, the timestamp stays and exactly one failure report is appended after what the block delivered; a refused report escapes the loop as NotSendMessage |
| PollingProperties.StepOnBadStatus | homework.py:73-80 | A failed request or a non-200 reply delivers nothing, raises NotWrongHttpStatus and leaves the timestamp |
| PollingProperties.LoopAppendsNotifications | homework.py:128-142 | Over a run the chat history only grows, by at most two messages per round, and every new message is a status message or a failure report |
| PollingProperties.LoopCrashesOnlyOnRefusedReport | homework.py:139-142 | Only NotSendMessage escapes the loop, and a run crashes iff some reached round has a failing `try` block and a refused failure report |
| PollingProperties.StartUp | homework.py:122-126 | For every list of rounds, `main` stops at start-up iff a credential is missing; otherwise it is the loop run from the start-up time with an empty chat |
| PollingProperties.StepOnMissingCurrentDate | homework.py:133-141 | A 200 answer with an approved homework and no `current_date` sends the status message, then the report of KeyError('current_date'), and keeps the timestamp |
| PollingProperties.StepOnUnknownStatus | homework.py:111-112 | A 200 answer whose first homework has status `unknown_code` sends no status message, sends the UnknownStatusHomework failure report and keeps the timestamp |
| PollingProperties.EmptyHomeworksExample | homework.py:131-136 | A 200 answer with an empty list moves the timestamp and sends nothing |
| PollingProperties.ServerErrorExample | homework.py:76-80 | A 500 reply leaves the timestamp and sends the failure report naming the endpoint and code 500 |

## Left out

- The HTTP request (`requests.get`, its headers and the `from_date` parameter) and the JSON decoding of the body: replaced by the `HttpResult` input; the model does not record which `from_date` was requested.
- The Telegram `Bot` and its network calls: a send is an append to `sent` or a refusal given by a `Delivery` input.
- Polling.RunSpec: the `Bot` is constructed with `TELEGRAM_TOKEN` before the credential check (homework.py:120-122), and with that variable unset the library raises there, so `main` never reaches `sys.exit(0)`. The model does not construct the `Bot`: `Stopped` for an unset `TELEGRAM_TOKEN` is the model's simplification, not what `main` does.
- Logging (its configuration and every log call): it has no effect on results. This includes the "no tasks" line logged even when there are homeworks.
- `load_dotenv`/`os.getenv`: the tokens are a parameter. `time.time`: the start time is a parameter. `time.sleep(RETRY_PERIOD)`: the 600-second pause has no effect on the state and is not modelled.
- `sys.exit(0)`: modelled as the `Stopped` outcome; the process exit code is not.
- The unbounded `while True`: the model runs a finite list of rounds.
- Json.Render: `str()` of an array- or object-valued `homework_name` is Python's `repr` of the container, which the model does not reproduce; it renders such a name as `[...]` or `{...}`.
- JSON floating-point numbers are not among the modelled values.
- The texts of the `requests` and Telegram exceptions and of the JSON-decoding error are inputs, not computed.
- Exceptions.Str: a `KeyError` is rendered between single quotes without Python's escaping, which is exact for the fixed keys the bot raises.
