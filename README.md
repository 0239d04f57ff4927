# Homework-status bot: a Dafny model

The bot polls the Yandex Practicum homework-status API and forwards the newest
status to a Telegram chat. Each pass of its endless loop fetches the answer,
classifies it, validates the newest homework, formats a "status changed"
notification, sends it, and sleeps for `RETRY_TIME`. Every exception raised on
the way is caught and reported to the chat as `ERROR_MESSAGE`. This project
models that pipeline in `homework.py`.

- `python_values.dfy`, module `PyValues`: decoded JSON values (`Json`),
  `Option`/`Result`, and `str()` of a substituted field (`Show`).
- `homework.dfy`, module `Homework`: the exceptions a pass can raise (`Error`).
  It also holds Python's `v['key']` and `v[0]` on JSON values, the `VERDICTS`
  table as the enumeration `Status` with `Key` and `Verdict`, the `NEW_STATUS`
  template and its inverse `ReadNewStatus`, and the decision `get_api_answer`
  takes once the request has returned (`Classify`, `GetApiAnswer`). Finally it
  has `check_response` (`CheckResponse`), `parse_status` (`ParseStatus`) and
  the body of the loop's `try` before the send (`StatusText`).
- `poll_loop.dfy`, module `PollLoop`: `main`. The messaging bot is a class
  `Bot` whose `attempts` field records every `send_message` call. `Iterate` is
  one pass with its exception handler. `Run` is a bounded number of passes
  with the cursor fixed at `now - RETRY_TIME`. `Transcript` specifies what a
  run sends.

Behaviour of the code worth noting:
- An empty `homeworks` list raises `IndexError`, and an error notice is sent.
  It is not a silent no-op.
- The cursor is never advanced to the server's `current_date`.
- A payload `{"error": "bad_request"}` raises `TypeError` while the server
  error message is being built (line 87 subscripts the string). It never
  produces the server error itself (`PlainErrorPayloadNotice`).
- The test at line 84, `'code' and 'error' in answer.keys()`, reduces to
  `'error' in answer.keys()`, because the literal `'code'` is truthy. The
  model classifies on the `error` key alone (`Classify`, `CodeKeyIgnored`).
- `response.json()` runs before the status code is checked. So a non-JSON
  body gives a decode error whatever the code.

## Model

| member | source | states |
|---|---|---|
| `Homework.StatusOf` | homework.py:17-21 | a key maps to a status exactly when it is that status's key in the verdict table, so the lookup is total on the three keys and fails on every other string |
| `Homework.InVerdicts` | homework.py:119 | `status in VERDICTS` raises for a list or dict and is true exactly for the strings `approved`, `reviewing`, `rejected` |
| `Homework.LookupVerdict` | homework.py:110 | `VERDICTS[status]` gives the mapped verdict text for a known key; any other hashable value raises `KeyError` naming that value |
| `Homework.ReadNewStatusRoundTrip` | homework.py:40 | reading a formatted status-change text gives back the substituted name and the status |
| `Homework.ReadNewStatusSound` | homework.py:40 | every text the reader accepts is the template with that name and that status's verdict substituted |
| `Homework.NewStatusInjective` | homework.py:17-21 | the three verdict texts are distinct: two notifications are equal only for the same name and the same status, so the status is recoverable from the verdict |
| `Homework.Classify` | homework.py:84-103 | an `error` key means a server error whatever the code; otherwise a code other than 200 means a request error; otherwise the answer is accepted |
| `Homework.GetApiAnswer` | homework.py:83-103 | succeeds exactly on a 200 JSON object without `error`, returning it unchanged; a non-JSON body fails before the code is looked at; a non-object fails on `.keys()`; an `error` key gives the server error carrying `error.error`, the code and the `from_date`, or the exception raised while reading `error.error`; otherwise a non-200 code gives the request error with the code and `from_date` |
| `Homework.CodeKeyIgnored` | homework.py:84 | adding a `code` key to an answer never changes whether it is accepted, and changes nothing at all when `error` is present; this follows from `Classify` taking only the presence of `error` and the status code, which is where the reading of line 84 is stated |
| `Homework.CheckResponse` | homework.py:114-121 | accepts exactly when `homeworks` is a non-empty list whose first item has a known status, and then returns that item; a missing `homeworks` key, an empty list and a first item without `status` each raise their own error; `BadStatus` is raised exactly for a hashable status outside the table, and it names that status |
| `Homework.CheckResponseReadsFirstOnly` | homework.py:114-121 | two responses with the same first homework get the same result, whatever else they contain |
| `Homework.ParseStatus` | homework.py:106-111 | succeeds exactly when the homework has a name and a known status, and then yields the template with the rendered name and that status's verdict; a missing name is reported before the status is looked at; a hashable status outside the table raises `KeyError` naming it |
| `Homework.AcceptedHomeworkFormats` | homework.py:106-121 | a homework accepted by `check_response` that has a name always formats, and its text reads back as that name and status |
| `Homework.StatusText` | homework.py:134-136 | fetch, validate and format succeed exactly for a 200 answer without `error` whose first homework has a name and a known status, and the text is the template filled with them |
| `PollLoop.RoundAttempts` | homework.py:133-141 | a pass sends the status text on success and the error notice on any exception; if sending the status text itself raises, that is followed by the notice of the send failure |
| `PollLoop.Bot.constructor` | homework.py:129 | a new bot has sent nothing |
| `PollLoop.Bot.SendMessage` | homework.py:63-66 | a call records exactly one more attempt, with the message, and raises when delivery fails |
| `PollLoop.Iterate` | homework.py:133-141 | the bot's attempts grow by exactly the pass's messages, and the pass crashes exactly when the send in the handler raises |
| `PollLoop.Run` | homework.py:130-142 | the cursor is `now - RETRY_TIME` and stays so; passes run until the rounds are used up or one crashes; the bot receives exactly the run's transcript |
| `PollLoop.TranscriptStopsAtCrash` | homework.py:138-141 | after a pass whose handler send raised, later passes send nothing |
| `PollLoop.TranscriptOnePerRound` | homework.py:132-141 | when no send fails, every pass sends exactly one message: the status text on success, the error notice otherwise |
| `PollLoop.TranscriptLength` | homework.py:132-141 | a run sends at most two messages per pass, and at least one per pass when no pass crashed |
| `PollLoop.GetApiAnswerReportsCursor` | homework.py:86-101 | an error from a pass that reports the request parameters reports the cursor the pass queried with |
| `PollLoop.TranscriptReportsCursor` | homework.py:130-142 | every error notice of a run that carries a `from_date` carries the run's one cursor; the fixed cursor itself is stated by `Run`, which passes the same `now - RETRY_TIME` to every pass |
| `PollLoop.ApprovedAnswerNotice` | homework.py:133-137 | an answer whose newest homework `hw1` is approved gives one notice with `hw1` and the approved verdict; `current_date` is ignored |
| `PollLoop.PlainErrorPayloadNotice` | homework.py:84-93 | an `error` payload that is a plain string ends in a `TypeError` notice, not a server error |

## Left out

- HTTP transport: `requests.get` is an input (`Fetched`). It either raised (`Unreachable`) or returned a status code with a body that did or did not decode as JSON. The `except ConnectionError` re-raise and the text of transport exceptions are not modelled. Both end in the loop's handler either way.
- The endpoint URL argument: `main` always passes `ENDPOINT`, which is also what the error templates print.
- Error message text: `SERVER_ERROR`, `REQUEST_ERROR`, `BAD_STATUS` and `ERROR_MESSAGE` are constructors carrying their fields. Python's rendering of `HEADERS`, the payload and `str(exception)` is not modelled.
- `PyValues.Show`: a `homework_name` that is a list or a dict is rendered as a fixed placeholder, not Python's repr. Strings, `None`, booleans and integers are rendered as Python does.
- JSON floats: numbers are integers. A float status behaves like any other hashable non-string value.
- The Telegram library: `bot.send_message` is an attempt recorded by `Bot.SendMessage`. Whether it raises is an input. Delivery, `CHAT_ID` and the exception's type are not modelled.
- Logging (`RotatingFileHandler`, console handler, `logger.info`/`error`/`critical`), `load_dotenv` and `os.getenv`. The environment-variable check at lines 126-128 only logs and does not stop `main`.
- `time.time()` is the parameter `now` of `Run`. `time.sleep(RETRY_TIME)` is left out. The endless `while True` is modelled as a finite sequence of passes.
