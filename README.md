# Lead messages and reply grading: a Dafny model

This project models the core of a small Django messaging app. The app stores
synthetic "lead" messages, takes a human reply to each lead, and has an LLM
grading agent score the reply through one tool, `generate_report`. A grade is
a scorecard: six integer scores, each with a rationale text.

The model covers:

- the two tables of `messaging/models.py`, with their constraints
  (module `Models`);
- the handlers and the grading tool of `messaging/views.py` (module `Views`);
- Python's `str.strip()`, on which both the reply form and the tool depend
  (module `PyText`).

The database, together with the class attribute `ReplyView.scorecard_id`, is
one object, `Views.App`. Its fields are:

- `messages`, a map from uuid to `Message` row;
- `scorecards`, a map from id to `Scorecard` row;
- `nextScorecardId`, the auto-increment counter for scorecard ids;
- `scorecardId`, the class attribute.

`App.Valid()` holds the table constraints the app relies on:

- every message row is stored under its own id (primary key);
- every link names a stored scorecard (foreign key);
- no two messages link the same scorecard (one-to-one);
- every stored score is set and lies in 1..10 (NOT NULL and the six check
  constraints).

It also holds three invariants that no table enforces. The application's
own code keeps them:

- a row's reply and reply time are set together;
- every scorecard id lies below the auto-increment counter;
- `ReplyView.scorecard_id`, once set, names a stored scorecard.

Every method that changes the state keeps `Valid()`.

The model takes outside values as parameters:

- the two LLM agents: the shopper's text for a new lead, and the grading
  agent's choice of no tool call or one `generate_report` call;
- `uuid4()`;
- `datetime.now()`.

Behaviour worth noting, modelled as the code does it:

- `generate_report` accepts only scores in 1..5 (`ToolScoreMin`,
  `ToolScoreMax`), while the table accepts 1..10. So a report with all six
  scores at 7 is refused by the tool, although the table would store it
  (`ToolRangeNarrowerThanStore`).
- Grading runs synchronously inside `ReplyView.post`. It is not a background
  task.
- `grade_response` does not take the id from this call's report. It copies
  the class attribute `ReplyView.scorecard_id`, whether or not the tool ran
  in this call. After an accepted report that attribute holds the new id, so
  the reply gets its own scorecard (`FirstReplyGraded`). When the agent makes
  no accepted call, the attribute keeps its previous value: `None` at first,
  and after that the scorecard of an earlier reply.
- Linking a scorecard that another message already holds is refused by the
  UNIQUE index behind the `OneToOneField`. The save then raises inside
  `post`, nothing catches it, and the request fails with 500. By then the
  reply has already been logged. `StaleScorecardIdScenario` proves this from
  an empty database: the first reply gets an accepted report, the second gets
  no tool call. Relinking the same message to the scorecard it already holds
  is not refused.
- The class attribute lives only as long as the server process, while the
  tables persist. `App.Restart` resets the attribute to `None`. After a
  restart, answering an already graded message again with no tool call sets
  its link to `None` and drops its scorecard (`RestartDropsLink`).
- `InitiateLead.post` always asks the shopper agent for the lead text. There
  is no way for the caller to supply it.

The `ScoreField` validators run only on `full_clean()`. `objects.create`
never calls them, so on insert only the database's NOT NULL and check
constraints apply. `App.CreateScorecard` enforces exactly those.

## Model

| member | source | states |
|---|---|---|
| `PyText.Strip` | messaging/views.py:142 | `strip()` is empty exactly when the text is all whitespace; otherwise its first and last characters are not whitespace |
| `PyText.StripKeepsMiddle` | messaging/views.py:142 | `strip()` drops only a whitespace prefix and a whitespace suffix; what remains is the middle of the input, unchanged |
| `PyText.StripIdempotent` | messaging/views.py:142 | stripping an already stripped reply changes nothing |
| `PyText.IsWhitespace` | messaging/views.py:142 | the characters Python's `str.isspace()` accepts, which `strip()` removes: TAB..CR, U+001C..U+001F, SPACE, NEL, NO-BREAK SPACE, and the Unicode space, line and paragraph separators |
| `Models.Accepts` | messaging/models.py:14 | `MinValueValidator(m)` rejects values below `m`, `MaxValueValidator(m)` values above `m`, and a caller's validator rejects what it rejects |
| `Models.AcceptsAll` | messaging/models.py:13-16 | a value is clean exactly when every validator of the field accepts it |
| `Models.ScoreFieldValidators` | messaging/models.py:10-17 | the field's validators are the caller's (none when absent or `None`), in order, followed by `MinValueValidator(1)` and `MaxValueValidator(10)` |
| `Models.ScoreFieldAcceptsRange` | messaging/models.py:12-16 | a `ScoreField` accepts a value exactly when the caller's validators do and the value is in 1..10 |
| `Models.Channel.Code` | messaging/models.py:27-45 | each of the three channel values fits the column's `max_length` of 20 |
| `Models.ChannelFromCode` | messaging/models.py:30-34 | a stored type reads back as the one channel with that code, and as nothing outside FACEBOOK, EMAIL, SMS |
| `Models.NewMessage` | messaging/models.py:36-56 | a new row has the type given, EMAIL by default, the lead stamped with the creation time, and no reply, reply time or scorecard |
| `Models.LogResponse` | messaging/models.py:58-61 | `log_response` sets the reply and its time together, so the row is paired afterwards; id, type, lead, lead time and link keep their values |
| `Models.LinkedAtMostOnce` | messaging/models.py:50-56 | under the one-to-one constraint, a scorecard is linked from at most one message |
| `Models.SaveKeepsMessagesValid` | messaging/models.py:50-56 | a paired row whose link names a stored scorecard held by no other row keeps the message table valid when saved |
| `Models.StoredScore` | messaging/models.py:99-124 | one score column accepts a value exactly when it is set (NOT NULL) and its check constraint `score >= 1 AND score <= 10` holds |
| `Models.SatisfiesConstraints` | messaging/models.py:65-124 | a scorecard row is accepted exactly when all six score columns pass NOT NULL and their range check |
| `Models.OverallScore` | messaging/models.py:79-96 | `overall_score` fails with the `ValueError` message exactly when a score is unset; otherwise six times the result equals the sum of the six scores |
| `Models.StoredOverallScoreInRange` | messaging/models.py:86-124 | every row the table accepts has an overall score, and it lies in 1..10 |
| `Models.SumWithin` | messaging/models.py:96 | a sum of values that all lie in lo..hi lies between count·lo and count·hi |
| `Views.ToolStatus.Text` | messaging/views.py:92-121 | the tool's reply starts with "Success:" for a generated report and with "Failure:" for both refusals |
| `Views.AllWithin` | messaging/views.py:82-91 | the score check passes exactly when every score lies in the range |
| `Views.AllProvided` | messaging/views.py:93-102 | the rationale check passes exactly when no rationale is blank |
| `Views.CheckReport` | messaging/views.py:82-103 | the scores are checked first: a score outside 1..5 is refused; with the scores in range, a blank rationale is refused; a report is accepted exactly when both checks pass |
| `Views.ScorecardOf` | messaging/views.py:105-119 | the `objects.create` call sets all six scores, and each score and each rationale column takes the argument of the same name |
| `Views.AcceptedReportIsStorable` | messaging/views.py:82-119 | an accepted report makes a row the table accepts (1..5 lies inside 1..10), with non-blank rationales and an overall score in 1..5 |
| `Views.ToolRangeNarrowerThanStore` | messaging/views.py:82-92 | a report whose scores all lie in 1..10, with one of them in 6..10, is storable but refused by the tool |
| `Views.Response.StatusCode` | messaging/views.py:31-153 | 201 for a created lead, 302 for the redirect, 400 and 404 for the client's errors, 500 for a failed insert or save; each response falls in its own status class |
| `Views.OrderNewestFirst` | messaging/views.py:45 | orders a set of rows into a list holding each row once, newest lead first |
| `Views.App.MessageList` | messaging/views.py:41-48 | lists exactly the messages with no reply, each once, newest lead first |
| `Views.App.constructor` | messaging/views.py:52 | starts with empty tables and `ReplyView.scorecard_id = None` |
| `Views.App.InitiateLead` | messaging/views.py:25-37 | stores a new EMAIL row with the agent's text and answers 201 with its id; an id already in use fails the insert and gives 500 with nothing changed |
| `Views.App.Restart` | messaging/views.py:52 | a new server process starts `ReplyView.scorecard_id` again at `None`; the tables keep their rows and stay valid |
| `Views.App.CreateScorecard` | messaging/models.py:98-124 | an insert succeeds exactly when all six scores are set and in 1..10; it then takes the next id; otherwise nothing changes |
| `Views.App.GenerateReport` | messaging/views.py:56-121 | returns the status of the two checks; on acceptance stores one scorecard holding the twelve arguments under a new id and writes that id to `ReplyView.scorecard_id`; on refusal changes nothing; never touches a message |
| `Views.App.GradeResponse` | messaging/views.py:123-138 | after the agent's call (if any), links the message to `ReplyView.scorecard_id` as it then stands, stale or `None` when no report was accepted; the save succeeds exactly when no other message holds that link, else nothing changes |
| `Views.App.SaveResponse` | messaging/views.py:147 | logging a reply changes only that message row and keeps the tables valid |
| `Views.App.Post` | messaging/views.py:140-153 | the status is 404 exactly when the id is unknown and 400 exactly when the reply is missing or blank, and neither changes anything; otherwise the stripped reply is logged at `now` and graded, then the handler redirects, or answers 500 when the link is refused, with the reply still logged |
| `Views.FirstReplyGraded` | messaging/views.py:120-138 | after two leads and an accepted report for the first reply, the first message holds scorecard 1 and `ReplyView.scorecard_id` is 1 |
| `Views.StaleScorecardIdScenario` | messaging/views.py:135-138 | when the agent makes no tool call for the second reply, that message is given scorecard 1 again, the save is refused, and the request answers 500 with the reply logged and no scorecard linked |
| `Views.RestartDropsLink` | messaging/views.py:135-138 | after a restart, answering the graded first message again with no tool call redirects, logs the new reply and sets the message's link to `None`, while scorecard 1 stays stored |

## Left out

- The LLM library (`Agent`, `ToolBox`, `chat_once`) is foreign code. The
  grading exchange is modelled as zero or one `generate_report` call with any
  arguments. The shopper's answer is modelled as any string. The model does
  not cover several tool calls in one exchange.
- A raising `chat_once` is left out, both the shopper's call
  (messaging/views.py:21) and the grading agent's (messaging/views.py:135).
  Neither call sits inside a `try`, so a raise from either answers 500.
  - In `InitiateLead.post` nothing is stored. `App.InitiateLead` always
    answers 201 for an unused id.
  - In `ReplyView.post` the reply is already logged and the message's link
    is left as it was. `App.Post` answers with a redirect or a 500 that
    depends only on the link.
  - The tool may already have stored a scorecard and set
    `ReplyView.scorecard_id` before the exchange raised. That scorecard is
    then held by no message. The next reply graded with no tool call is
    linked to it, so that message carries the scorecard that graded another
    message's reply. The model cannot reach this state: in it, an accepted
    report always links the reply's own new scorecard.
- The persona files, the model names, the history limits and the grading
  prompt text (messaging/views.py:16-23 and 124-134) are only inputs to the
  agents. Since the agents' choices are free parameters, these inputs change
  nothing in the model.
- The 500 answer when `log_response` fails (messaging/views.py:148-149) is
  left out. That save rewrites every column, but with the values just read
  plus the reply and its time, so no table constraint can refuse it.
  Database outages are not modelled.
- `print` (messaging/views.py:136), templates and `render`, `redirect` targets
  other than "the list", `InitiateLead.get`, and URL routing are left out.
  They are plumbing with no state.
- messaging/admin.py is left out: it formats scores for display and swallows
  errors there.
- `ScoreField.__str__` is a display string, left out.
- `Models.OverallScore` uses exact rationals. Python divides in binary
  floating point, so the real result can differ in the last bits.
- `Models.Uuid` and `Models.Time` are plain integers. Naive `datetime`
  values, time zones and the random choice in `uuid4()` are not modelled.
- The Django model instance and its row are one value. Every `save()` writes
  every column, and `post` uses the instance right after reading or saving
  it, so the two cannot differ there.
- Each worker process of the server has its own copy of
  `ReplyView.scorecard_id`. The model has one server process, handling one
  request at a time; `App.Restart` covers only the loss of the attribute.
  Which worker serves a request, and races between workers, are not
  modelled.
- The 500 answer with the reply still logged assumes each request does not
  run inside one database transaction. That is Django's default
  (`ATOMIC_REQUESTS` off). The project's settings are not part of this
  model.
- The display labels of `MESSAGE_TYPES` (messaging/models.py:31-33) are
  left out: nothing in the core reads them.
- Choice validation of the `type` column runs only in `full_clean()`. The
  model's `Channel` type admits only the three choices, so a row with any
  other type cannot be represented.
