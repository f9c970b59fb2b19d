# KPI question agent: query pipeline, chart formatting and ingestion trigger

A Dafny model of the client- and server-side logic of a small Next.js dashboard.
A user asks a question about marketing KPIs (CAC, ROAS). The question goes to
`POST /api/agent`, which forwards it to an n8n workflow under a deadline. The
answer is validated against a schema and turned into chart data. It is then
shown in a conversation list. A second button triggers a one-shot ingestion
workflow and reports its result in a dialog.

Modules:

- `Wrappers`: `Option` and `Result`.
- `JsonValues`: JSON values, property access, JavaScript truthiness and the `??` (nullish) test.
- `Text`: `String.prototype.trim` over the ECMAScript white-space set, and decimal rendering of a status code.
- `Numbers`: the number sentinel (`Num = Option<real>`) and the delta-percentage label `FmtDelta`. Both `components/AgentForm.tsx` and `components/MetricsChart.tsx` define that label identically, so it is defined once here.
- `MetricsChart`: axis, bar-label and tooltip text of the bar chart.
- `AgentSchema`: `AgentResponseSchema` as a validator over `Json`, with the defaults it applies.
- `AgentMetrics`: `toNum`, the two period rows, the deltas and the metric rows built in `onSubmit`.
- `AgentForm`: the conversation, as class `Conversation` with fields `msgs`, `loading`, `error` and `prompt`. Its methods are `Submit`, `ResolveSuccess`, `ResolveFailure` and `Settle`. In-flight requests are modelled as separate calls, so any interleaving of their replies is just a different call order.
- `AgentRoute`: the `POST` handler, as a pure decision `Post` and a class `Endpoint`. The class records its effects (arm timer, call engine, clear timer) in a log. A ghost flag `armed` is true while the deadline timer is running.
- `Ingest`: the ingestion button, as class `IngestButton` with `Click` (up to the `await`) and `Complete` (after it). It has pure functions that classify the result.

### Abstract inputs

Inputs that cannot be computed here are parameters:

- `parse: string -> Num` is JavaScript's `Number(s)`.
- `fixed2` is `toFixed(2)`.
- `nfAxis` and `nfLabel` are the `Intl.NumberFormat` instances.
- `numText` is how a template literal prints a number.
- The outcome of each network call is an input value: `AgentReply`, `Upstream` or `Ingest.Reply`.
- Message ids are method parameters. `Submit` requires them to be distinct and unused.

### `Num`

`Num` keeps a finite number as `Some(x)`. It folds NaN (the "no data" sentinel) and the infinities into `None`. Every consumer asks `Number.isFinite` of these numbers, except the tooltip's fallback, which prints the value itself (see `MetricsChart.TooltipText` under "Left out").

### Behaviour of the code worth knowing (the model follows the code)

- With no metrics in the answer, `chartData` is not absent. It is always the two period rows, each holding no data and an empty raw string (`AgentMetrics.AbsentMetricHasNoData`).
- The endpoint does not trim the question. A question made of spaces is forwarded (`AgentRoute.BlankQuestionForwarded`).
- A failure settles every agent message still loading, not only the one of the failed request. A success that arrives later still replaces its message by id, so an already failed message can change again (`AgentForm.FailureSettlesOtherRequest`).
- The metric rows (`rows`) built in `onSubmit` are never used afterwards. They are modelled as they are built (`AgentMetrics.BuildRows`).
- A request body that is JSON `null` cannot be destructured. The handler throws before answering (`Reply.Uncaught`).
- Zod's `.optional()` accepts only an absent key. A key present with `null` is a schema violation.

## Model

| member | source | states |
|---|---|---|
| `Text.SkipSpaces` | components/AgentForm.tsx:70 | the scan stops at the first character that is not white space (or the end), having passed only white space |
| `Text.SkipSpacesBack` | components/AgentForm.tsx:70 | the backward scan stops after the last character that is not white space (or at its bound), having passed only white space |
| `Text.Trim` | components/AgentForm.tsx:70-73 | the trimmed text is no longer than the input, and it is empty exactly when the input is all white space |
| `Text.TrimEnds` | components/AgentForm.tsx:70 | trimming removes only a leading and a trailing run of white space, and the kept text has no white space at either end |
| `Text.TrimKeepsTrimmed` | components/AgentForm.tsx:70 | a string without white space at its ends is unchanged |
| `Text.TrimIdempotent` | components/AgentForm.tsx:70 | trimming an already trimmed string changes nothing |
| `Text.DecimalString` | components/AgentForm.tsx:110 | the status text is a non-empty string of decimal digits that denotes the status (`DigitsValue`), with no leading zero; one digit exactly below 10 |
| `AgentSchema.ParseOptionalString` | components/AgentForm.tsx:8 | an optional string field is accepted iff it is absent or a string, and keeps that string |
| `AgentSchema.ParseDefaulted` | components/AgentForm.tsx:18-19 | `previous`/`delta_pct` are accepted iff absent or a string; the absent ones become `''` |
| `AgentSchema.ParseWindow` | components/AgentForm.tsx:9-14 | a window is accepted iff absent, or an object with string `start` and `end`, which it keeps |
| `AgentSchema.ParseMetric` | components/AgentForm.tsx:15-28 | a metric is accepted iff absent, or an object with a string `current` and optional string `previous`/`delta_pct`; the result keeps `current` and defaults the other two to `''` |
| `AgentSchema.Validate` | components/AgentForm.tsx:7-29 | answer accepted iff it is an object whose present schema fields all have the schema's types |
| `AgentSchema.ValidateKeepsFields` | components/AgentForm.tsx:7-29 | an accepted answer has exactly the schema fields the input had, with the input's strings and `''` for an absent `previous`/`delta_pct` |
| `AgentSchema.RejectsMetricWithoutCurrent` | components/AgentForm.tsx:15-28 | a present `cac`/`roas` whose `current` is not a string is rejected |
| `AgentSchema.RejectsIncompleteWindow` | components/AgentForm.tsx:9-14 | a present `window` without string `start` or `end` is rejected |
| `AgentSchema.WindowRoundTrip` | components/AgentForm.tsx:9-14 | a window written as JSON parses back to the same window |
| `AgentSchema.MetricRoundTrip` | components/AgentForm.tsx:15-28 | a metric written as JSON parses back to the same metric |
| `AgentSchema.RevalidateIsIdentity` | components/AgentForm.tsx:7-29 | validating the normalised answer as data again returns it unchanged |
| `AgentSchema.ValidateIdempotent` | components/AgentForm.tsx:113-117 | re-validating an accepted answer gives the identical normalised result |
| `AgentMetrics.ToNum` | components/AgentForm.tsx:62-64 | an absent or empty string is the no-data sentinel; any other string is `Number(s)` |
| `AgentMetrics.MissingIsNotZero` | components/AgentForm.tsx:61-64 | example: when `Number("0")` is zero, the empty string (no data) and `"0"` give different values |
| `AgentMetrics.PeriodData` | components/AgentForm.tsx:124-139 | exactly two rows, Previous then Current; they hold `previous`/`current` raw (`''` when the metric is absent), and each plotted number is `toNum` of the raw string shown with it |
| `AgentMetrics.AbsentMetricHasNoData` | components/AgentForm.tsx:119-139 | an absent metric gives no data and raw `''` in both period rows |
| `AgentMetrics.DeltasOf` | components/AgentForm.tsx:141-144 | deltas are `toNum` of each metric's `delta_pct`; no data for an absent metric |
| `AgentMetrics.RowOf` | components/AgentForm.tsx:150-163 | a metric's row carries its series and `toNum` of `current`, `previous` and `delta_pct`; an empty `previous` or `delta_pct` is no data |
| `AgentMetrics.BuildRows` | components/AgentForm.tsx:148-164 | a CAC row iff CAC is present and a ROAS row iff ROAS is present, CAC first; each row holds `toNum` of `current`, `previous` and `delta_pct` |
| `AgentMetrics.AnswerLabelsShowRaw` | components/MetricsChart.tsx:69-72 | when the chart passes the period row as the formatter's entry, every bar label of an answer's chart data is the raw string of its metric and period, never the numeric fallback |
| `MetricsChart.LabelWithoutEntry` | components/MetricsChart.tsx:69-72 | when the formatter is called without an entry, the label is the dash |
| `Numbers.FmtDelta` | components/AgentForm.tsx:200-205 | the label is a dash exactly when the value is not finite; otherwise it ends with `%` |
| `Numbers.FmtDeltaSign` | components/MetricsChart.tsx:46-50 | a finite delta's label starts with `+` exactly when the delta is positive, and is the two-decimal rendering of 100 times the value followed by `%` |
| `Numbers.FmtDeltaExample` | components/AgentForm.tsx:200-205 | example: a delta of -0.072456 renders as `-7.25%`, given that `toFixed(2)` of -7.2456 is `-7.25` |
| `MetricsChart.SeriesNamed` | components/MetricsChart.tsx:57-58 | the names `'CAC'` and `'ROAS'`, and only they, select a series |
| `MetricsChart.FmtFinite` | components/MetricsChart.tsx:38-45 | `fmtAxis`/`fmtLabel`: a non-finite value is a dash; a finite one is given by the formatter |
| `MetricsChart.TooltipText` | components/MetricsChart.tsx:53-58 | for CAC/ROAS the row's raw string when it has one, otherwise the value; any other series shows the value |
| `MetricsChart.TooltipSuffix` | components/MetricsChart.tsx:60-64 | a suffix exists iff the row is Current, the series is CAC or ROAS, and that series' delta is finite; it is ` (Δ <FmtDelta>)` |
| `MetricsChart.Tooltip` | components/MetricsChart.tsx:53-67 | the tooltip is that text plus that suffix, with the series name returned unchanged |
| `MetricsChart.PreviousHasNoSuffix` | components/MetricsChart.tsx:55-64 | a Previous row never gets a delta suffix |
| `MetricsChart.BarLabel` | components/MetricsChart.tsx:69-72 | a bar label is the raw string whenever the row has one, including `''`; otherwise it is `fmtLabel` of the value |
| `AgentForm.Pending` | components/AgentForm.tsx:88-95 | the placeholder answer has the bot id, is loading, shows `'Consultando…'`, has no chart data, window or deltas, and a failure turns it into the failure text |
| `AgentForm.Answered` | components/AgentForm.tsx:167-183 | the completed answer keeps its id, stops loading and has the answer text, the period rows, the deltas and the window's start/end (absent without a window) |
| `AgentForm.Settled` | components/AgentForm.tsx:186-192 | a loading agent message becomes not loading with the failure text, keeping its other fields; every other message is unchanged |
| `AgentForm.ErrorText` | components/AgentForm.tsx:193 | the error line is the thrown message, or `'Erro inesperado'` when that message is empty; it is never empty |
| `AgentForm.ReplyOutcome` | components/AgentForm.tsx:102-117 | success iff the response is ok and its JSON conforms. A non-conforming answer fails with the schema message; an HTTP failure fails with its body, or `HTTP <status>` when the body is empty; a network failure or an unreadable body fails with its own message |
| `AgentForm.Conversation.constructor` | components/AgentForm.tsx:44-59 | starts with no messages, not loading, no error and an empty prompt |
| `AgentForm.Conversation.SetPrompt` | components/AgentForm.tsx:312 | typing replaces the prompt |
| `AgentForm.Conversation.Submit` | components/AgentForm.tsx:66-100 | clears the error. A blank prompt leaves messages, loading and prompt as they were and sends nothing. Otherwise it sends the trimmed text, appends the user message and the pending answer (in that order, old messages untouched), clears the prompt and starts loading |
| `AgentForm.Conversation.ResolveSuccess` | components/AgentForm.tsx:166-196 | only the message with this id becomes the completed answer; the length and all other messages are unchanged; loading ends |
| `AgentForm.Conversation.ResolveFailure` | components/AgentForm.tsx:184-196 | every message is settled (all loading answers fail, the rest are unchanged); the error line is set; loading ends |
| `AgentForm.Conversation.Settle` | components/AgentForm.tsx:102-196 | the request's outcome selects the success or the failure transition above |
| `AgentForm.FailureSettlesAll` | components/AgentForm.tsx:186-192 | after a failure nothing is loading; user messages and already settled answers are unchanged |
| `AgentForm.Ask` | components/AgentForm.tsx:66-100 | typing a non-blank question and submitting it appends the trimmed question and a pending answer, and starts loading |
| `AgentForm.AnswerAt` | components/AgentForm.tsx:167-183 | the success for the answer at one index replaces exactly that message |
| `AgentForm.TwoInFlight` | components/AgentForm.tsx:85-100 | two submissions give question, pending, question, pending |
| `AgentForm.OutOfOrderAnswers` | components/AgentForm.tsx:167-183 | with two requests in flight answered in reverse order, each answer lands on its own submission's message |
| `AgentForm.FailureSettlesOtherRequest` | components/AgentForm.tsx:186-192 | one failure also fails the other in-flight answer; a later success then overwrites that settled message |
| `AgentForm.BlankPromptSendsNothing` | components/AgentForm.tsx:66-73 | on any conversation, submitting a white-space prompt sends nothing and leaves messages and loading unchanged; the error line clears |
| `AgentForm.SentQuestionAccepted` | components/AgentForm.tsx:103-107 | the `{question}` body the form sends is always accepted by the endpoint |
| `AgentRoute.QuestionOf` | app/api/agent/route.ts:6 | the destructured `question` is the body's `question` key when present; a body that is not JSON gives `''`; a non-object body gives undefined |
| `AgentRoute.AcceptedQuestion` | app/api/agent/route.ts:6-9 | a question is accepted iff it is a non-empty string, not trimmed; a body that is not JSON counts as `{question: ''}` and is refused |
| `AgentRoute.Post` | app/api/agent/route.ts:5-22 | a null body throws. Status 400 (question required) iff the question is refused; 200 with the engine's data unchanged iff accepted and the engine succeeded; 502 with the engine's message, or the fixed fallback when it is empty, iff accepted and the engine failed |
| `AgentRoute.MalformedBodyRejected` | app/api/agent/route.ts:6-9 | a body that is not JSON gets 400 |
| `AgentRoute.BlankQuestionForwarded` | app/api/agent/route.ts:7 | a question of spaces is accepted as it is |
| `AgentRoute.OpenTimersAppend` | app/api/agent/route.ts:11-21 | the count of armed timers adds up over concatenated effect logs |
| `AgentRoute.RoundKeepsDiscipline` | app/api/agent/route.ts:11-21 | one arm, call, clear round leaves no timer armed, and its call happens under an armed timer |
| `AgentRoute.Endpoint.constructor` | app/api/agent/route.ts:12 | an endpoint with the configured deadline and no effects yet |
| `AgentRoute.Endpoint.Call` | app/api/agent/route.ts:14 | the engine call requires an armed timer and is logged with its payload |
| `AgentRoute.Endpoint.Handle` | app/api/agent/route.ts:5-22 | answers as `Post` does. A rejected request has no effects. An accepted one arms the timer, calls the engine exactly once with `{question}`, then clears the timer on both outcomes |
| `Ingest.IsFailure` | components/IngestButton.tsx:41 | a response that is not ok is a failure; an ok one is a failure exactly when its `error` is truthy |
| `Ingest.FailureText` | components/IngestButton.tsx:45 | the failure text is a truthy `json.error`, otherwise `HTTP <status>` |
| `Ingest.FirstNonNullish` | components/IngestButton.tsx:52-53 | a `??` chain yields the first candidate that is neither undefined nor null, or the fallback when all are |
| `Ingest.DataOf` | components/IngestButton.tsx:51 | the data is `json.data` unless it is undefined or null, in which case it is `{}` |
| `Ingest.RowsLoaded` | components/IngestButton.tsx:51-53 | rows loaded is `rows_loaded`, else `loaded`, else `metrics.rows_loaded` (each skipped only when undefined or null), else a dash |
| `Ingest.RowsLoadedKeepsZero` | components/IngestButton.tsx:52-53 | a `rows_loaded` of 0 is reported as 0 |
| `Ingest.RowsLoadedSkipsNull` | components/IngestButton.tsx:52-53 | a null `rows_loaded` falls through to `loaded` |
| `Ingest.RowsLoadedWithoutData` | components/IngestButton.tsx:51-53 | without `data` the count is a dash |
| `Ingest.ThrownText` | components/IngestButton.tsx:76-78 | an AbortError shows the timeout text; any other exception shows its message, or `'Unknown failure'` |
| `Ingest.ResultModal` | components/IngestButton.tsx:41-79 | the success dialog, with the rows-loaded value, iff the response is ok and carries no truthy `error`. Otherwise an error dialog with the failure text, or for an exception the exception text |
| `Ingest.IngestButton.constructor` | components/IngestButton.tsx:13 | starts not loading, with nothing on screen |
| `Ingest.IngestButton.Click` | components/IngestButton.tsx:15-31 | ignored while loading; otherwise loading starts and the overlay is shown |
| `Ingest.IngestButton.Complete` | components/IngestButton.tsx:33-80 | the overlay is removed and loading ends before the single result dialog opens, on every path; no dialog is ever shown under the overlay |
| `Ingest.DoubleClick` | components/IngestButton.tsx:17 | a second click during a run has no effect; the run ends with one dialog |

## Left out

- `AgentMetrics.AnswerLabelsShowRaw` assumes a calling convention of the chart library: that `labelCAC`/`labelROAS` receive the bar's entry as their third argument, with the period row as its `payload`. The library is not part of this model. If it passes only the value, every label is the dash (`MetricsChart.LabelWithoutEntry`).
- The submit button is disabled while loading. That guard is rendering and is not modelled. `Conversation.Submit` models `onSubmit` alone, so `TwoInFlight`, `OutOfOrderAnswers` and `FailureSettlesOtherRequest` describe interleavings that need the guard bypassed.
- The network, timers and cancellation are not modelled as running code. The outcome of each call is an input, and the deadline enters only as the arm/clear effects. This covers the engine client in lib/n8n.ts, which is not part of this model (assumed: basic-auth header, JSON-or-raw-text fallback, non-2xx turned into an Error).
- Which request finishes first is not modelled. Concurrency is only the order of calls to `Settle`/`ResolveSuccess`/`ResolveFailure` and to `Click`/`Complete`.
- `Number()` parsing, `toFixed(2)`, `Intl.NumberFormat` and number-to-string conversion are parameters. Only the sentinel, sign and dash logic around them is verified.
- `Numbers.FmtDelta` does not model floating-point rounding of `p * 100`; it multiplies exactly.
- Id generation (`crypto.randomUUID` / `Math.random`) is out. Ids are parameters, and `Submit` requires them to be distinct and unused.
- Reading the environment (lib/env.ts) and the ingest route (app/api/ingest/route.ts) are not part of this model. The deadline is a constructor parameter of `AgentRoute.Endpoint`.
- Rendering is out: JSX, recharts, SweetAlert2 dialogs, the DOM overlay markup, the success dialog's HTML, `DeltaBadge`, the page layout and the logo. The dialogs and the overlay appear only as events in `Ingest.IngestButton.screen`.
- The Zod library is not modelled. The schema is re-expressed over a JSON datatype, and unknown keys are dropped, as `z.object` does by default.
- Strings are sequences of Unicode scalar values, not UTF-16 code units.
- `MetricsChart.TooltipText`: when the tooltip falls back to printing the value, NaN, `Infinity` and `-Infinity` all reach `numText` as the same `None`, so the model does not tell apart the texts `NaN`, `Infinity` and `-Infinity`.
- `Ingest.ResultModal`: an exception thrown by a dialog itself, which would reach the catch branch, is not modelled.
