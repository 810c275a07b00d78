# flight-delays: the prediction request, verified

This project models the prediction path of the flight-delays app in Dafny:

- the API server's `GET /predict` handler (`server/server.js`), which validates `day_of_week` and
  `airport_id`, spawns the inline Python scorer, accumulates its stdout and stderr, and settles
  the request exactly once, whichever of the timeout, a spawn error or the process's close comes
  first. When `python3` cannot be started it retries once as `python`;
- the rule the inline scorer program uses when the class probabilities cannot be converted
  directly: strip `[` and `]`, split on white space, take tokens 0 and 1;
- the React form's `onPredict` (`client/src/App.jsx`), which guards the two selections, builds the
  cache key `"${day}-${airport}"`, answers from an in-memory `Map` on a hit, and caches only the
  body of an OK response.

Node runs the handler's callbacks one at a time, so `PredictServer.PredictHandler` is a class
holding the closure's variables (`finished`, `stdout`, `stderr`, the timer, the fallback's
buffers, the spawn log and the responses sent). Each callback is a method. Its invariant
`Valid()` says:

- at most one response is ever sent;
- nothing is sent while `finished` is false;
- once `finished` is set, exactly one response has been sent, unless the request was handed to
  the fallback, whose close sends it;
- a process is spawned only for a request that passed validation, and at most one fallback
  `python` is spawned, with the same arguments, only when the command was `python3`.

`JSON.parse` is the handler's `parse` parameter. It is an arbitrary total function from text to
either a JSON value or the thrown error's text, which the source puts into `details`.

`PredictClient.PredictForm` holds the component's `error`, `result`, `predicting` and `cache`,
plus the log of requests actually sent. Its invariant says two things. The cache is exactly what
the OK responses in that log leave behind (`CacheFrom`). And a selection that once got an OK
response is never requested again.

Modules: `Wrappers` (Option, Result), `JsonData` (JSON values), `Decimal` (rendering whole
numbers as template literals do, and reading them back), `JsText` (`String.prototype.trim`),
`ScorerOutput` (the scorer's textual fallback), `PredictServer`, `PredictClient`, and
`PredictScenarios` (request walk-throughs written as client code of the two classes).

Some behaviours of the source that the model keeps as they are:

- The day guard checks only finiteness and the range [1, 7], not integrality, so `day_of_week=2.5`
  is spawned (`PredictScenarios.FractionalDayReachesSpawn`).
- The fallback process has no timeout.
- The success body is the scorer's JSON, `{certainty, delay}`, passed through unchanged.
- The bracket-stripping rule is part of the Python scorer. The server only runs `JSON.parse` on the
  trimmed output.

## Model

| member | source | states |
|---|---|---|
| PredictServer.ValidationError | server/server.js:44-52 | the day message exactly when the day is not finite or outside [1, 7]; the airport message exactly when the day is fine and the airport is not finite, so a bad day wins; no error exactly when both pass |
| PredictServer.PythonCommand | server/server.js:76 | an unset or empty PYTHON selects python3, any other value is used as is; the command is python3 (the only case with a fallback) exactly when PYTHON is unset, empty or "python3" |
| PredictServer.CodeText | server/server.js:137 | `${code}` of an exit code reads back as that code; a null code (killed by a signal) is the text "null" |
| PredictServer.ExitDetail | server/server.js:137 | the detail is "Exited with code " followed by text that reads back as the exit code, or "null" |
| PredictServer.ExitDetailInjective | server/server.js:137 | the "Exited with code N" detail identifies the exit code, null included |
| PredictServer.Interpret | server/server.js:139-144 | 200 exactly when the trimmed output parses, with the parsed value unchanged as the body; otherwise 500 "Failed to parse prediction output" with the parser's message and the untrimmed output as `raw` |
| PredictServer.InterpretIgnoresPadding | server/server.js:140 | output differing only by surrounding white space gets the same status and, on success, the same response |
| PredictServer.CloseResponse | server/server.js:136-144 | 200 exactly when the code is 0 and the trimmed stdout parses, with the parsed value as the body; any other code, null included, gives 500 "Prediction process failed" with stderr as details, or "Exited with code N" when stderr is empty, and no raw; code 0 with output that does not parse gives exactly 500 "Failed to parse prediction output" with the parser's message as details and the untrimmed stdout as raw |
| PredictServer.FallbackCloseResponse | server/server.js:116-125 | 200 exactly when the fallback exits 0 and its trimmed stdout parses; any other code gives 500 with the fallback's stderr as details, or the primary's spawn error when that stderr is empty, and no raw; code 0 with output that does not parse gives exactly 500 "Failed to parse prediction output" with the parser's message and the untrimmed fallback stdout as raw |
| PredictServer.PredictHandler.constructor | server/server.js:43-95 | a rejected request gets its 400 at once, with no spawn and no timer; an accepted one spawns the configured command with the request's arguments, starts the timer and has sent nothing |
| PredictServer.PredictHandler.OnStdout | server/server.js:97-99 | the chunk is appended to stdout; the invariant is kept |
| PredictServer.PredictHandler.OnStderr | server/server.js:101-103 | the chunk is appended to stderr; the invariant is kept |
| PredictServer.PredictHandler.OnTimeout | server/server.js:89-95 | if not finished: sets finished, kills the child and sends exactly the 504 "Prediction timed out"; if finished: nothing changes |
| PredictServer.PredictHandler.OnError | server/server.js:105-130 | if not finished: sets finished and clears the timer; for python3 it spawns one `python` with the same arguments, remembers the error and sends nothing; for any other command it sends 500 "Prediction process could not start" with the error; if finished: nothing changes |
| PredictServer.PredictHandler.OnClose | server/server.js:132-145 | if not finished: sets finished, clears the timer and sends exactly CloseResponse of the code and the accumulated output; if finished: nothing changes |
| PredictServer.PredictHandler.OnFallbackStdout | server/server.js:114 | the chunk is appended to the fallback's stdout |
| PredictServer.PredictHandler.OnFallbackStderr | server/server.js:115 | the chunk is appended to the fallback's stderr |
| PredictServer.PredictHandler.OnFallbackClose | server/server.js:116-126 | the close listener checks nothing: on a request still open it sends exactly FallbackCloseResponse of its code and buffers and the spawn error; on a request already answered its second res.json throws and the server crashes, with the response unchanged |
| PredictServer.PredictHandler.OnFallbackError | server/server.js:111-126 | the fallback's spawn error has no listener: the server crashes, nothing is sent, and no later event can answer the request |
| PredictServer.PredictHandler.OnFallbackErrorIgnored | server/server.js:111-126 | an `'error'` listener that sends nothing: the server survives, the request is still open and the fallback's close is still to come, so the close listener's own default (server.js:125) answers it |
| PredictServer.PredictHandler.OnFallbackErrorAnswered | server/server.js:111-126 | an alternative listener that answers the spawn error itself: it settles the request with exactly one 500 "Prediction process could not start" carrying the error, leaving the fallback's close still to come |
| PredictServer.PredictHandler.OnFallbackCloseGuarded | server/server.js:116-126 | for that alternative, the close listener guarded by whether the request is settled: a close after an answered error changes no response, otherwise it sends FallbackCloseResponse; either way exactly one response has been sent and nothing crashes |
| JsText.TrimBounds | server/server.js:140 | `trim` keeps the infix of the text between white space only, starting and ending with a non-space; it is empty exactly when the text is all white space |
| JsText.Trim | server/server.js:140 | the trimmed text is empty exactly when the input is all white space, and otherwise starts and ends with a non-space |
| JsText.TrimUnique | server/server.js:140 | any infix with non-space ends and only white space around it is the trimmed text |
| JsText.TrimIgnoresPadding | server/server.js:140 | white space added around a text, such as the newline print() writes, does not change its trimmed form |
| JsText.TrimIdempotent | server/server.js:140 | trimming twice equals trimming once |
| ScorerOutput.StripBrackets | server/server.js:69 | the result has no bracket, is no longer than the input, and is the input itself when that has none |
| ScorerOutput.Words | server/server.js:69 | every piece of `split()` is a non-empty run free of white space |
| ScorerOutput.WordsSkipsLeadingSpace | server/server.js:69 | `split()` ignores white space in front of the text |
| ScorerOutput.WordsOfLeadingToken | server/server.js:69 | a token followed by white space or by nothing is the first piece of the split, and the rest is split on its own |
| ScorerOutput.WordsOfInterleave | server/server.js:69 | splitting tokens laid out with any white-space padding (non-empty between tokens) gives the tokens back |
| ScorerOutput.ExtractPair | server/server.js:69-71 | the rule succeeds exactly when at least two pieces remain after stripping brackets and splitting; certainty and delay are then pieces 0 and 1, each non-empty and free of white space |
| ScorerOutput.PrintedVector | server/server.js:69-71 | a vector of bracket-free entries printed between brackets with any white-space padding succeeds exactly when it has two or more entries, and then yields entries 0 and 1 |
| ScorerOutput.PaddedVectorPair | server/server.js:69-71 | numpy's padded "[0.5   0.123]" gives certainty "0.5" and delay "0.123" |
| ScorerOutput.ExtractPairOfSingleToken | server/server.js:69-71 | a one-entry vector "[t]", however padded, has no token 1: the rule fails, as Python's IndexError does |
| Decimal.IntText | client/src/App.jsx:65 | a template literal renders a whole number as a non-empty string: a minus sign exactly when the number is negative, then digits |
| Decimal.ParseIntOfIntText | client/src/App.jsx:65 | reading a rendered whole number back gives the number |
| PredictClient.Truthy | client/src/App.jsx:61 | the `!day \|\| !airport` guard rejects exactly NaN and 0 |
| PredictClient.CacheKey | client/src/App.jsx:65 | the key `${day}-${airport}` reads back as the selection it was built from |
| PredictClient.KeyRoundTrip | client/src/App.jsx:65 | the two decimal texts joined by "-" read back as the pair, negative numbers included |
| PredictClient.KeyInjective | client/src/App.jsx:65-66 | two different selections never share a cache key |
| PredictClient.FailureText | client/src/App.jsx:74-78 | the error shown for a non-OK response is never empty: it is the body's non-empty string `error`, "Prediction failed" for any other non-null body (an empty string error included), and the TypeError text for a null body |
| PredictClient.CachedEntryCameFromOkResponse | client/src/App.jsx:74-76 | every cache entry is the body of an OK response to a request for that same key |
| PredictClient.UncachedKeyNeverSucceeded | client/src/App.jsx:74-78 | a key absent from the cache never had an OK response; failed and rejected requests leave no entry |
| PredictClient.CacheAgreesWithOkResponses | client/src/App.jsx:66-76 | as long as a key is not requested again after its OK response, the cache holds exactly that response's body under the key |
| PredictClient.PredictForm.constructor | client/src/App.jsx:23-28 | the component mounts with no error, no result, not predicting and an empty cache |
| PredictClient.PredictForm.OnPredict | client/src/App.jsx:55-82 | a 0 or NaN selection sets "Please select a day and an airport." with no request and no cache change; a cache hit clears the error and returns the cached body with no request; otherwise exactly one request is logged, predicting ends false, an OK body becomes both the result and the new cache entry, and a non-OK body or a rejection sets the error and leaves the cache as it was; the invariant (cache built from OK responses only, no key requested again after its OK response) is kept |

## Left out

- Process spawning, pipes and the Python scorer are foreign. They appear as events (chunks, close codes, spawn errors) delivered to the handler.
- The inline scorer's text and the `String(day)`/`String(airport)` arguments are not modelled. A spawn is recorded by its command and the two numbers, which fix its argument vector.
- `Number()` coercion of the query strings is not modelled. The handler receives the resulting numbers (`NaN`, an infinity or a finite value).
- `JSON.parse` is a parameter, so its grammar is not modelled.
- `Buffer.toString()` decoding of chunks is not modelled. A chunk arrives as text, so a multi-byte character split across two chunks is not modelled.
- The scorer's `float()` conversions are floating point, so the tokens stay text. The client's `percent` helper (`Math.round`) is floating point and also left out.
- The timer's 10,000,000 ms duration is not modelled. The timeout is an event that can arrive at any moment.
- The fallback has no timeout, as in the source. Its missing `'error'` listener is modelled as a crash (see Findings); what Node prints and how the process manager restarts the server are not modelled.
- `/health` and `/airports` are left out: wall-clock time, file reads and a locale-aware sort.
- Express, cors and morgan setup, `app.listen`, `console.log` and response serialisation are framework wiring and are left out.
- In the client, rendering, the airport-loading effect, `API_BASE`, `e.preventDefault()` and `client/vite.config.js` are UI and configuration, and are left out.
- The awaited fetch is collapsed into one call: the `response` argument is what fetch and `res.json()` would produce. So the render while `predicting` is true, and a second submit while the first is in flight, are not modelled. The source disables the submit button during that time.
- PredictClient.FormNumber: holds NaN or a whole number only. Fractional and infinite numerals, and numbers of 1e21 or more (which JavaScript prints in exponent form), are not modelled, because the select options hold integer ids.
- PredictClient.FailureText: a truthy `error` field that is not a string (a number, `true`, an object or an array) is shown through JavaScript's `String()` in the source. The model shows "Prediction failed" for it. The server only ever sends string errors.
- PredictClient.FailureText: the null-body message is V8's wording of the TypeError; other JavaScript engines word it differently.
- PredictClient.PredictForm.OnPredict: for a rejected fetch, the text `String(e.message || e)` comes from the runtime. It is carried in the `Rejected` value.

## Findings

| source | as written | input that shows it | evidently intended | confidence | as-written member | corrected member |
|---|---|---|---|---|---|---|
| server/server.js:111-126 | the fallback `python` process gets `stdout`, `stderr` and `close` listeners but no `'error'` listener, so its spawn error is an unhandled error event that ends the server, and the request is never answered | a host with neither `python3` nor `python` on the PATH and PYTHON unset; `PredictScenarios.NoInterpreterNoAnswer` walks it through to an empty response log | the failed fallback answered by its close listener, as server.js:125 already provides: 500 "Prediction process failed" with the fallback's stderr, or the primary's spawn error when that is empty, as it is when `python` never started. An `'error'` listener that sends nothing suffices, since Node's close (code -2) follows the error (`PredictScenarios.NoInterpreterAnswered`). A listener that answers by itself would also need the close guarded (`PredictScenarios.AnsweringListenerAloneCrashes`, `PredictScenarios.AnsweringListenerWithGuardedClose`) | not executed | PredictServer.PredictHandler.OnFallbackError | PredictServer.PredictHandler.OnFallbackErrorIgnored |
