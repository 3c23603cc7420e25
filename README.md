# Tool-call dispatch of the ai-chatbot POST handler

The repository is a small chat demo. Its POST handler (`app/api/route.ts`)
relays a user message to a hosted assistant service and streams the
assistant's run back to the browser. Whenever the run stops in status
`requires_action` with action type `submit_tool_outputs`, the handler answers
every pending tool call from a fixed table (`listStocks`, `showStockPrice`,
`showStockPurchase`, `getEvents`). It submits all the outputs in one batch and
resumes the stream. It repeats this until the run reports any other status.

This project models that logic in Dafny:

- `wrappers.dfy`: `Option` stands for JavaScript's `null`/`undefined`, and `Result` for a value or a thrown error.
- `dispatch.dfy` (module `ToolDispatch`): the pure part. It holds the `switch` inside `tool_calls.map` (`Dispatch`), the mapping over a whole batch (`DispatchAll`), the fixed stock list and its serialisation.
- `resume.dfy` (module `ResumeLoop`): the imperative `while` loop over `runResult` (`Resume`), specified by the predicate `IsResumeTrace`. The hosted service is an oracle, a sequence of run results. `results[0]` is what the first `forwardStream` yields. `results[k + 1]` is what the stream started by the k-th submission yields.
- `route.dfy` (module `Route`): the handler `Post`, modelled as the sequence of outbound calls it makes. These are thread creation, message creation, run start and tool-output submissions. The module also covers thread-id defaulting and the `ASSISTANT_ID` guard.

Choices and edge cases taken from the code:

- `JSON.parse` runs before the `switch`. Malformed arguments therefore abort the batch whatever the function name, even for `getEvents` and unknown names, and the error is the parse error, not "unknown tool". Arguments are `Parsed(map)` or `Malformed`.
- `parameters.symbol` on arguments without a `symbol` field is `undefined`. It is no error, so `ToolOutput.output` is an `Option<string>` and `None` is `undefined`.
- `Array.prototype.map` applies the callback left to right, and the first call that throws aborts the batch. `DispatchAll` reports the error of the first failing call.
- `??` only replaces `null`/`undefined`. An empty thread id or an empty `ASSISTANT_ID` is used as it is.
- The `ASSISTANT_ID` check runs inside the streaming callback. This is after the thread has been created and the message posted, so those calls are still made when the variable is unset.
- `forwardStream` may yield `undefined`. A `RunResult` is `Option<Run>`, and `None` ends the loop like any status other than `requires_action`.
- The oracle is finite. If it has no result left, the loop ends with `OracleExhausted`. That is the edge of the model, not behaviour of the handler. An empty oracle also reaches it, with no submission. The handler itself never meets that case, because its first `forwardStream` always yields once.

## Model

| member | source | states |
|---|---|---|
| `ToolDispatch.ListStocks` | app/api/route.ts:111-117 | the stock list has exactly three records, for AAPL, GOOGL and TSLA in that order |
| `ToolDispatch.StocksJson` | app/api/route.ts:61-66 | the `listStocks` output is the stock list serialised as `JSON.stringify` writes it (records in order, fields `symbol`, `price`, `delta`, integral numbers in decimal), and that text is exactly the three AAPL, GOOGL and TSLA records |
| `ToolDispatch.Symbol` | app/api/route.ts:69-81 | reading `parameters.symbol` gives the field's value when present and `undefined` when absent |
| `ToolDispatch.Dispatch` | app/api/route.ts:57-95 | an output is tagged with its call's id; a call succeeds iff its arguments parse and its name is one of the four known tools; malformed arguments fail before the name is looked at; an unknown name fails with that name; `listStocks` yields the stock-list JSON and `getEvents` yields "news", whatever the arguments; `showStockPrice` and `showStockPurchase` echo `symbol` unchanged |
| `ToolDispatch.DispatchAll` | app/api/route.ts:55-96 | all or nothing: the batch succeeds iff every call does; then there is one output per call, in call order, and output i is call i's dispatch, tagged with call i's id; a failed batch carries the error of the first failing call, and every call before it succeeds |
| `ToolDispatch.UnknownToolFailsBatch` | app/api/route.ts:90-93 | one call with an unknown function name anywhere in a batch makes the whole batch fail |
| `ToolDispatch.FirstFailureUnknownTool` | app/api/route.ts:57-93 | when every call before call i succeeds and call i parses but names an unknown function, the batch fails with the unknown-tool error naming call i's function |
| `ToolDispatch.DispatchAllPrefixError` | app/api/route.ts:55-96 | when a leading part of a batch fails, the whole batch fails with that part's error, whatever follows |
| `ToolDispatch.DispatchAllAppend` | app/api/route.ts:55-96 | dispatching a batch in two parts and joining the outputs equals dispatching it whole; when only the second part fails, its error is the batch's |
| `ToolDispatch.ExampleBatch` | app/api/route.ts:55-88 | the batch `listStocks`, `showStockPrice(AAPL)`, `getEvents` gives exactly the stock-list JSON, "AAPL" and "news", each tagged with its call's id |
| `ResumeLoop.AwaitsToolOutputs` | app/api/route.ts:50-54 | the loop continues only on status `requires_action` with action type `submit_tool_outputs`; `undefined`, each of the seven other statuses, a missing action and an action of another type all end it |
| `ResumeLoop.PendingCalls` | app/api/route.ts:55-56 | the tool calls of a waiting run are exactly those its `submit_tool_outputs` action carries: the run is a `requires_action` run with that action and those calls |
| `ResumeLoop.Resume` | app/api/route.ts:48-106 | the loop satisfies `IsResumeTrace`: submission k answers result k, which awaits tool outputs and whose whole batch dispatched, and it carries that run's id; the loop ends at the first result that does not await tool outputs (`Settled` with that result), or at the first batch that fails (`Aborted` with its error, nothing submitted for it), or when the oracle runs out |
| `ResumeLoop.ResumeTraceDeterministic` | app/api/route.ts:48-106 | the loop's specification is deterministic: the run results fix both the submissions and the way the loop ends |
| `ResumeLoop.NoSubmissionUnlessAwaiting` | app/api/route.ts:48-54 | if the first run result does not await tool outputs (e.g. `completed`), there are zero submissions and the loop ends with that result |
| `ResumeLoop.FailedBatchEndsLoop` | app/api/route.ts:55-105 | if steps 0..k all await tool outputs and step k is the first whose batch fails, exactly k batches are submitted and the loop ends with step k's error |
| `ResumeLoop.UnknownToolStopsLoop` | app/api/route.ts:51-93 | if step k's first failing call parses but names an unknown function, after k successful steps, the loop stops after exactly k submissions with the unknown-tool error naming that function |
| `Route.SelectThread` | app/api/route.ts:19 | a thread is created iff no thread id was given; a given id is used unchanged; otherwise the new thread's id is used |
| `Route.RequireAssistantId` | app/api/route.ts:38-42 | an unset `ASSISTANT_ID` is the "ASSISTANT_ID is not set" error; any set value is used unchanged |
| `Route.SubmitCalls` | app/api/route.ts:98-105 | one `submitToolOutputsStream` call per submission, in order, on the request's thread, with the submission's run id and outputs |
| `Route.BatchesOfSubmitCalls` | app/api/route.ts:98-105 | the submission calls carry back exactly the submissions they were made from, in order |
| `Route.RunThenSubmissions` | app/api/route.ts:35-105 | once the run is started, the calls are the set-up calls, then the run, then only submission calls on the request's thread, which carry back exactly the loop's submissions; no thread is created after set-up |
| `Route.Post` | app/api/route.ts:11-109 | the response names the chosen thread and the created message; a thread is created, as the very first call, iff none was given; the message is posted to the thread before the run starts; without `ASSISTANT_ID` no run is started and nothing is submitted; with it, exactly one run is started on that thread with that assistant id, and the calls after it are exactly the resume loop's submissions on that thread, in order |

## Left out

- The client library calls are not modelled. These are `threads.create`, `messages.create`, `runs.stream` and `submitToolOutputsStream`, plus the `AssistantResponse`/`forwardStream` streaming. They are network and foreign-library calls; the model records them as `RemoteCall` values and takes their answers from the `Service` oracle.
- The text deltas forwarded to the browser and `sendDataMessage` are not modelled: they are streaming I/O.
- Forwarding of the request's cancellation signal (`req.signal`) is left out, because it is asynchronous abort, i.e. concurrency.
- `MalformedArguments(callId)`: the `SyntaxError` that `JSON.parse` throws describes the argument text; the model abstracts it to the id of the failing call.
- The internals of `JSON.parse` and `JSON.stringify` are left out. Arguments are taken as already parsed, with field values that are strings, and a parse failure is one `Malformed` case. JSON values of other types, and a parse result that is not an object (e.g. `null`), are not distinguished.
- `JSON.stringify` is modelled only for what `listStocks` needs: a list of records with one string field and two integral number fields (`StockListJson`). General JSON, string escaping and floating-point formatting are left out. The prices and deltas in the source are number literals with integral values: `JSON.stringify` writes `2.00` as `2`. `ListStocks` keeps them as integers. `DecimalText` covers only such small integers; from 1e21 on, JavaScript writes numbers in exponent form.
- Reading environment variables is left out, except whether `ASSISTANT_ID` is set, which is an `Option<string>` parameter. `OPENAI_API_KEY` only configures the client.
- A failing remote call or request read is not modelled. The `Service` oracle cannot represent a network or authorisation error thrown by `threads.create`, `messages.create`, `runs.stream` or `submitToolOutputsStream`. It also cannot represent the error `await req.json()` throws on a malformed request body before any thread is chosen. `Post` takes the body as an already parsed `PostInput`. Such an error would end the request where it is thrown.
- The model stops when the oracle runs out of run results. A real run can keep requesting tool outputs without bound, and the fixed sequence leaves that unmodelled.
- The React chat component (`components/chat.tsx`) is presentation only and is not part of this model.
