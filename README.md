# Varaka-Nexus chat turn, modelled in Dafny

Varaka-Nexus is a single-page chat assistant for a paper mill. The user edits process telemetry and types prompts. The prompt, the telemetry and the prior conversation go to a remote language model. The reply is shown as a chat message, and when it contains the expected JSON, as a scenario chart. The only sequential logic in the program is the chat-turn state machine in `App.tsx`, and that is what this project models:

- **`App.Session`** is a class holding the state the React component keeps: `messages`, `inputValue`, `isLoading`, `simulationData`, `winningScenario` and `hasHistoricalData`, plus the `telemetry`, `unitCosts` and `machineConstants` the gateway call reads. Each handler is a method. Its `modifies` clause names only the fields that handler sets, and its `ensures` say what the new values are. The object invariant `Valid()` says the transcript always opens with the greeting.
- **Splitting the async turn.** The `await` at App.tsx:111 splits `handleSendMessage` into `BeginTurn` and `CompleteTurn`:
  - `BeginTurn` runs the guard, appends the user message and returns the gateway call (`GatewayRequest`), or `None` when no call is made.
  - `CompleteTurn` takes the settled promise as `GatewayOk(text)` or `GatewayFailed`. It interprets the reply, appends to the transcript as it stands *at completion*, and clears the busy flag.
  - Events may happen between the two calls, such as an upload or typing.
- **`ResponseInterpreter`** models the greedy regular expression `/\{[\s\S]*\}/` as `ExtractJsonSpan`. It proves that function equal to the regular expression's leftmost-longest match in both directions, including the known over-capture. `Interpret` returns one of three outcomes: `Parsed`, `SpanNotFound` or `InvalidJson`.
- **`ChatHistory`** models the history filter and map: messages whose content includes `"JSON Parsing Error"` are dropped, and the others become `{role, parts: [{text}]}`.
- **`JsString`** models JavaScript's `trim` (over ECMAScript's WhiteSpace and LineTerminator code points) and `includes`.
- **`Types`** transcribes the records of types.ts.

Foreign calls become parameters:
- `JSON.parse` followed by the unchecked cast to `AISimulationResponse` is `parse: string -> Option<SimulationResponse>`. `None` stands for a thrown `SyntaxError`.
- The conversion of a JavaScript number to text in the quick-action prompts is `fmt: real -> string`.
- Message ids come from `Date.now()`, so the caller supplies them as method arguments.

Strings are sequences of Unicode code points, not UTF-16 code units. Every operation modelled here (prefix and brace search, whitespace tests, slicing between ASCII braces) gives the same observable result either way.

The code only calls `JSON.parse` and casts the result (App.tsx:127), so the model adds no schema check. `Interpret` tells `SpanNotFound` and `InvalidJson` apart; the code folds both into one `catch` (App.tsx:140-149), and `CompleteTurn` treats them alike.

## Model

| member | source | states |
|---|---|---|
| JsString.Trim | App.tsx:90 | `s.trim()` is never longer than `s`, and a non-empty result begins and ends with a character that is neither whitespace nor a line terminator |
| JsString.TrimEmptyIffBlank | App.tsx:90 | `s.trim()` is empty exactly when every character of `s` is ECMAScript whitespace or a line terminator |
| JsString.TrimIsInnerSlice | App.tsx:90 | `trim` returns a contiguous slice of its input that neither starts nor ends with whitespace |
| JsString.TrimStartDropsBlankPrefix | App.tsx:90 | the leading part `trim` removes is all whitespace, and what remains starts with a visible character |
| JsString.TrimEndDropsBlankSuffix | App.tsx:90 | the trailing part `trim` removes is all whitespace, and what remains ends with a visible character |
| JsString.Includes | App.tsx:105 | `s.includes(t)` holds when `s` starts with `t`, and only when `t` is no longer than `s` |
| JsString.IncludesIffOccurs | App.tsx:105 | `s.includes(t)` holds exactly when `t` occurs in `s` at some position |
| ResponseInterpreter.FirstIndexOf | App.tsx:122 | the index returned holds `c` and no earlier index does; `None` means `c` does not occur |
| ResponseInterpreter.LastIndexOf | App.tsx:122 | the index returned holds `c` and no later index does; `None` means `c` does not occur |
| ResponseInterpreter.ExtractJsonSpan | App.tsx:122-125 | any span found is at least two characters long, starts with `{` and ends with `}` |
| ResponseInterpreter.ExtractedSpanIsRegexMatch | App.tsx:122-123 | the span found is taken from the leftmost `{` that has a `}` after it to the rightmost `}` |
| ResponseInterpreter.RegexMatchIsExtracted | App.tsx:122-123 | wherever `/\{[\s\S]*\}/` matches (leftmost start, greedy end), that text is the span found |
| ResponseInterpreter.NoSpanIffNoBracePair | App.tsx:122-125 | no span is found, and "JSON structure not found" is thrown, exactly when no `{` is followed by a `}` |
| ResponseInterpreter.WholeObjectIsExtracted | App.tsx:122-123 | a reply that begins with `{` and ends with `}` is taken whole |
| ResponseInterpreter.OverCaptureExample | App.tsx:122 | `a {x} b {y}` yields the over-captured span `{x} b {y}` |
| ResponseInterpreter.Interpret | App.tsx:121-149 | a parsed response is what the parser returned for the regular-expression match; an invalid-JSON outcome carries exactly that match, which the parser rejected; "no span" means the reply has no `{` followed by a `}` |
| ResponseInterpreter.InterpretOfMatch | App.tsx:121-149 | conversely, wherever the regular expression matches, the outcome is the parser's response for that match if it parses, and otherwise invalid JSON carrying that match |
| ResponseInterpreter.NoBracePairFallsBack | App.tsx:122-125 | the reply is never handed to the parser, and the turn falls back, exactly when it has no `{` followed by a `}` |
| ChatHistory.ToTurns | App.tsx:106-109 | the map yields one turn per message, in order, each holding that message's role and its content as the single text part |
| ChatHistory.History | App.tsx:104-109 | every turn sent as history has exactly one text part, and that text does not include `"JSON Parsing Error"` |
| ChatHistory.Unmarked | App.tsx:105 | the filter never lengthens the list and keeps no message that includes "JSON Parsing Error" |
| ChatHistory.UnmarkedAppend | App.tsx:105 | the filter applied to a concatenation is the concatenation of the filtered parts |
| ChatHistory.ToTurnsAppend | App.tsx:106-109 | the map applied to a concatenation is the concatenation of the mapped parts |
| ChatHistory.UnmarkedMembers | App.tsx:105 | a message survives the filter exactly when it is in the list and does not include the marker |
| ChatHistory.HistoryAppend | App.tsx:104-109 | the history keeps the relative order of the messages it keeps: the history of `a + b` is the history of `a` followed by that of `b` |
| ChatHistory.HistorySnoc | App.tsx:104-109 | adding one message adds its turn to the history unless it includes the marker, so a history built after the user message was appended would differ by exactly that message |
| ChatHistory.HistoryKeepsExactlyUnmarked | App.tsx:104-109 | a turn is in the history exactly when it is the role and text of some message that does not include `"JSON Parsing Error"` |
| ChatHistory.HistoryKeepsAllIffNoneMarked | App.tsx:104-109 | the history is never longer than the message list, and is as long exactly when no message includes the marker |
| App.CanSubmit | App.tsx:90 | a submission goes ahead exactly when no turn is in flight and the input is not all whitespace |
| App.CanSubmitIffNotBlank | App.tsx:90 | a submission goes ahead exactly when no turn is in flight and the input has a non-whitespace character |
| App.SimulationPrompt | App.tsx:181-185 | the prompt for each quick action quotes the live settings that action is about, as `fmt` renders them, and passes the blank test of the submission guard |
| App.LightweightingPrompt | App.tsx:183 | the lightweighting prompt quotes the current grammage, waste content and CMT target, and passes the blank test whatever numbers it shows |
| App.WastePrompt | App.tsx:184 | the contamination prompt quotes the current waste content and machine trim width, and passes the blank test whatever numbers it shows |
| App.EfficiencyPrompt | App.tsx:185 | the speed prompt quotes the current machine speed and production efficiency, and passes the blank test whatever numbers it shows |
| App.ChartShownUnder | App.tsx:279 | the last message gets the chart exactly when it is a model message and there are more than two messages; with two messages or fewer no message gets it |
| App.ChartOnlyUnderLastReply | App.tsx:279 | when ids are distinct, the chart is drawn under message `k` exactly when `k` is the last message, it is a model message, and there are more than two messages |
| App.SharedIdShowsChartTwice | App.tsx:279 | the test compares ids, not positions: two model replies sharing the last id both get the chart |
| App.Session.constructor | App.tsx:13-73 | a session starts with only the greeting message, an empty input, no turn in flight, no chart data, no winning scenario, no historical data, and the default telemetry, costs and machine constants |
| App.Session.EditInput | App.tsx:319 | typing replaces the input and changes nothing else |
| App.Session.BeginTurn | App.tsx:89-118 | a blank input or a turn in flight changes nothing and makes no gateway call. Otherwise one user message carrying the untrimmed input is appended, the input is cleared, the busy flag is set, and the gateway is called with that text, the current telemetry, costs, constants and data flag, and the history of the messages as they were before the append |
| App.Session.CompleteTurn | App.tsx:119-162 | exactly one model message is appended to the current transcript and the busy flag ends false. A parsed span replaces the chart data and winning scenario and shows `markdownReport`. A reply with no span or an unparsable one is shown verbatim and leaves the chart state alone. A failed call shows the fixed apology and leaves the chart state alone. The input and data flag are untouched |
| App.Session.DataUpload | App.tsx:164-172 | the historical-data flag becomes true and exactly one fixed notice is appended; the busy flag, input and chart state are untouched |
| App.Session.RunSimulation | App.tsx:181-188 | only the input changes, to the prompt for the chosen quick action; no message is added, no call is made, and the new input passes the guard unless a turn is in flight |
| App.Session.HandleKeyDown | App.tsx:174-179 | Enter without Shift cancels the default newline and submits, with the same effect as `BeginTurn`; any other key changes nothing |
| App.EndToEndExample | App.tsx:89-161 | the prompt "test" answered by a JSON object with report "ok" and one chart row "Mevcut" ends with "ok" as the last message and that one row as the chart |
| App.SingleFlightExample | App.tsx:90-161 | while a turn is in flight a second submission is refused and keeps its input. After the failed call is answered with the apology, that input is accepted. The transcript is greeting, user, apology, user |

## Left out

- The remote gateway (`services/geminiService.ts`, the Google GenAI SDK call, its system instruction, model name and temperature) is a foreign call. `BeginTurn` returns the arguments of the call, and `CompleteTurn` receives the outcome.
- `JSON.parse` is the parameter `parse`. A parse that succeeds but yields a value of the wrong shape is not modelled, for example a missing `chartData`. The oracle returns only well-typed responses.
- CompleteTurn, BeginTurn: message contents are always strings in this model. In the source two paths store a non-string content. (1) When the SDK result has no text, `result.text` is `undefined` (services/geminiService.ts:107). Then `responseText.match` throws at App.tsx:122, and the catch appends a model message whose content is `undefined` (App.tsx:145). (2) A parsed object without a string `markdownReport` stores that value as content (App.tsx:135). After either, when the stored content has no `includes` method (`undefined`, `null`, a number, a boolean or a plain object), `m.content.includes` at App.tsx:105 throws on every accepted submission. So each later turn appends the user message and then the apology, and the gateway is never called again. When `markdownReport` is an array, `Array.prototype.includes` answers false at App.tsx:105 instead, and the array itself goes to the gateway as a part's `text`. `GatewayOutcome` has no case for a successful call without text, and the parse oracle returns only well-typed responses, so the model cannot reach this state.
- Number formatting in the quick-action prompts is the parameter `fmt`. JavaScript numbers are `real`, so floating-point rounding is not modelled.
- Message ids from `Date.now()` are caller-supplied arguments. Timestamps (`new Date()`) are dropped from `ChatMessage` because they only feed the display.
- The guard reads the current `isLoading` and `inputValue`. React handlers read the values of the render that created them, so a second event dispatched before a re-render could see stale state. The model does not capture this.
- Console logging of errors, the scroll-into-view effect, the API-key check and its error screen, Markdown rendering, and the chart component are I/O or presentation.
- The telemetry, cost and machine-constant forms and their modals are left out. Their only logic is a one-field record update with `Number()` coercion, which is string-to-float parsing. So is the timed upload status of the data-configuration modal. The `telemetry`, `unitCosts` and `machineConstants` fields therefore keep their initial values in this model.
- Cancellation and timeouts do not exist in the source. A gateway call that never settles corresponds to `CompleteTurn` never being called.
