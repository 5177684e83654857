# Chart tool validation and dispatch, modelled in Dafny

This project models the chat back end's chart-tool logic in `chatbot/routes.ts`. It covers:

- the `create_stacked_area_chart` handler. The handler validates an untrusted parameter object, fail-fast, and builds a tool-call record. Defaults are applied by JavaScript truthiness.
- the `TOOLS` registry, which pairs the handler with a JSON-Schema-like parameter declaration.
- the tool-execution route. It finds a tool by name and maps the handler's result to "not found", "executed" or "Tool execution failed".
- `getAvailableTools`, which lists each tool without its handler.
- the chat route. It rejects an empty message and routes a message that mentions an area chart to the chart tool with built-in sample parameters. It also assembles the reply and its conversation id.

Files:

- `wrappers.dfy`: `Option`, `Result` and `Outcome`. An absent value is `None`, and a thrown error is `Failure` or `Fail`.
- `json_values.dfy`: parsed JSON values, JavaScript truthiness, property reads, `||`, `!== false`, and decimal and `String()` conversion.
- `stacked_area_chart.dfy`: the handler, its errors and the record. It also holds the lemmas for the validation order, the fail-fast area check, the defaults and the flags.
- `tool_registry.dfy`: `TOOLS` with its declared schema, `find`-based dispatch, `getAvailableTools`, and the lemmas tying the handler's defaults and required fields to the declared schema.
- `chat.dfy`: the chat route as a method that builds its list of tool calls by appending, and the routing lemmas.

JavaScript's `undefined` is `None`. A JSON value is `JNull`, `JBool`, `JNum` (integers), `JStr`, `JArr` or `JObj`. A property read on `null` or `undefined` is the `TypeError` the engine throws. Its message is written in V8's wording. The clock readings `Date.now()` are parameters.

The model follows the code as written:

- Validation is fail-fast: the first failing check throws one fixed error string, which names no field.
- Defaults replace falsy values, not only absent ones. An `xAxisKey` of `''` and a `height` of `0` are replaced.
- The validation is hand-written for the one tool. The declared schema is data only, and lemmas show that it agrees with the hand-written checks.
- The registry is a constant. `RegistryNamesUnique` proves that its names are distinct.

## Model

| member | source | states |
|---|---|---|
| `JsonValues.Decimal` | chatbot/routes.ts:59 | the id's clock text is a non-empty run of decimal digits with no leading zero |
| `JsonValues.DecimalRoundTrip` | chatbot/routes.ts:59 | reading the decimal text back gives the clock value, so distinct times give distinct ids |
| `JsonValues.OrElse` | chatbot/routes.ts:65-67 | `v \|\| d` gives the fallback for exactly the five falsy values (absent, `null`, `false`, `0`, `''`) and keeps every other value |
| `StackedAreaChart.CheckAreas` | chatbot/routes.ts:52-56 | the area loop passes iff every area is an object with truthy `dataKey`, `stackId` and `fill`; on failure the error is that of an area preceded only by accepted areas |
| `StackedAreaChart.HandleCreateStackedAreaChart` | chatbot/routes.ts:41-75 | the handler returns a record iff `data` and `areas` are arrays and every area is well formed |
| `StackedAreaChart.NullishParamsThrow` | chatbot/routes.ts:43 | `null` or `undefined` parameters throw the TypeError for reading `data`, before any check |
| `StackedAreaChart.DataCheckedFirst` | chatbot/routes.ts:43-45 | an absent or non-array `data` gives "Data array is required", whatever `areas` is |
| `StackedAreaChart.AreasCheckedSecond` | chatbot/routes.ts:47-49 | with a `data` array, an absent or non-array `areas` gives "Areas configuration is required" |
| `StackedAreaChart.FirstRejectedArea` | chatbot/routes.ts:52-56 | the area check stops at the first rejected area and reports its error |
| `StackedAreaChart.FirstBadAreaDecides` | chatbot/routes.ts:51-56 | with both arrays present, the handler fails with the first rejected area's error |
| `StackedAreaChart.AreaErrorKinds` | chatbot/routes.ts:52-55 | a `null` area throws the TypeError for reading `dataKey`; any other rejected area gives "Each area must have…"; an area is accepted iff well formed |
| `StackedAreaChart.DataElementsIgnored` | chatbot/routes.ts:43-72 | the elements of `data` are never inspected: any other `data` array gives the same verdict, the same config and that array as `data` |
| `StackedAreaChart.ValidParamsRecord` | chatbot/routes.ts:58-73 | valid input gives a record named `create_stacked_area_chart` of type `stacked-area`, with `areas`, `data` and `title` identical to the input and the id `chart-<clock>` |
| `StackedAreaChart.TruthinessDefaults` | chatbot/routes.ts:65-67 | `xAxisKey` and `height` keep a truthy caller value and become `"name"` and `400` when absent or falsy, a supplied `0` included |
| `StackedAreaChart.FlagsOffOnlyForFalse` | chatbot/routes.ts:68-70 | each of `showGrid`, `showLegend`, `showTooltip` is false exactly when the caller passed the boolean `false` |
| `StackedAreaChart.IdEncodesClock` | chatbot/routes.ts:59 | the id is `chart-` followed by decimal digits that denote the clock reading |
| `StackedAreaChart.MissingStackIdRejected` | chatbot/routes.ts:51-56 | with `data` and `areas` arrays, an object area without `stackId` preceded only by accepted areas makes the call fail with the single "Each area must have…" error and no record |
| `ToolRegistry.FindFrom` | chatbot/routes.ts:221 | `find` returns the first tool whose name strictly equals `toolName`, and nothing iff no tool has that name |
| `ToolRegistry.UnknownToolNotFound` | chatbot/routes.ts:221-234 | an unknown name gives "Tool <name> not found" and no handler result; when the name holds an object with its own `toString` key, building that text throws and the answer is "Tool execution failed" with "Cannot convert object to primitive value" |
| `ToolRegistry.KnownToolRunsHandler` | chatbot/routes.ts:221-234 | a known name answers exactly the first such tool's handler result, and a thrown error as "Tool execution failed" with the error's message |
| `ToolRegistry.UniqueNameIsFound` | chatbot/routes.ts:221 | in a registry with distinct names, looking up a tool's name finds that tool |
| `ToolRegistry.RegistryNamesUnique` | chatbot/routes.ts:78-153 | `TOOLS` declares each name once |
| `ToolRegistry.ChartToolExecution` | chatbot/routes.ts:217-236 | executing `create_stacked_area_chart` succeeds iff its parameters are valid, and answers the handler's record or its error message |
| `ToolRegistry.OtherNamesNotFound` | chatbot/routes.ts:217-236 | any other `toolName` gives the not-found answer naming it, always when it is absent or a string; one holding an object with its own `toString` key gives "Tool execution failed" with "Cannot convert object to primitive value" |
| `ToolRegistry.AdvertisedToolsAreDispatchable` | chatbot/routes.ts:221-245 | a name is advertised iff the execution route finds it, and the advertised parameters are those of the tool it runs |
| `ToolRegistry.AvailableToolsListing` | chatbot/routes.ts:239-245 | `getAvailableTools()` lists the one chart tool with its name, description and declared schema, and no handler |
| `ToolRegistry.DefaultsMatchSchema` | chatbot/routes.ts:65-148 | for each absent optional field the handler's value is the schema's declared default (`"name"`, `400`, `true`) |
| `ToolRegistry.RequiredParamsMatchSchema` | chatbot/routes.ts:43-150 | omitting any parameter the schema lists as required makes the handler throw |
| `ToolRegistry.AreaRequiredList` | chatbot/routes.ts:121 | the schema requires `dataKey`, `stackId` and `fill` of each area |
| `ToolRegistry.AreaRequiredMatchesSchema` | chatbot/routes.ts:52-121 | an area passes the handler's check iff it is an object whose schema-required keys are all truthy |
| `Chat.StackedMentionIsAreaMention` | chatbot/routes.ts:170-171 | a text containing "stacked area chart" contains "area chart" |
| `Chat.RoutingIsAreaChartMatch` | chatbot/routes.ts:170-171 | the route's two tests come down to one: the lower-cased message contains "area chart" |
| `Chat.RoutingIgnoresCase` | chatbot/routes.ts:170-171 | messages that agree up to ASCII case are routed alike |
| `Chat.ExampleParamsValid` | chatbot/routes.ts:174-193 | the built-in sample parameters pass the handler's validation |
| `Chat.ExampleChartIsCreated` | chatbot/routes.ts:189-193 | the handler turns the sample into the record with title "Sample Stacked Area Chart", the sample areas and data, `xAxisKey` "name", height 400 and all flags on |
| `Chat.HandleChatRequest` | chatbot/routes.ts:156-214 | an absent or falsy message gives "Message is required"; a truthy non-string gives the internal-error answer; otherwise exactly one sample chart call and the "I've created…" content iff the lower-cased message contains "area chart", else no tool calls and the fallback content; a truthy `conversation_id` is echoed, otherwise `conv-<clock>` |

## Left out

- Express `Request`/`Response` plumbing, `res.status`, `res.json` and `console.error`. Each route's result is an outcome datatype whose constructor names the branch. The HTTP status codes appear only in comments.
- `Date.now()`: its readings are parameters. The chat route reads the clock twice, once for the chart id and once for the conversation id, so it takes two timestamps. Uniqueness of ids is not modelled.
- Request bodies are `map<string, Json>`. Express's JSON parser yields an object or an array, and an array body reads like `{}`. A missing body, whose destructuring would throw, is not modelled.
- JavaScript numbers: only integers, and exact ones. NaN, fractions and the exponent notation `String()` uses from 1e21 upward are not modelled. Nor is the rounding `JSON.parse` applies to integers beyond 2^53: a `height` of 9007199254740993 reaches the source as 9007199254740992, and a numeric `toolName` in the not-found text changes the same way.
- `toLowerCase` lowers only the ASCII letters A-Z. Unicode case mapping is not modelled.
- The `TypeError` messages for a property read on `null`/`undefined`, for calling `toLowerCase` on a non-string and for converting an object with its own `toString` key to a string follow V8's wording. Other engines word them differently.
- `ToolCall.parameters`, declared `any` in the source, is the typed `ChartParameters`. The chart tool is the only producer of records.
- JSON serialisation of the reply is not modelled. When serialised, an absent `title` or `toolCalls` key is dropped.
- The chat route's `catch` around the handler call. `Chat.ExampleChartIsCreated` proves the sample call cannot throw, so that path cannot be taken.
- The chat request's `tools` field. It is destructured but never used.
- `src/app/assistant/useChatStream.ts`: a React hook with client state and `fetch`. Its `AVAILABLE_TOOLS` is a duplicate of the schema in `TOOLS`.
- `src/components/charts/*`: chart rendering and sample data. These are presentation only.
