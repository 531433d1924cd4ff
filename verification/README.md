# A2A agent route, modelled in Dafny

This project models the one piece of logic the repository owns: the handler of
`POST /a2a/agent/:agentId` in `src/mastra/routes/a2a-agent-route.ts`. The
handler takes a JSON-RPC 2.0 request and calls a conversational agent. It
returns the agent's reply as an A2A `task`, or a JSON-RPC error.

The pipeline, as modelled:

1. Read the body. A body that fails to parse, or that is `null`, throws into
   the catch-all.
2. Check the envelope: `jsonrpc === "2.0"` and a truthy `id`. Otherwise the
   answer is HTTP 400 with code -32600. It echoes the id when that is truthy,
   else `null`.
3. Resolve the agent. An unknown agent gives HTTP 404 with code -32602.
4. Select the messages from `params || {}`. A truthy `message` wins. Otherwise
   an array `messages` is used as-is, even when it is empty. Otherwise the
   answer is HTTP 400 with code -32602.
5. Flatten each message's parts into newline-joined text for the agent.
6. Call the agent. From its reply, build the artifacts, the history, the
   status message and the A2A task envelope (HTTP 200).
7. Any thrown error becomes HTTP 500 with code -32603, `id: null` and
   `data.details` set to the error's message.

The codes are those of section 5.1 of the JSON-RPC 2.0 Specification.

Files:

- `js_value.dfy` (`JsValue`): JSON values with `undefined`, and the JavaScript
  semantics the handler relies on. That covers truthiness and `||`, property
  reads that throw on `null`/`undefined`, `Array.prototype.join`, and
  `split` (used only as the inverse of `join`).
- `a2a.dfy` (`A2A`): the collaborators (`Env`), the agent reply, the message
  selection, and the response types with their error constructors.
- `flatten.dfy` (`Flatten`): turning the selected messages into the
  role/content pairs given to `generate`.
- `task_build.dfy` (`TaskBuild`): artifacts and history. It threads a counter
  through the UUID supply, so that every `randomUUID()` call takes the next
  index.
- `route.dfy` (`Route`): message selection, the whole handler as a function
  (`Handle`), and the handler as written (`HandleRequest`, with reassigned
  locals and a push onto the artifact list). It also holds the lemmas
  relating several requests.
- `scenarios.dfy` (`Scenarios`): what the model gives for concrete requests.

The collaborators are inputs, bundled in `A2A.Env`:

- the agent registry: found, not found, or throws;
- `generate`: a reply or a thrown message;
- the UUID generator: the k-th call yields `uuid(k)`;
- the clock's ISO-8601 reading;
- `JSON.stringify`;
- JavaScript's Number-to-String conversion.

Behaviour of the code worth knowing, all modelled as written:

- An empty `messages` array is accepted, since an empty array is truthy.
- The id check is JavaScript truthiness, so an id of `0`, `""` or `false` is
  rejected as missing and answered with `id: null` (`Scenarios.ZeroIdIsInvalid`).
- A message whose `parts` is neither absent, null, nor an array, or that contains a
  `null` part, makes the handler throw a TypeError. That request ends in the
  -32603 path.
- So does a text part whose `text` is an object with its own `toString` key,
  or an array holding one: `join` cannot convert it to a string
  (`Scenarios.ObjectTextCannotBeJoined`).

## Model

| member | source | states |
|---|---|---|
| `JsValue.Join` | src/mastra/routes/a2a-agent-route.ts:77 | `join` on strings: empty for no pieces, starts with the first piece, and is as long as all pieces plus one separator between each two neighbours |
| `JsValue.Split` | src/mastra/routes/a2a-agent-route.ts:77 | reference inverse for `join`: never empty, and no piece contains the separator |
| `JsValue.JoinAppend` | src/mastra/routes/a2a-agent-route.ts:77 | joining two non-empty lists puts exactly one separator between the two joins |
| `JsValue.SplitJoin` | src/mastra/routes/a2a-agent-route.ts:77 | for a non-empty list of pieces none of which contains the separator, splitting the join on that one-character separator gives the pieces back |
| `Flatten.Mapped` | src/mastra/routes/a2a-agent-route.ts:73-77 | the value the part callback returns can be rendered by `join` exactly when the part is not a text part whose `text` holds an own `toString` key |
| `Flatten.ContributionByKind` | src/mastra/routes/a2a-agent-route.ts:74-77 | a text part contributes its text (nothing when absent or null), a data part the JSON text of its `data` (nothing when absent), any other kind nothing |
| `Flatten.Pieces` | src/mastra/routes/a2a-agent-route.ts:73-76 | the part map succeeds iff no part is null or undefined; it then gives one contribution per part, in order |
| `Flatten.Content` | src/mastra/routes/a2a-agent-route.ts:73-77 | absent or null `parts` gives `""`; a non-array throws; an array succeeds iff no part is nullish and every part renders, and then gives the per-part texts joined with `"\n"`; a part that does not render makes `join` throw its TypeError |
| `Flatten.ChatMessages` | src/mastra/routes/a2a-agent-route.ts:71-78 | flattening succeeds iff every message is flattenable (not nullish, and `parts` absent, null, or an array of parts that are not nullish and render); it then gives one entry per message, in order, with that message's role and flattened parts |
| `Flatten.ContentSplitsBack` | src/mastra/routes/a2a-agent-route.ts:73-77 | for a non-empty list of parts that are not nullish, render, and whose contributions hold no newline, flattening succeeds and splitting the content on newlines gives back each part's contribution, in order |
| `Flatten.ContentAppend` | src/mastra/routes/a2a-agent-route.ts:73-77 | for two non-empty lists of parts that flatten (none nullish, all render), flattening their concatenation is the two flattenings joined by one newline |
| `TaskBuild.AgentText` | src/mastra/routes/a2a-agent-route.ts:82 | the agent text is JavaScript's `response.text \|\| ''` on the reply's text as a JS value (absent when the reply has none) |
| `TaskBuild.ToolResultParts` | src/mastra/routes/a2a-agent-route.ts:101-104 | one data part per tool result, in order, carrying that result |
| `TaskBuild.ToolResultPartsRoundTrip` | src/mastra/routes/a2a-agent-route.ts:101-104 | the data parts' payloads are exactly the tool results |
| `TaskBuild.Artifacts` | src/mastra/routes/a2a-agent-route.ts:84-106 | the first artifact is `agentId + "Response"` with one text part of the agent text; a second, `"ToolResults"`, exists iff there are tool results and carries them all in order; one UUID per artifact |
| `TaskBuild.Entry` | src/mastra/routes/a2a-agent-route.ts:109-116 | a history entry keeps role and parts; keeps a truthy messageId, else a new UUID; keeps a truthy taskId, else the current task id, else a new UUID; keeps truthy metadata, else the derived metadata |
| `TaskBuild.InputEntries` | src/mastra/routes/a2a-agent-route.ts:109-116 | one such entry per input message, in order, each new id drawn from the UUIDs this step takes |
| `TaskBuild.History` | src/mastra/routes/a2a-agent-route.ts:108-130 | the history has one entry per input message plus one; the last has role `"agent"`, one text part of the agent text, a new messageId, the current task id or a new one, and the derived metadata |
| `Route.Select` | src/mastra/routes/a2a-agent-route.ts:45-69 | there is no selection iff `message` is falsy and `messages` is not an array; a truthy `message` gives exactly `[message]`, with context, task id and metadata from the message, else from params; otherwise the `messages` array as-is, with the params' values |
| `Route.MessageTakesPrecedence` | src/mastra/routes/a2a-agent-route.ts:51-52 | a truthy `message` wins over a `messages` array supplied beside it |
| `Route.TaskOf` | src/mastra/routes/a2a-agent-route.ts:84-158 | the A2A task is of kind `"task"`, completed, stamped by the clock, with 1 artifact without tool results and 2 with them, and n+1 history entries |
| `Route.Completed` | src/mastra/routes/a2a-agent-route.ts:132-168 | the success response is HTTP 200 with a JSON-RPC 2.0 result echoing the request id |
| `Route.CompletedEnvelope` | src/mastra/routes/a2a-agent-route.ts:132-158 | success is HTTP 200 echoing the request id, with kind `"task"`, state `"completed"`, the clock's timestamp, and a status message from the agent carrying exactly the agent text |
| `Route.CompletedIds` | src/mastra/routes/a2a-agent-route.ts:132-138 | the status message id is a new UUID; task and context ids are the derived ones when truthy, else new UUIDs of this request |
| `Route.CompletedArtifacts` | src/mastra/routes/a2a-agent-route.ts:84-106 | the A2A task has 1 artifact when there are no tool results and 2 otherwise; the first is `agentId + "Response"` with the agent text, the second `"ToolResults"` with every result in order |
| `Route.CompletedHistory` | src/mastra/routes/a2a-agent-route.ts:108-130 | the A2A task's history has n+1 entries, each input message echoed in order, and ends with the agent's text under the derived metadata and task id |
| `Route.Handle` | src/mastra/routes/a2a-agent-route.ts:12-184 | every answer is a JSON-RPC 2.0 envelope with status 200, 400, 404 or 500; a result comes exactly with 200; a 500 always has -32603, `id: null` and details |
| `Route.Dispatch` | src/mastra/routes/a2a-agent-route.ts:33-158 | after a valid envelope: the same envelope guarantees as `Handle`, for the registry, selection, flattening and agent steps |
| `Route.InvalidEnvelopeRejected` | src/mastra/routes/a2a-agent-route.ts:22-31 | a readable body with a bad `jsonrpc` or a falsy id gets 400 with -32600, the id echoed when truthy, else null |
| `Route.UnknownAgentRejected` | src/mastra/routes/a2a-agent-route.ts:33-43 | 404 happens iff the envelope is valid and the registry does not know the agent; it carries -32602 and the request id |
| `Route.MissingMessagesRejected` | src/mastra/routes/a2a-agent-route.ts:45-69 | 400 with -32602 happens iff the envelope is valid, the agent known and the params offer no usable message; it echoes the request id |
| `Route.SuccessExactlyWhenAllStepsSucceed` | src/mastra/routes/a2a-agent-route.ts:12-168 | 200 happens iff every step succeeds, and then the response is the A2A task built from the agent's reply |
| `Route.FailuresBecomeInternalErrors` | src/mastra/routes/a2a-agent-route.ts:170-183 | a body that fails to parse, a null body, a registry that throws, a message that cannot be flattened and an agent that throws each give 500 with the thrown message as details |
| `Route.HandleRequest` | src/mastra/routes/a2a-agent-route.ts:12-184 | the handler as written, with early returns, reassigned locals and the artifact push, computes exactly `Handle` |
| `Route.BuildArtifacts` | src/mastra/routes/a2a-agent-route.ts:84-106 | the artifact list built by a push computes exactly `Artifacts` |
| `Route.Respond` | src/mastra/routes/a2a-agent-route.ts:82-158 | the success path as written computes exactly `Completed` |
| `Route.MintTaskIds` | src/mastra/routes/a2a-agent-route.ts:132-138 | the UUID calls after the history, as written, take the status message id first, then a task id and a context id only where the derived ones are falsy, matching `TaskOf` |
| `Route.MintedIdsDistinct` | src/mastra/routes/a2a-agent-route.ts:86-138 | with a non-repeating UUID generator, the artifact ids, the status message id, and the generated task and context ids are pairwise distinct |
| `Route.MintedHistoryIdsApart` | src/mastra/routes/a2a-agent-route.ts:86-138 | with a non-repeating UUID generator, every generated history id (input entries' messageId and taskId, the agent entry's messageId and taskId) differs from the artifact ids, the status message id and the generated task and context ids |
| `Route.ParamsMatterOnlyThroughSelection` | src/mastra/routes/a2a-agent-route.ts:45-69 | two requests whose params yield the same message selection get the same response |
| `Route.SelectionIgnoresConfiguration` | src/mastra/routes/a2a-agent-route.ts:45-59 | message selection is the same with or without `configuration` |
| `Route.ConfigurationIgnored` | src/mastra/routes/a2a-agent-route.ts:160-168 | `configuration`, including a non-blocking one with a push URL, does not change the response |
| `Route.EnvelopeCheckedFirst` | src/mastra/routes/a2a-agent-route.ts:22-43 | with an invalid envelope, the response depends neither on the agent id nor on any collaborator |
| `Route.AgentResolvedBeforeParams` | src/mastra/routes/a2a-agent-route.ts:33-69 | for an unknown agent, the response is the same whatever the params hold |
| `Scenarios.WeatherQuestionReachesAgent` | src/mastra/routes/a2a-agent-route.ts:45-78 | the weather question reaches the agent as one user message with the text part's text |
| `Scenarios.WeatherQuestionCompletes` | src/mastra/routes/a2a-agent-route.ts:133-158 | a known agent that answers gives 200, id 1, a completed task, a text part first in the first artifact, and a history of two |
| `Scenarios.UnknownAgentIsNotFound` | src/mastra/routes/a2a-agent-route.ts:33-43 | agent `ghost` unknown: 404, -32602, id echoed |
| `Scenarios.OldVersionIsInvalid` | src/mastra/routes/a2a-agent-route.ts:22-31 | `jsonrpc: "1.0"`: 400, -32600, with a message naming the required version |
| `Scenarios.ZeroIdIsInvalid` | src/mastra/routes/a2a-agent-route.ts:22-31 | id 0 is falsy: 400, -32600, id `null` |
| `Scenarios.ObjectTextCannotBeJoined` | src/mastra/routes/a2a-agent-route.ts:73-77 | a text part whose `text` is `{toString: 0}` makes the flattening throw `join`'s TypeError |
| `Scenarios.AgentFailureIsInternalError` | src/mastra/routes/a2a-agent-route.ts:170-183 | an agent that throws: 500, -32603, its message as details, id `null` |

## Left out

- `src/mastra/index.ts` is not part of this model. It only configures the framework (agents, storage, logger, observability, API docs).
- HTTP plumbing: `c.req.json()` is modelled by its outcome (a value, or a thrown message), and `c.req.param` by the `agentId` argument. The JSON serialisation done by `c.json` is not modelled; for example, fields whose value is `undefined` are dropped from the wire.
- `console.log` and `console.error` are not modelled: they only write logs.
- `agent.generate` is asynchronous and opaque. It is modelled as a function from the agent id and the flattened messages to a reply or a thrown message.
- Its reply is read as the framework types it: `text` is a string or missing, and `toolResults` is an array or missing. A `toolResults` value of another type is not modelled.
- `randomUUID()` becomes an indexed supply and `new Date().toISOString()` an input string. Uniqueness holds only under the stated assumption that the supply never repeats.
- `JSON.stringify` and the conversion of a number to text are uninterpreted inputs. Numbers are exact reals, so floating-point rounding is not modelled.
- `mastra.getAgent` is modelled as a three-way outcome. Whether the framework's registry returns nothing or throws for an unknown name is framework code, which is not part of this model. The 404 path applies only when it returns nothing; when it throws, the model takes the 500 path.
- Property reads see only an object's own fields. A string's `length` and indices are not modelled, and neither are inherited members as values. The data fields the handler reads (`jsonrpc`, `id`, `params`, `message`, `role`, `parts`, `kind`, `text`, `data`, …) are never inherited. The inherited methods it reaches are modelled by their effect. The array methods `map` (line 73) and `join` (line 77) are the `Arr` case of `Flatten.Content`; any other value that is not null or undefined has no callable `map`, so that call throws. `join` converts each element to a string through its `toString`, then its `valueOf`, and `JsValue.Renderable` models when that conversion fails.
- The TypeError messages (reading from `null`, destructuring `null`, calling a missing `map`, converting an object to a string) follow the V8 engine's wording. Only where they go (into `data.details`) matters to the model.
- The non-blocking webhook branch (lines 160-166) only logs. No asynchronous delivery is modelled.
- `Flatten.ChatMessages`: its contract does not say which message's error is reported when several fail. The body reports the first, as the source's `map` does.
- `Route.MintedHistoryIdsApart`: does not state that two ids generated for the history differ from each other (two entries' ids, or one entry's messageId and taskId). It shows only that each differs from the artifact, status, task and context ids.
