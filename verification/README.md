# MCP client message schemas, modelled in Dafny

This project models the message schema layer of a small MCP ("Model Context
Protocol") client. That layer is the set of zod declarations in
`src/schemas/*.ts` that describe:

- the JSON-RPC 2.0 envelopes: request, notification, response and error
  (sections 4, 4.1, 5 and 5.1 of the JSON-RPC 2.0 Specification);
- the MCP payloads carried in those envelopes: the `initialize` handshake,
  `tools/list`, `tools/call`, and the progress and cancellation
  notifications.

The model has three layers:

- `Json` (json.dfy) is the JSON value a schema is asked about. Objects are
  finite maps, as JavaScript objects are. `Option.None` stands for
  `undefined`, the value read at a key the object does not have.
- `Zod` (zod.dfy) is the fragment of zod the schema files use, written as a
  schema datatype (`ZString`, `ZLiteral`, `ZObject`, …) with one acceptance
  predicate, `Accepts`. It follows zod's defaults:
  - an object schema checks every key of its shape against the member at that
    key, present or absent, and ignores every other key;
  - `.optional()` and `z.unknown()` accept an absent member;
  - `.extend(ext)` builds the shape `{...base, ...ext}`, so a key of `ext`
    replaces the same key of `base`.
  The generic facts about these semantics are proved once here: `.extend`
  with narrower fields gives a narrower schema, unknown keys never change the
  verdict, and different literal tags at the same key make two schemas
  disjoint.
- `JsonRpc`, `Initialization`, `Tools` and `Notifications` hold one Dafny
  constant per zod constant, declared the same way: `Extend` where the source
  calls `.extend`. For each schema a lemma characterises validity in plain
  JSON terms, in both directions: which members are required, which are
  optional, and what each must look like. `TestExchange` checks the concrete
  messages of `src/initialize.test.ts` against these schemas.

The code, not the JSON-RPC standard, is followed where the two differ:

- a `null` id is rejected;
- `result: z.unknown()` also accepts a missing `result`, so a response is not
  required to carry one;
- a message may carry both `result` and `error` and still pass both schemas
  (`JsonRpc.ResultAndErrorTogether`).

`src/initialize.test.ts` also expects an initialize/initialized handshake
(lines 74-78), distinct ids for successive requests (lines 93-96) and an
error from a client that was not initialized (lines 113-114). `src/client.ts`
is a stub that implements none of this, so the model leaves it out.

## Model

| member | source | states |
|---|---|---|
| Zod.Accepts | src/schemas/json-rpc.ts:6-35 | How `safeParse` judges a value, for the zod constructs the schema files use: `z.string()`, `z.number()`, `z.boolean()`, `z.literal`, `z.unknown()`, `.optional()`, `z.union`, `z.array`, `z.record` and non-strict `z.object`. An absent member is `undefined` |
| JsonRpc.JsonRpcVersion | src/schemas/json-rpc.ts:4 | The protocol version string "2.0" |
| JsonRpc.RequestIdSchema | src/schemas/json-rpc.ts:6 | `z.union([z.string(), z.number()])` |
| JsonRpc.JsonRpcRequestSchema | src/schemas/json-rpc.ts:8-13 | The request envelope: literal version, id, string method, optional unknown params |
| JsonRpc.JsonRpcNotificationSchema | src/schemas/json-rpc.ts:15-19 | The notification envelope: literal version, string method, optional unknown params |
| JsonRpc.JsonRpcResponseSchema | src/schemas/json-rpc.ts:21-25 | The response envelope: literal version, id, unknown result |
| JsonRpc.ErrorObjectSchema | src/schemas/json-rpc.ts:30-34 | The inline `error` object: numeric code, string message, unknown data |
| JsonRpc.JsonRpcErrorSchema | src/schemas/json-rpc.ts:27-35 | The error envelope: literal version, id, error object |
| Initialization.ListChangedSchema | src/schemas/initialization.ts:7-9 | The inline `{ listChanged: z.boolean().optional() }` object, used for roots, prompts and tools |
| Initialization.ClientCapabilitiesSchema | src/schemas/initialization.ts:5-12 | The client capabilities object, every member optional |
| Initialization.ResourcesCapabilitySchema | src/schemas/initialization.ts:21-24 | The inline resources capability object |
| Initialization.ServerCapabilitiesSchema | src/schemas/initialization.ts:14-28 | The server capabilities object, every member optional |
| Initialization.ImplementationSchema | src/schemas/initialization.ts:30-34 | The implementation descriptor |
| Initialization.InitializeParamsSchema | src/schemas/initialization.ts:38-42 | The inline initialize params object |
| Initialization.InitializeRequestSchema | src/schemas/initialization.ts:36-43 | The request envelope extended with method "initialize" and required params |
| Initialization.InitializeResultSchema | src/schemas/initialization.ts:45-50 | The initialize result object |
| Initialization.InitializedNotificationSchema | src/schemas/initialization.ts:52-54 | The notification envelope extended with method "notifications/initialized" |
| Tools.ContentBlockSchema | src/schemas/tools.ts:5-8 | The text content block |
| Tools.ToolInputSchema | src/schemas/tools.ts:15-19 | The inline input schema object of a tool |
| Tools.ToolSchema | src/schemas/tools.ts:11-20 | The tool descriptor |
| Tools.CallToolParamsSchema | src/schemas/tools.ts:25-28 | The inline call-tool params object |
| Tools.CallToolRequestSchema | src/schemas/tools.ts:23-29 | The request envelope extended with method "tools/call" and required params |
| Tools.CallToolResultSchema | src/schemas/tools.ts:32-36 | The call-tool result object |
| Tools.ListToolsParamsSchema | src/schemas/tools.ts:41-43 | The inline list-tools params object |
| Tools.ListToolsRequestSchema | src/schemas/tools.ts:39-44 | The request envelope extended with method "tools/list" and optional params |
| Tools.ListToolsResultSchema | src/schemas/tools.ts:47-50 | The list-tools result object |
| Notifications.ProgressTokenSchema | src/schemas/notifications.ts:5 | `z.union([z.string(), z.number()])` |
| Notifications.ProgressParamsSchema | src/schemas/notifications.ts:10-15 | The inline progress params object |
| Notifications.ProgressNotificationSchema | src/schemas/notifications.ts:8-16 | The notification envelope extended with method "notifications/progress" and required params |
| Notifications.CancelledParamsSchema | src/schemas/notifications.ts:21-24 | The inline cancelled params object |
| Notifications.CancelledNotificationSchema | src/schemas/notifications.ts:19-25 | The notification envelope extended with method "notifications/cancelled" and required params |
| Zod.Extend | src/schemas/tools.ts:23 | `.extend` keeps every key of the base and adds those of the extension; an extension key replaces the base's schema at that key, and every other key keeps its base schema |
| Zod.ShapeRefines | src/schemas/json-rpc.ts:8-19 | A non-strict object schema with more keys, each at least as demanding, accepts only documents that the schema with fewer keys also accepts |
| Zod.ExtendRefines | src/schemas/tools.ts:23-29 | If `.extend` replaces each key with a schema that refines the one it replaces, everything the extended schema accepts is accepted by the base |
| Zod.UnknownKeyIgnored | src/schemas/json-rpc.ts:8-13 | Adding or overwriting a key outside an object schema's shape never changes whether a document is accepted |
| Zod.MissingRequiredKey | src/schemas/json-rpc.ts:8-13 | A document is rejected if it lacks a key whose schema rejects `undefined` |
| Zod.TagsDisjoint | src/schemas/tools.ts:24 | Two object schemas with different string literals at the same key accept no document in common |
| Zod.RecordOfObjects | src/schemas/initialization.ts:6 | `z.record(z.object({}))` accepts exactly the objects whose members are all objects |
| Zod.EmptyObjectAcceptsObjects | src/schemas/initialization.ts:10 | `z.object({})` accepts exactly the objects, whatever their members |
| JsonRpc.RequestIdIsStringOrNumber | src/schemas/json-rpc.ts:6 | A request id is valid iff it is a string or a number; `null` and an absent id are rejected |
| JsonRpc.RequestShape | src/schemas/json-rpc.ts:8-13 | A document is a valid request iff it is an object with `jsonrpc` "2.0", a string-or-number `id` and a string `method`; `params` is unconstrained |
| JsonRpc.NotificationShape | src/schemas/json-rpc.ts:15-19 | A document is a valid notification iff it is an object with `jsonrpc` "2.0" and a string `method`; no id is needed |
| JsonRpc.RequestIsNotification | src/schemas/json-rpc.ts:8-19 | Every valid request is also a valid notification, because the extra `id` is ignored |
| JsonRpc.ResponseShape | src/schemas/json-rpc.ts:21-25 | A document is a valid response iff it is an object with `jsonrpc` "2.0" and a string-or-number `id`; `result` may be absent |
| JsonRpc.ErrorShape | src/schemas/json-rpc.ts:27-35 | A document is a valid error envelope iff it has `jsonrpc` "2.0", a string-or-number `id`, and an `error` object with a numeric `code` and a string `message`; `data` is optional |
| JsonRpc.ResponsesNeedRequestId | src/schemas/json-rpc.ts:21-35 | Valid responses and valid error envelopes both carry a valid request id |
| JsonRpc.WrongVersionRejected | src/schemas/json-rpc.ts:4-35 | A document whose `jsonrpc` is not the string "2.0" fails the request, notification, response and error schemas |
| JsonRpc.ResultAndErrorTogether | src/schemas/json-rpc.ts:21-35 | One document carrying both `result` and `error` passes both the response and the error schema |
| Initialization.ListChangedShape | src/schemas/initialization.ts:7-9 | `{ listChanged }` accepts exactly the objects whose `listChanged` is absent or a boolean |
| Initialization.ClientCapabilitiesShape | src/schemas/initialization.ts:5-12 | Valid client capabilities are exactly the objects in which each of `experimental`, `roots`, `sampling` and `elicitation` is absent or has its declared shape |
| Initialization.EmptyClientCapabilities | src/schemas/initialization.ts:5-12 | `{}` is valid client capabilities |
| Initialization.ResourcesCapabilityShape | src/schemas/initialization.ts:21-24 | The resources capability accepts exactly the objects whose `subscribe` and `listChanged` are each absent or a boolean |
| Initialization.ServerCapabilitiesShape | src/schemas/initialization.ts:14-28 | Valid server capabilities are exactly the objects in which `experimental` is absent or an object of objects, `logging` and `completions` are absent or objects, and `prompts`, `resources` and `tools` are absent or objects whose `listChanged` and `subscribe` flags are absent or booleans |
| Initialization.ServerCapabilityFlags | src/schemas/initialization.ts:18-27 | In valid server capabilities, a present `prompts`, `resources` or `tools` is an object, and its `listChanged` and `subscribe` flags are booleans whenever they are present |
| Initialization.ToolsOnlyServerCapabilities | src/schemas/initialization.ts:14-28 | `{ tools: {} }` is valid server capabilities |
| Initialization.ImplementationShape | src/schemas/initialization.ts:30-34 | An implementation descriptor is valid iff it is an object with string `name` and `version`; `title` is absent or a string |
| Initialization.InitializeRequestIsRequest | src/schemas/initialization.ts:36-37 | Every valid initialize request is a valid JSON-RPC request whose method is exactly "initialize" |
| Initialization.InitializeParamsShape | src/schemas/initialization.ts:38-42 | Initialize params are valid iff they are an object with a string `protocolVersion`, valid client `capabilities` and a valid `clientInfo`, all three required |
| Initialization.InitializeRequestShape | src/schemas/initialization.ts:36-43 | A document is a valid initialize request iff it is a valid request with method "initialize" and valid, present params |
| Initialization.InitializeResultShape | src/schemas/initialization.ts:45-50 | An initialize result is valid iff it has a string `protocolVersion`, valid server `capabilities` and a valid `serverInfo`; `instructions` is absent or a string |
| Initialization.InitializedNotificationShape | src/schemas/initialization.ts:52-54 | A document is a valid initialized notification iff it is a valid notification whose method is exactly "notifications/initialized" |
| Tools.ContentBlockShape | src/schemas/tools.ts:5-8 | A content block is valid iff `type` is exactly "text" and `text` is a string |
| Tools.ToolInputShape | src/schemas/tools.ts:15-19 | A tool's input schema is valid iff `type` is exactly "object", `properties` is absent or an object of objects, and `required` is absent or an array of strings |
| Tools.ToolShape | src/schemas/tools.ts:11-20 | A tool is valid iff it has a string `name` and a valid `inputSchema`, with `title` and `description` each absent or a string |
| Tools.CallToolRequestIsRequest | src/schemas/tools.ts:23-24 | Every valid call-tool request is a valid JSON-RPC request whose method is exactly "tools/call" |
| Tools.CallToolParamsShape | src/schemas/tools.ts:25-28 | Call-tool params are valid iff they are an object with a string `name` and with `arguments` absent or an object |
| Tools.CallToolRequestShape | src/schemas/tools.ts:23-29 | A document is a valid call-tool request iff it is a valid request with method "tools/call" and valid, present params |
| Tools.CallToolResultShape | src/schemas/tools.ts:32-36 | A call-tool result is valid iff `content` is an array of valid content blocks, `structuredContent` is absent or an object, and `isError` is absent or a boolean |
| Tools.EmptyContentResult | src/schemas/tools.ts:33 | A result whose `content` is the empty array is valid |
| Tools.ListToolsRequestIsRequest | src/schemas/tools.ts:39-40 | Every valid list-tools request is a valid JSON-RPC request whose method is exactly "tools/list" |
| Tools.ListToolsParamsShape | src/schemas/tools.ts:41-43 | List-tools params are valid iff they are an object whose `cursor` is absent or a string |
| Tools.ListToolsRequestShape | src/schemas/tools.ts:39-44 | A document is a valid list-tools request iff it is a valid request with method "tools/list" whose `params` are absent or valid list-tools params |
| Tools.ListToolsResultShape | src/schemas/tools.ts:47-50 | A list-tools result is valid iff `tools` is an array of valid tools and `nextCursor` is absent or a string |
| Tools.CallAndListDisjoint | src/schemas/tools.ts:23-44 | No document is both a valid call-tool request and a valid list-tools request |
| Notifications.ProgressTokenIsStringOrNumber | src/schemas/notifications.ts:5 | A progress token is valid iff it is a string or a number |
| Notifications.ProgressIsNotification | src/schemas/notifications.ts:8-9 | Every valid progress notification is a valid JSON-RPC notification whose method is exactly "notifications/progress" |
| Notifications.ProgressParamsShape | src/schemas/notifications.ts:10-15 | Progress params are valid iff they have a string-or-number `progressToken` and a numeric `progress`, with `total` absent or a number and `message` absent or a string |
| Notifications.ProgressNotificationShape | src/schemas/notifications.ts:8-16 | A document is a valid progress notification iff it is a valid notification with method "notifications/progress" and valid, present params |
| Notifications.CancelledIsNotification | src/schemas/notifications.ts:19-20 | Every valid cancelled notification is a valid JSON-RPC notification whose method is exactly "notifications/cancelled" |
| Notifications.CancelledParamsShape | src/schemas/notifications.ts:21-24 | Cancelled params are valid iff they have a string-or-number `requestId`, with `reason` absent or a string |
| Notifications.CancelledNotificationShape | src/schemas/notifications.ts:19-25 | A document is a valid cancelled notification iff it is a valid notification with method "notifications/cancelled" and valid, present params |
| Notifications.ProgressAndCancelledDisjoint | src/schemas/notifications.ts:8-25 | No document is both a valid progress notification and a valid cancelled notification |
| TestExchange.SentInitializeRequestIsValid | src/initialize.test.ts:57-67 | For any string id, the initialize request the test expects is a valid initialize request and a valid JSON-RPC request |
| TestExchange.SentInitializeParamsAreValid | src/initialize.test.ts:62-66 | The params the test expects (empty client capabilities, the test's client info) are valid initialize params |
| TestExchange.ServerInitializeResultIsValid | src/initialize.test.ts:21-25 | The test server's initialize result, with capabilities `{ tools: {} }`, is a valid initialize result |
| TestExchange.ServerInitializeReplyIsValid | src/initialize.test.ts:17-26 | For any valid id, the test server's reply is a valid response, and its result is a valid initialize result |
| TestExchange.SentInitializedNotificationIsValid | src/initialize.test.ts:74-78 | The expected second message is a valid initialized notification and, having no id, not a valid request |

## Left out

- `src/client.ts` (`MCPClient`): it is a stub. `connect` returns a constant, `callTool` returns a hard-coded block, and `listTools` is a bare HTTP `fetch`. It has no `initialize`, so the behaviour `src/initialize.test.ts` expects (the initialized notification at lines 74-78, distinct ids at lines 93-96, the error before initialization at lines 113-114) has no code to model.
- `cli.ts`: process arguments, console output and `process.exit`.
- `src/schemas/index.ts`: re-exports only. `LATEST_PROTOCOL_VERSION` comes from `../mcp-specification-schema`, which is not part of this model.
- What zod's parse returns on success (the `z.infer` types, with unknown keys stripped), and its error messages and issue paths. Only acceptance is modelled.
- `z.number()` details (floating point, NaN, infinities). JSON numbers are an opaque `real`, and the schemas only ask whether a value is a number.
- The order in which `z.union` tries its options. Only whether some option accepts is modelled.
- Random request-id generation and the test server plumbing (express, ports, HTTP status 202): the id is a parameter of the example messages.
- zod's major version: the semantics follow zod 3. There, the one-argument `z.record(value)` (src/schemas/initialization.ts:6, src/schemas/tools.ts:17) has string keys, and `z.unknown()` accepts an absent key. Later zod versions change both.
- JSON text itself (parsing, duplicate keys, encodings). A document is already a parsed value.
