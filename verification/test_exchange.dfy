/** The messages exchanged in src/initialize.test.ts, checked against the
    schemas they are meant to satisfy. */
module TestExchange {
  import opened Json
  import opened Zod
  import opened JsonRpc
  import opened Initialization

  /** The initialize request the test expects the client to send; the test
      accepts any string as its id. */
  function SentInitializeRequest(id: string): Json {
    JObject(map[
      "jsonrpc" := JString("2.0"),
      "id" := JString(id),
      "method" := JString("initialize"),
      "params" := SentInitializeParams
    ])
  }

  const SentInitializeParams: Json := JObject(map[
    "protocolVersion" := JString("2025-06-18"),
    "capabilities" := JObject(map[]),
    "clientInfo" := SentClientInfo
  ])

  const SentClientInfo: Json :=
    JObject(map["name" := JString("mystical-test-familiar"), "version" := JString("0.0.0")])

  /** The result the test server answers an initialize request with. */
  const ServerInitializeResult: Json := JObject(map[
    "protocolVersion" := JString("2025-06-18"),
    "capabilities" := ServerToolsCapabilities,
    "serverInfo" := ServerInfo
  ])

  const ServerToolsCapabilities: Json := JObject(map["tools" := JObject(map[])])

  const ServerInfo: Json :=
    JObject(map["name" := JString("dark-grimoire-server"), "version" := JString("1.0.0")])

  /** The test server's reply, echoing the request's id. */
  function ServerInitializeReply(id: Json): Json {
    JObject(map[
      "jsonrpc" := JString("2.0"),
      "id" := id,
      "result" := ServerInitializeResult
    ])
  }

  /** The initialized notification the test expects as the second message. */
  const SentInitializedNotification: Json := JObject(map[
    "jsonrpc" := JString("2.0"),
    "method" := JString("notifications/initialized")
  ])

  /** Whatever string id the client picks, the expected initialize request is
      a valid initialize request, hence a valid JSON-RPC request. */
  lemma SentInitializeRequestIsValid(id: string)
    ensures Valid(InitializeRequestSchema, SentInitializeRequest(id))
    ensures Valid(JsonRpcRequestSchema, SentInitializeRequest(id))
  {
    var j := SentInitializeRequest(id);
    SentInitializeParamsAreValid();
    assert Member(j, "params") == Some(SentInitializeParams);
    assert HasVersion(j) && IsStringOrNumber(Member(j, "id"));
    InitializeRequestFromFields(j);
    InitializeRequestIsRequest(j);
  }

  lemma SentInitializeParamsAreValid()
    ensures Accepts(InitializeParamsSchema, Some(SentInitializeParams))
  {
    EmptyClientCapabilities();
    SentClientInfoIsValid();
    InitializeParamsFromFields(SentInitializeParams);
  }

  lemma SentClientInfoIsValid()
    ensures Accepts(ImplementationSchema, Some(SentClientInfo))
  {
    ImplementationShape(Some(SentClientInfo));
  }

  /** The server's reply is a valid JSON-RPC response for any id the request
      could have carried, and its result is a valid initialize result whose
      capabilities are `{ tools: {} }`. */
  lemma ServerInitializeReplyIsValid(id: Json)
    requires Accepts(RequestIdSchema, Some(id))
    ensures Valid(JsonRpcResponseSchema, ServerInitializeReply(id))
    ensures Valid(InitializeResultSchema, ServerInitializeResult)
  {
    var j := ServerInitializeReply(id);
    assert HasVersion(j) && Member(j, "id") == Some(id);
    ResponseShape(j);
    ServerInitializeResultIsValid();
  }

  lemma ServerInitializeResultIsValid()
    ensures Valid(InitializeResultSchema, ServerInitializeResult)
  {
    ToolsOnlyServerCapabilities();
    ServerInfoIsValid();
    InitializeResultFromFields(ServerInitializeResult);
  }

  lemma ServerInfoIsValid()
    ensures Accepts(ImplementationSchema, Some(ServerInfo))
  {
    ImplementationShape(Some(ServerInfo));
  }

  /** The second message is a valid initialized notification and, having no
      id, not a request. */
  lemma SentInitializedNotificationIsValid()
    ensures Valid(InitializedNotificationSchema, SentInitializedNotification)
    ensures Valid(JsonRpcNotificationSchema, SentInitializedNotification)
    ensures !Valid(JsonRpcRequestSchema, SentInitializedNotification)
  {
    NotificationShape(SentInitializedNotification);
    InitializedNotificationShape(SentInitializedNotification);
    SentInitializedNotificationIsNotRequest();
  }

  lemma SentInitializedNotificationIsNotRequest()
    ensures !Valid(JsonRpcRequestSchema, SentInitializedNotification)
  {
    RequestKeys();
    MissingRequiredKey(JsonRpcRequestSchema, SentInitializedNotification, "id");
  }
}
