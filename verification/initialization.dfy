/** The initialize handshake payloads of src/schemas/initialization.ts. */
module Initialization {
  import opened Json
  import opened Zod
  import opened JsonRpc

  /** `{ listChanged: z.boolean().optional() }`, written three times in the
      source (roots, prompts, tools). */
  const ListChangedSchema: Schema := ZObject(map["listChanged" := ZOptional(ZBoolean)])

  const ClientCapabilitiesSchema: Schema := ZObject(map[
    "experimental" := ZOptional(ZRecord(EmptyObject)),
    "roots" := ZOptional(ListChangedSchema),
    "sampling" := ZOptional(EmptyObject),
    "elicitation" := ZOptional(EmptyObject)
  ])

  /** The inline object under `resources` in ServerCapabilitiesSchema. */
  const ResourcesCapabilitySchema: Schema := ZObject(map[
    "subscribe" := ZOptional(ZBoolean),
    "listChanged" := ZOptional(ZBoolean)
  ])

  const ServerCapabilitiesSchema: Schema := ZObject(map[
    "experimental" := ZOptional(ZRecord(EmptyObject)),
    "logging" := ZOptional(EmptyObject),
    "completions" := ZOptional(EmptyObject),
    "prompts" := ZOptional(ListChangedSchema),
    "resources" := ZOptional(ResourcesCapabilitySchema),
    "tools" := ZOptional(ListChangedSchema)
  ])

  const ImplementationSchema: Schema := ZObject(map[
    "name" := ZString,
    "version" := ZString,
    "title" := ZOptional(ZString)
  ])

  /** The inline object under `params` in InitializeRequestSchema. */
  const InitializeParamsSchema: Schema := ZObject(map[
    "protocolVersion" := ZString,
    "capabilities" := ClientCapabilitiesSchema,
    "clientInfo" := ImplementationSchema
  ])

  const InitializeRequestSchema: Schema := Extend(JsonRpcRequestSchema, map[
    "method" := ZLiteral("initialize"),
    "params" := InitializeParamsSchema
  ])

  const InitializeResultSchema: Schema := ZObject(map[
    "protocolVersion" := ZString,
    "capabilities" := ServerCapabilitiesSchema,
    "serverInfo" := ImplementationSchema,
    "instructions" := ZOptional(ZString)
  ])

  const InitializedNotificationSchema: Schema := Extend(JsonRpcNotificationSchema, map[
    "method" := ZLiteral("notifications/initialized")
  ])

  // Each schema's keys, as written (for the extended ones: after `.extend`).

  lemma ClientCapabilitiesKeys()
    ensures ClientCapabilitiesSchema.shape.Keys == {"experimental", "roots", "sampling", "elicitation"}
    ensures ClientCapabilitiesSchema.shape["experimental"] == ZOptional(ZRecord(EmptyObject))
    ensures ClientCapabilitiesSchema.shape["roots"] == ZOptional(ListChangedSchema)
    ensures ClientCapabilitiesSchema.shape["sampling"] == ZOptional(EmptyObject)
    ensures ClientCapabilitiesSchema.shape["elicitation"] == ZOptional(EmptyObject)
  {
  }

  lemma ServerCapabilitiesKeys()
    ensures ServerCapabilitiesSchema.shape.Keys ==
      {"experimental", "logging", "completions", "prompts", "resources", "tools"}
  {
  }

  lemma ServerCapabilitiesEntries()
    ensures "experimental" in ServerCapabilitiesSchema.shape
    ensures "logging" in ServerCapabilitiesSchema.shape
    ensures "completions" in ServerCapabilitiesSchema.shape
    ensures "prompts" in ServerCapabilitiesSchema.shape
    ensures "resources" in ServerCapabilitiesSchema.shape
    ensures "tools" in ServerCapabilitiesSchema.shape
    ensures ServerCapabilitiesSchema.shape["experimental"] == ZOptional(ZRecord(EmptyObject))
    ensures ServerCapabilitiesSchema.shape["logging"] == ZOptional(EmptyObject)
    ensures ServerCapabilitiesSchema.shape["completions"] == ZOptional(EmptyObject)
    ensures ServerCapabilitiesSchema.shape["prompts"] == ZOptional(ListChangedSchema)
    ensures ServerCapabilitiesSchema.shape["resources"] == ZOptional(ResourcesCapabilitySchema)
    ensures ServerCapabilitiesSchema.shape["tools"] == ZOptional(ListChangedSchema)
  {
  }

  lemma ImplementationKeys()
    ensures ImplementationSchema.shape.Keys == {"name", "version", "title"}
    ensures ImplementationSchema.shape["name"] == ZString
    ensures ImplementationSchema.shape["version"] == ZString
    ensures ImplementationSchema.shape["title"] == ZOptional(ZString)
  {
  }

  lemma InitializeParamsKeys()
    ensures InitializeParamsSchema.shape.Keys == {"protocolVersion", "capabilities", "clientInfo"}
    ensures InitializeParamsSchema.shape["protocolVersion"] == ZString
    ensures InitializeParamsSchema.shape["capabilities"] == ClientCapabilitiesSchema
    ensures InitializeParamsSchema.shape["clientInfo"] == ImplementationSchema
  {
  }

  lemma InitializeRequestKeys()
    ensures InitializeRequestSchema.shape.Keys == {"jsonrpc", "id", "method", "params"}
    ensures InitializeRequestSchema.shape["jsonrpc"] == ZLiteral(JsonRpcVersion)
    ensures InitializeRequestSchema.shape["id"] == RequestIdSchema
    ensures InitializeRequestSchema.shape["method"] == ZLiteral("initialize")
    ensures InitializeRequestSchema.shape["params"] == InitializeParamsSchema
  {
    RequestKeys();
  }

  lemma InitializeResultKeys()
    ensures InitializeResultSchema.shape.Keys ==
      {"protocolVersion", "capabilities", "serverInfo", "instructions"}
    ensures InitializeResultSchema.shape["protocolVersion"] == ZString
    ensures InitializeResultSchema.shape["capabilities"] == ServerCapabilitiesSchema
    ensures InitializeResultSchema.shape["serverInfo"] == ImplementationSchema
    ensures InitializeResultSchema.shape["instructions"] == ZOptional(ZString)
  {
  }

  lemma InitializedNotificationKeys()
    ensures InitializedNotificationSchema.shape.Keys == {"jsonrpc", "method", "params"}
    ensures InitializedNotificationSchema.shape["jsonrpc"] == ZLiteral(JsonRpcVersion)
    ensures InitializedNotificationSchema.shape["method"] == ZLiteral("notifications/initialized")
    ensures InitializedNotificationSchema.shape["params"] == ZOptional(ZUnknown)
  {
    NotificationKeys();
  }

  /** `{ listChanged?: boolean }`: an object whose `listChanged`, when present,
      is a boolean. */
  lemma ListChangedShape(v: Option<Json>)
    ensures Accepts(ListChangedSchema, v) <==>
      IsObject(v) && OptionalBool(Member(v.value, "listChanged"))
  {
    if Accepts(ListChangedSchema, v) {
      MemberAccepted(ListChangedSchema, v.value, "listChanged");
    }
  }

  /** Every client capability is optional; each one, when present, has the
      declared shape. */
  lemma ClientCapabilitiesShape(j: Json)
    ensures Valid(ClientCapabilitiesSchema, j) <==>
      && j.JObject?
      && (Member(j, "experimental").None? || IsObjectOfObjects(Member(j, "experimental")))
      && (Member(j, "roots").None? || Accepts(ListChangedSchema, Member(j, "roots")))
      && OptionalObject(Member(j, "sampling"))
      && OptionalObject(Member(j, "elicitation"))
  {
    RecordOfObjects(Member(j, "experimental"));
    if Valid(ClientCapabilitiesSchema, j) {
      ClientCapabilitiesToFields(j);
    }
    if && j.JObject?
       && (Member(j, "experimental").None? || IsObjectOfObjects(Member(j, "experimental")))
       && (Member(j, "roots").None? || Accepts(ListChangedSchema, Member(j, "roots")))
       && OptionalObject(Member(j, "sampling"))
       && OptionalObject(Member(j, "elicitation"))
    {
      ClientCapabilitiesFromFields(j);
    }
  }

  lemma ClientCapabilitiesToFields(j: Json)
    requires Valid(ClientCapabilitiesSchema, j)
    ensures j.JObject?
    ensures Accepts(ZOptional(ZRecord(EmptyObject)), Member(j, "experimental"))
    ensures Accepts(ZOptional(ListChangedSchema), Member(j, "roots"))
    ensures Accepts(ZOptional(EmptyObject), Member(j, "sampling"))
    ensures Accepts(ZOptional(EmptyObject), Member(j, "elicitation"))
  {
    ClientCapabilitiesKeys();
    MemberAccepted(ClientCapabilitiesSchema, j, "experimental");
    MemberAccepted(ClientCapabilitiesSchema, j, "roots");
    MemberAccepted(ClientCapabilitiesSchema, j, "sampling");
    MemberAccepted(ClientCapabilitiesSchema, j, "elicitation");
  }

  lemma ClientCapabilitiesFromFields(j: Json)
    requires j.JObject?
    requires Accepts(ZOptional(ZRecord(EmptyObject)), Member(j, "experimental"))
    requires Accepts(ZOptional(ListChangedSchema), Member(j, "roots"))
    requires Accepts(ZOptional(EmptyObject), Member(j, "sampling"))
    requires Accepts(ZOptional(EmptyObject), Member(j, "elicitation"))
    ensures Valid(ClientCapabilitiesSchema, j)
  {
    ClientCapabilitiesKeys();
    ObjectOfFour(ClientCapabilitiesSchema, j, "experimental", "roots", "sampling", "elicitation");
  }


  /** `{}` is valid client capabilities: this is what the client sends. */
  lemma EmptyClientCapabilities()
    ensures Valid(ClientCapabilitiesSchema, JObject(map[]))
  {
    ClientCapabilitiesShape(JObject(map[]));
  }

  /** `{ subscribe?: boolean, listChanged?: boolean }`. */
  lemma ResourcesCapabilityShape(v: Option<Json>)
    ensures Accepts(ResourcesCapabilitySchema, v) <==>
      && IsObject(v)
      && OptionalBool(Member(v.value, "subscribe"))
      && OptionalBool(Member(v.value, "listChanged"))
  {
    if Accepts(ResourcesCapabilitySchema, v) {
      MemberAccepted(ResourcesCapabilitySchema, v.value, "subscribe");
      MemberAccepted(ResourcesCapabilitySchema, v.value, "listChanged");
    }
  }

  /** `prompts` or `tools` as announced by a server: absent, or an object whose
      `listChanged`, when present, is a boolean. */
  predicate ListChangedEntry(v: Option<Json>) {
    v.None? || (IsObject(v) && OptionalBool(Member(v.value, "listChanged")))
  }

  /** `resources` as announced by a server: absent, or an object whose
      `subscribe` and `listChanged`, when present, are booleans. */
  predicate ResourcesEntry(v: Option<Json>) {
    || v.None?
    || (&& IsObject(v)
        && OptionalBool(Member(v.value, "subscribe"))
        && OptionalBool(Member(v.value, "listChanged")))
  }

  lemma ListChangedEntryAccepts(v: Option<Json>)
    ensures Accepts(ZOptional(ListChangedSchema), v) <==> ListChangedEntry(v)
  {
    ListChangedShape(v);
  }

  lemma ResourcesEntryAccepts(v: Option<Json>)
    ensures Accepts(ZOptional(ResourcesCapabilitySchema), v) <==> ResourcesEntry(v)
  {
    ResourcesCapabilityShape(v);
  }

  /** Server capabilities in plain JSON terms: an object in which every
      member is optional and, when present, has its declared shape. */
  predicate ServerCapabilitiesFields(j: Json) {
    && j.JObject?
    && (Member(j, "experimental").None? || IsObjectOfObjects(Member(j, "experimental")))
    && OptionalObject(Member(j, "logging"))
    && OptionalObject(Member(j, "completions"))
    && ListChangedEntry(Member(j, "prompts"))
    && ResourcesEntry(Member(j, "resources"))
    && ListChangedEntry(Member(j, "tools"))
  }

  /** Every server capability is optional: `experimental` is an object of
      objects, `logging` and `completions` are objects, and `prompts`,
      `resources` and `tools` are objects whose flags are booleans. */
  lemma ServerCapabilitiesShape(j: Json)
    ensures Valid(ServerCapabilitiesSchema, j) <==> ServerCapabilitiesFields(j)
  {
    if Valid(ServerCapabilitiesSchema, j) {
      ServerCapabilitiesToFields(j);
      ServerCapabilitiesFieldsFromMembers(j);
    }
    if ServerCapabilitiesFields(j) {
      ServerCapabilitiesFromFields(j);
    }
  }

  lemma ServerCapabilitiesToFields(j: Json)
    requires Valid(ServerCapabilitiesSchema, j)
    ensures j.JObject?
    ensures Accepts(ZOptional(ZRecord(EmptyObject)), Member(j, "experimental"))
    ensures Accepts(ZOptional(EmptyObject), Member(j, "logging"))
    ensures Accepts(ZOptional(EmptyObject), Member(j, "completions"))
    ensures Accepts(ZOptional(ListChangedSchema), Member(j, "prompts"))
    ensures Accepts(ZOptional(ResourcesCapabilitySchema), Member(j, "resources"))
    ensures Accepts(ZOptional(ListChangedSchema), Member(j, "tools"))
  {
    ServerCapabilitiesEntries();
    MemberAccepted(ServerCapabilitiesSchema, j, "experimental");
    MemberAccepted(ServerCapabilitiesSchema, j, "logging");
    MemberAccepted(ServerCapabilitiesSchema, j, "completions");
    MemberAccepted(ServerCapabilitiesSchema, j, "prompts");
    MemberAccepted(ServerCapabilitiesSchema, j, "resources");
    MemberAccepted(ServerCapabilitiesSchema, j, "tools");
  }

  lemma ServerCapabilitiesFieldsFromMembers(j: Json)
    requires j.JObject?
    requires Accepts(ZOptional(ZRecord(EmptyObject)), Member(j, "experimental"))
    requires Accepts(ZOptional(EmptyObject), Member(j, "logging"))
    requires Accepts(ZOptional(EmptyObject), Member(j, "completions"))
    requires Accepts(ZOptional(ListChangedSchema), Member(j, "prompts"))
    requires Accepts(ZOptional(ResourcesCapabilitySchema), Member(j, "resources"))
    requires Accepts(ZOptional(ListChangedSchema), Member(j, "tools"))
    ensures ServerCapabilitiesFields(j)
  {
    RecordOfObjects(Member(j, "experimental"));
    ListChangedEntryAccepts(Member(j, "prompts"));
    ListChangedEntryAccepts(Member(j, "tools"));
    ResourcesEntryAccepts(Member(j, "resources"));
  }

  lemma ServerCapabilitiesFromFields(j: Json)
    requires ServerCapabilitiesFields(j)
    ensures Valid(ServerCapabilitiesSchema, j)
  {
    forall k | k in ServerCapabilitiesSchema.shape
      ensures Accepts(ServerCapabilitiesSchema.shape[k], Member(j, k))
    {
      ServerCapabilityFromField(j, k);
    }
  }

  lemma ServerCapabilityFromField(j: Json, k: string)
    requires ServerCapabilitiesFields(j)
    requires k in ServerCapabilitiesSchema.shape
    ensures Accepts(ServerCapabilitiesSchema.shape[k], Member(j, k))
  {
    ServerCapabilitiesKeys();
    ServerCapabilitiesEntries();
    var v := Member(j, k);
    if k == "experimental" {
      RecordOfObjects(v);
    } else if k == "logging" || k == "completions" {
      assert OptionalObject(v);
    } else if k == "prompts" || k == "tools" {
      ListChangedEntryAccepts(v);
    } else {
      assert k == "resources";
      ResourcesEntryAccepts(v);
    }
  }

  /** In valid server capabilities, a present `prompts`, `resources` or
      `tools` is an object, and its `listChanged` and `subscribe` flags, when
      present, are booleans. */
  lemma ServerCapabilityFlags(j: Json)
    requires Valid(ServerCapabilitiesSchema, j)
    ensures Member(j, "prompts").Some? ==>
      && IsObject(Member(j, "prompts"))
      && OptionalBool(Member(j.fields["prompts"], "listChanged"))
    ensures Member(j, "tools").Some? ==>
      && IsObject(Member(j, "tools"))
      && OptionalBool(Member(j.fields["tools"], "listChanged"))
    ensures Member(j, "resources").Some? ==>
      && IsObject(Member(j, "resources"))
      && OptionalBool(Member(j.fields["resources"], "listChanged"))
      && OptionalBool(Member(j.fields["resources"], "subscribe"))
  {
    ServerCapabilitiesShape(j);
  }

  /** `{ tools: {} }`, the capabilities the test server announces, is valid. */
  lemma ToolsOnlyServerCapabilities()
    ensures Valid(ServerCapabilitiesSchema, JObject(map["tools" := JObject(map[])]))
  {
    ServerCapabilitiesShape(JObject(map["tools" := JObject(map[])]));
  }


  /** An implementation descriptor needs string `name` and `version`; `title`
      is an optional string. */
  lemma ImplementationShape(v: Option<Json>)
    ensures Accepts(ImplementationSchema, v) <==>
      && IsObject(v)
      && IsString(Member(v.value, "name"))
      && IsString(Member(v.value, "version"))
      && OptionalString(Member(v.value, "title"))
  {
    ImplementationKeys();
    if Accepts(ImplementationSchema, v) {
      MemberAccepted(ImplementationSchema, v.value, "name");
      MemberAccepted(ImplementationSchema, v.value, "version");
      MemberAccepted(ImplementationSchema, v.value, "title");
    }
  }

  /** Every initialize request is a JSON-RPC request whose method is exactly
      "initialize". */
  lemma InitializeRequestIsRequest(j: Json)
    ensures Valid(InitializeRequestSchema, j) ==>
      Valid(JsonRpcRequestSchema, j) && Member(j, "method") == Some(JString("initialize"))
  {
    RequestKeys();
    LiteralRefinesString("initialize");
    RefinesOptionalUnknown(InitializeParamsSchema);
    ExtendRefines(JsonRpcRequestSchema, map["method" := ZLiteral("initialize"), "params" := InitializeParamsSchema]);
    if Valid(InitializeRequestSchema, j) {
      InitializeRequestKeys();
      MemberAccepted(InitializeRequestSchema, j, "method");
    }
  }

  /** Initialize params hold a string `protocolVersion`, valid client
      capabilities and a valid `clientInfo`, all three required. */
  lemma InitializeParamsShape(v: Option<Json>)
    ensures Accepts(InitializeParamsSchema, v) <==>
      && IsObject(v)
      && IsString(Member(v.value, "protocolVersion"))
      && Accepts(ClientCapabilitiesSchema, Member(v.value, "capabilities"))
      && Accepts(ImplementationSchema, Member(v.value, "clientInfo"))
  {
    InitializeParamsKeys();
    if Accepts(InitializeParamsSchema, v) {
      MemberAccepted(InitializeParamsSchema, v.value, "protocolVersion");
      MemberAccepted(InitializeParamsSchema, v.value, "capabilities");
      MemberAccepted(InitializeParamsSchema, v.value, "clientInfo");
    }
    if && IsObject(v)
       && IsString(Member(v.value, "protocolVersion"))
       && Accepts(ClientCapabilitiesSchema, Member(v.value, "capabilities"))
       && Accepts(ImplementationSchema, Member(v.value, "clientInfo"))
    {
      InitializeParamsFromFields(v.value);
    }
  }

  lemma InitializeParamsFromFields(p: Json)
    requires p.JObject?
    requires IsString(Member(p, "protocolVersion"))
    requires Accepts(ClientCapabilitiesSchema, Member(p, "capabilities"))
    requires Accepts(ImplementationSchema, Member(p, "clientInfo"))
    ensures Valid(InitializeParamsSchema, p)
  {
    InitializeParamsKeys();
    ObjectOfThree(InitializeParamsSchema, p, "protocolVersion", "capabilities", "clientInfo");
  }

  /** An initialize request is a JSON-RPC request with method "initialize"
      whose (required) params are valid initialize params. */
  lemma InitializeRequestShape(j: Json)
    ensures Valid(InitializeRequestSchema, j) <==>
      && Valid(JsonRpcRequestSchema, j)
      && Member(j, "method") == Some(JString("initialize"))
      && Accepts(InitializeParamsSchema, Member(j, "params"))
  {
    if Valid(InitializeRequestSchema, j) {
      InitializeRequestIsRequest(j);
      InitializeRequestKeys();
      MemberAccepted(InitializeRequestSchema, j, "params");
    }
    if && Valid(JsonRpcRequestSchema, j)
       && Member(j, "method") == Some(JString("initialize"))
       && Accepts(InitializeParamsSchema, Member(j, "params"))
    {
      RequestShape(j);
      InitializeRequestFromFields(j);
    }
  }

  lemma InitializeRequestFromFields(j: Json)
    requires j.JObject? && HasVersion(j) && IsStringOrNumber(Member(j, "id"))
    requires Member(j, "method") == Some(JString("initialize"))
    requires Accepts(InitializeParamsSchema, Member(j, "params"))
    ensures Valid(InitializeRequestSchema, j)
  {
    InitializeRequestKeys();
    ObjectOfFour(InitializeRequestSchema, j, "jsonrpc", "id", "method", "params");
  }

  /** An initialize result needs `protocolVersion`, server `capabilities` and
      `serverInfo`; `instructions` is an optional string. */
  lemma InitializeResultShape(j: Json)
    ensures Valid(InitializeResultSchema, j) <==>
      && j.JObject?
      && IsString(Member(j, "protocolVersion"))
      && Accepts(ServerCapabilitiesSchema, Member(j, "capabilities"))
      && Accepts(ImplementationSchema, Member(j, "serverInfo"))
      && OptionalString(Member(j, "instructions"))
  {
    InitializeResultKeys();
    if Valid(InitializeResultSchema, j) {
      MemberAccepted(InitializeResultSchema, j, "protocolVersion");
      MemberAccepted(InitializeResultSchema, j, "capabilities");
      MemberAccepted(InitializeResultSchema, j, "serverInfo");
      MemberAccepted(InitializeResultSchema, j, "instructions");
    }
    if && j.JObject?
       && IsString(Member(j, "protocolVersion"))
       && Accepts(ServerCapabilitiesSchema, Member(j, "capabilities"))
       && Accepts(ImplementationSchema, Member(j, "serverInfo"))
       && OptionalString(Member(j, "instructions"))
    {
      InitializeResultFromFields(j);
    }
  }

  lemma InitializeResultFromFields(j: Json)
    requires j.JObject?
    requires IsString(Member(j, "protocolVersion"))
    requires Accepts(ServerCapabilitiesSchema, Member(j, "capabilities"))
    requires Accepts(ImplementationSchema, Member(j, "serverInfo"))
    requires OptionalString(Member(j, "instructions"))
    ensures Valid(InitializeResultSchema, j)
  {
    InitializeResultKeys();
    ObjectOfFour(InitializeResultSchema, j, "protocolVersion", "capabilities", "serverInfo", "instructions");
  }

  /** Every initialized notification is a JSON-RPC notification whose method
      is exactly "notifications/initialized", and conversely. */
  lemma InitializedNotificationShape(j: Json)
    ensures Valid(InitializedNotificationSchema, j) <==>
      Valid(JsonRpcNotificationSchema, j) && Member(j, "method") == Some(JString("notifications/initialized"))
  {
    InitializedNotificationKeys();
    NotificationShape(j);
    if Valid(InitializedNotificationSchema, j) {
      MemberAccepted(InitializedNotificationSchema, j, "jsonrpc");
      MemberAccepted(InitializedNotificationSchema, j, "method");
    }
    if Valid(JsonRpcNotificationSchema, j) && Member(j, "method") == Some(JString("notifications/initialized")) {
      ObjectOfThree(InitializedNotificationSchema, j, "jsonrpc", "method", "params");
    }
  }
}
