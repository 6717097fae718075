/** The tool listing and tool call payloads of src/schemas/tools.ts. */
module Tools {
  import opened Json
  import opened Zod
  import opened JsonRpc

  const ContentBlockSchema: Schema := ZObject(map[
    "type" := ZLiteral("text"),
    "text" := ZString
  ])

  /** The inline object under `inputSchema` in ToolSchema. */
  const ToolInputSchema: Schema := ZObject(map[
    "type" := ZLiteral("object"),
    "properties" := ZOptional(ZRecord(EmptyObject)),
    "required" := ZOptional(ZArray(ZString))
  ])

  const ToolSchema: Schema := ZObject(map[
    "name" := ZString,
    "title" := ZOptional(ZString),
    "description" := ZOptional(ZString),
    "inputSchema" := ToolInputSchema
  ])

  /** The inline object under `params` in CallToolRequestSchema. */
  const CallToolParamsSchema: Schema := ZObject(map[
    "name" := ZString,
    "arguments" := ZOptional(ZRecord(ZUnknown))
  ])

  const CallToolRequestSchema: Schema := Extend(JsonRpcRequestSchema, map[
    "method" := ZLiteral("tools/call"),
    "params" := CallToolParamsSchema
  ])

  const CallToolResultSchema: Schema := ZObject(map[
    "content" := ZArray(ContentBlockSchema),
    "structuredContent" := ZOptional(ZRecord(ZUnknown)),
    "isError" := ZOptional(ZBoolean)
  ])

  /** The inline object under `params` in ListToolsRequestSchema. */
  const ListToolsParamsSchema: Schema := ZObject(map["cursor" := ZOptional(ZString)])

  const ListToolsRequestSchema: Schema := Extend(JsonRpcRequestSchema, map[
    "method" := ZLiteral("tools/list"),
    "params" := ZOptional(ListToolsParamsSchema)
  ])

  const ListToolsResultSchema: Schema := ZObject(map[
    "tools" := ZArray(ToolSchema),
    "nextCursor" := ZOptional(ZString)
  ])

  /** Every element of the array `v` satisfies `s`. */
  predicate IsArrayOf(v: Option<Json>, s: Schema) {
    && v.Some? && v.value.JArray?
    && forall i :: 0 <= i < |v.value.items| ==> Valid(s, v.value.items[i])
  }

  lemma ArrayOfAccepts(v: Option<Json>, s: Schema)
    ensures Accepts(ZArray(s), v) <==> IsArrayOf(v, s)
  {
  }

  lemma OptionalRecordAccepts(v: Option<Json>)
    ensures Accepts(ZOptional(ZRecord(ZUnknown)), v) <==> OptionalObject(v)
  {
  }

  // Each schema's keys, as written (for the extended ones: after `.extend`).

  lemma ContentBlockKeys()
    ensures ContentBlockSchema.shape.Keys == {"type", "text"}
    ensures ContentBlockSchema.shape["type"] == ZLiteral("text")
    ensures ContentBlockSchema.shape["text"] == ZString
  {
  }

  lemma ToolKeys()
    ensures ToolSchema.shape.Keys == {"name", "title", "description", "inputSchema"}
    ensures ToolSchema.shape["name"] == ZString
    ensures ToolSchema.shape["title"] == ZOptional(ZString)
    ensures ToolSchema.shape["description"] == ZOptional(ZString)
    ensures ToolSchema.shape["inputSchema"] == ToolInputSchema
  {
  }

  lemma ToolInputKeys()
    ensures ToolInputSchema.shape.Keys == {"type", "properties", "required"}
    ensures ToolInputSchema.shape["type"] == ZLiteral("object")
    ensures ToolInputSchema.shape["properties"] == ZOptional(ZRecord(EmptyObject))
    ensures ToolInputSchema.shape["required"] == ZOptional(ZArray(ZString))
  {
  }

  lemma CallToolRequestKeys()
    ensures CallToolRequestSchema.shape.Keys == {"jsonrpc", "id", "method", "params"}
    ensures CallToolRequestSchema.shape["jsonrpc"] == ZLiteral(JsonRpcVersion)
    ensures CallToolRequestSchema.shape["id"] == RequestIdSchema
    ensures CallToolRequestSchema.shape["method"] == ZLiteral("tools/call")
    ensures CallToolRequestSchema.shape["params"] == CallToolParamsSchema
  {
    RequestKeys();
  }

  lemma CallToolParamsKeys()
    ensures CallToolParamsSchema.shape.Keys == {"name", "arguments"}
    ensures CallToolParamsSchema.shape["name"] == ZString
    ensures CallToolParamsSchema.shape["arguments"] == ZOptional(ZRecord(ZUnknown))
  {
  }

  lemma CallToolResultKeys()
    ensures CallToolResultSchema.shape.Keys == {"content", "structuredContent", "isError"}
    ensures CallToolResultSchema.shape["content"] == ZArray(ContentBlockSchema)
    ensures CallToolResultSchema.shape["structuredContent"] == ZOptional(ZRecord(ZUnknown))
    ensures CallToolResultSchema.shape["isError"] == ZOptional(ZBoolean)
  {
  }

  lemma ListToolsRequestKeys()
    ensures ListToolsRequestSchema.shape.Keys == {"jsonrpc", "id", "method", "params"}
    ensures ListToolsRequestSchema.shape["jsonrpc"] == ZLiteral(JsonRpcVersion)
    ensures ListToolsRequestSchema.shape["id"] == RequestIdSchema
    ensures ListToolsRequestSchema.shape["method"] == ZLiteral("tools/list")
    ensures ListToolsRequestSchema.shape["params"] == ZOptional(ListToolsParamsSchema)
  {
    RequestKeys();
  }

  lemma ListToolsResultKeys()
    ensures ListToolsResultSchema.shape.Keys == {"tools", "nextCursor"}
    ensures ListToolsResultSchema.shape["tools"] == ZArray(ToolSchema)
    ensures ListToolsResultSchema.shape["nextCursor"] == ZOptional(ZString)
  {
  }

  /** A content block is valid exactly when `type` is "text" and `text` is a
      string. */
  lemma ContentBlockShape(j: Json)
    ensures Valid(ContentBlockSchema, j) <==>
      && j.JObject?
      && Member(j, "type") == Some(JString("text"))
      && IsString(Member(j, "text"))
  {
    ContentBlockKeys();
    if Valid(ContentBlockSchema, j) {
      MemberAccepted(ContentBlockSchema, j, "type");
      MemberAccepted(ContentBlockSchema, j, "text");
    }
  }

  /** The `inputSchema` of a tool: `type` is exactly "object", `properties`
      when present maps names to objects, `required` when present is an array
      of strings. */
  lemma ToolInputShape(v: Option<Json>)
    ensures Accepts(ToolInputSchema, v) <==>
      && IsObject(v)
      && Member(v.value, "type") == Some(JString("object"))
      && (Member(v.value, "properties").None? || IsObjectOfObjects(Member(v.value, "properties")))
      && (Member(v.value, "required").None? || IsArrayOf(Member(v.value, "required"), ZString))
  {
    if IsObject(v) {
      RecordOfObjects(Member(v.value, "properties"));
      ArrayOfAccepts(Member(v.value, "required"), ZString);
    }
    if Accepts(ToolInputSchema, v) {
      ToolInputKeys();
      MemberAccepted(ToolInputSchema, v.value, "type");
      MemberAccepted(ToolInputSchema, v.value, "properties");
      MemberAccepted(ToolInputSchema, v.value, "required");
    }
  }

  /** A tool needs a string `name` and a valid `inputSchema`; `title` and
      `description` are optional strings. */
  lemma ToolShape(j: Json)
    ensures Valid(ToolSchema, j) <==>
      && j.JObject?
      && IsString(Member(j, "name"))
      && OptionalString(Member(j, "title"))
      && OptionalString(Member(j, "description"))
      && Accepts(ToolInputSchema, Member(j, "inputSchema"))
  {
    ToolKeys();
    if Valid(ToolSchema, j) {
      MemberAccepted(ToolSchema, j, "name");
      MemberAccepted(ToolSchema, j, "title");
      MemberAccepted(ToolSchema, j, "description");
      MemberAccepted(ToolSchema, j, "inputSchema");
    }
    if && j.JObject?
       && IsString(Member(j, "name"))
       && OptionalString(Member(j, "title"))
       && OptionalString(Member(j, "description"))
       && Accepts(ToolInputSchema, Member(j, "inputSchema"))
    {
      ObjectOfFour(ToolSchema, j, "name", "title", "description", "inputSchema");
    }
  }

  /** Every call-tool request is a JSON-RPC request whose method is exactly
      "tools/call". */
  lemma CallToolRequestIsRequest(j: Json)
    ensures Valid(CallToolRequestSchema, j) ==>
      Valid(JsonRpcRequestSchema, j) && Member(j, "method") == Some(JString("tools/call"))
  {
    RequestKeys();
    LiteralRefinesString("tools/call");
    RefinesOptionalUnknown(CallToolParamsSchema);
    ExtendRefines(JsonRpcRequestSchema, map["method" := ZLiteral("tools/call"), "params" := CallToolParamsSchema]);
    if Valid(CallToolRequestSchema, j) {
      CallToolRequestKeys();
      MemberAccepted(CallToolRequestSchema, j, "method");
    }
  }

  /** Call-tool params hold a string `name`; `arguments`, when present, is an
      object (of any members). */
  lemma CallToolParamsShape(v: Option<Json>)
    ensures Accepts(CallToolParamsSchema, v) <==>
      && IsObject(v)
      && IsString(Member(v.value, "name"))
      && OptionalObject(Member(v.value, "arguments"))
  {
    if IsObject(v) {
      OptionalRecordAccepts(Member(v.value, "arguments"));
    }
    if Accepts(CallToolParamsSchema, v) {
      CallToolParamsKeys();
      MemberAccepted(CallToolParamsSchema, v.value, "name");
      MemberAccepted(CallToolParamsSchema, v.value, "arguments");
    }
  }

  /** A call-tool request is a JSON-RPC request with method "tools/call" whose
      params are required and valid call-tool params. */
  lemma CallToolRequestShape(j: Json)
    ensures Valid(CallToolRequestSchema, j) <==>
      && Valid(JsonRpcRequestSchema, j)
      && Member(j, "method") == Some(JString("tools/call"))
      && Accepts(CallToolParamsSchema, Member(j, "params"))
  {
    if Valid(CallToolRequestSchema, j) {
      CallToolRequestIsRequest(j);
      CallToolRequestKeys();
      MemberAccepted(CallToolRequestSchema, j, "params");
    }
    if && Valid(JsonRpcRequestSchema, j)
       && Member(j, "method") == Some(JString("tools/call"))
       && Accepts(CallToolParamsSchema, Member(j, "params"))
    {
      RequestShape(j);
      CallToolRequestFromFields(j);
    }
  }

  lemma CallToolRequestFromFields(j: Json)
    requires j.JObject? && HasVersion(j) && IsStringOrNumber(Member(j, "id"))
    requires Member(j, "method") == Some(JString("tools/call"))
    requires Accepts(CallToolParamsSchema, Member(j, "params"))
    ensures Valid(CallToolRequestSchema, j)
  {
    CallToolRequestKeys();
    ObjectOfFour(CallToolRequestSchema, j, "jsonrpc", "id", "method", "params");
  }

  /** A call-tool result is valid exactly when `content` is an array of valid
      content blocks, `structuredContent` is absent or an object and `isError`
      is absent or a boolean. */
  lemma CallToolResultShape(j: Json)
    ensures Valid(CallToolResultSchema, j) <==>
      && j.JObject?
      && IsArrayOf(Member(j, "content"), ContentBlockSchema)
      && OptionalObject(Member(j, "structuredContent"))
      && OptionalBool(Member(j, "isError"))
  {
    ArrayOfAccepts(Member(j, "content"), ContentBlockSchema);
    OptionalRecordAccepts(Member(j, "structuredContent"));
    if Valid(CallToolResultSchema, j) {
      CallToolResultToFields(j);
    }
    if && j.JObject?
       && IsArrayOf(Member(j, "content"), ContentBlockSchema)
       && OptionalObject(Member(j, "structuredContent"))
       && OptionalBool(Member(j, "isError"))
    {
      CallToolResultFromFields(j);
    }
  }

  lemma CallToolResultToFields(j: Json)
    requires Valid(CallToolResultSchema, j)
    ensures j.JObject?
    ensures Accepts(ZArray(ContentBlockSchema), Member(j, "content"))
    ensures Accepts(ZOptional(ZRecord(ZUnknown)), Member(j, "structuredContent"))
    ensures Accepts(ZOptional(ZBoolean), Member(j, "isError"))
  {
    CallToolResultKeys();
    MemberAccepted(CallToolResultSchema, j, "content");
    MemberAccepted(CallToolResultSchema, j, "structuredContent");
    MemberAccepted(CallToolResultSchema, j, "isError");
  }

  lemma CallToolResultFromFields(j: Json)
    requires j.JObject?
    requires Accepts(ZArray(ContentBlockSchema), Member(j, "content"))
    requires Accepts(ZOptional(ZRecord(ZUnknown)), Member(j, "structuredContent"))
    requires Accepts(ZOptional(ZBoolean), Member(j, "isError"))
    ensures Valid(CallToolResultSchema, j)
  {
    CallToolResultKeys();
    ObjectOfThree(CallToolResultSchema, j, "content", "structuredContent", "isError");
  }


  /** An empty `content` array is a valid call-tool result. */
  lemma EmptyContentResult()
    ensures Valid(CallToolResultSchema, JObject(map["content" := JArray([])]))
  {
    CallToolResultShape(JObject(map["content" := JArray([])]));
  }

  /** Every list-tools request is a JSON-RPC request whose method is exactly
      "tools/list". */
  lemma ListToolsRequestIsRequest(j: Json)
    ensures Valid(ListToolsRequestSchema, j) ==>
      Valid(JsonRpcRequestSchema, j) && Member(j, "method") == Some(JString("tools/list"))
  {
    RequestKeys();
    LiteralRefinesString("tools/list");
    RefinesOptionalUnknown(ZOptional(ListToolsParamsSchema));
    ExtendRefines(JsonRpcRequestSchema, map["method" := ZLiteral("tools/list"), "params" := ZOptional(ListToolsParamsSchema)]);
    if Valid(ListToolsRequestSchema, j) {
      ListToolsRequestKeys();
      MemberAccepted(ListToolsRequestSchema, j, "method");
    }
  }

  /** List-tools params are an object whose `cursor`, when present, is a
      string. */
  lemma ListToolsParamsShape(v: Option<Json>)
    ensures Accepts(ListToolsParamsSchema, v) <==>
      IsObject(v) && OptionalString(Member(v.value, "cursor"))
  {
    if Accepts(ListToolsParamsSchema, v) {
      MemberAccepted(ListToolsParamsSchema, v.value, "cursor");
    }
  }

  /** A list-tools request is a JSON-RPC request with method "tools/list"
      whose params may be absent, and are valid list-tools params when
      present. */
  lemma ListToolsRequestShape(j: Json)
    ensures Valid(ListToolsRequestSchema, j) <==>
      && Valid(JsonRpcRequestSchema, j)
      && Member(j, "method") == Some(JString("tools/list"))
      && (Member(j, "params").None? || Accepts(ListToolsParamsSchema, Member(j, "params")))
  {
    if Valid(ListToolsRequestSchema, j) {
      ListToolsRequestIsRequest(j);
      ListToolsRequestKeys();
      MemberAccepted(ListToolsRequestSchema, j, "params");
    }
    if && Valid(JsonRpcRequestSchema, j)
       && Member(j, "method") == Some(JString("tools/list"))
       && (Member(j, "params").None? || Accepts(ListToolsParamsSchema, Member(j, "params")))
    {
      RequestShape(j);
      ListToolsRequestFromFields(j);
    }
  }

  lemma ListToolsRequestFromFields(j: Json)
    requires j.JObject? && HasVersion(j) && IsStringOrNumber(Member(j, "id"))
    requires Member(j, "method") == Some(JString("tools/list"))
    requires Member(j, "params").None? || Accepts(ListToolsParamsSchema, Member(j, "params"))
    ensures Valid(ListToolsRequestSchema, j)
  {
    ListToolsRequestKeys();
    ObjectOfFour(ListToolsRequestSchema, j, "jsonrpc", "id", "method", "params");
  }

  /** A list-tools result is valid exactly when `tools` is an array of valid
      tools and `nextCursor` is absent or a string. */
  lemma ListToolsResultShape(j: Json)
    ensures Valid(ListToolsResultSchema, j) <==>
      && j.JObject?
      && IsArrayOf(Member(j, "tools"), ToolSchema)
      && OptionalString(Member(j, "nextCursor"))
  {
    ListToolsResultKeys();
    if Valid(ListToolsResultSchema, j) {
      MemberAccepted(ListToolsResultSchema, j, "tools");
      MemberAccepted(ListToolsResultSchema, j, "nextCursor");
    }
    if && j.JObject?
       && IsArrayOf(Member(j, "tools"), ToolSchema)
       && OptionalString(Member(j, "nextCursor"))
    {
      ObjectOfTwo(ListToolsResultSchema, j, "tools", "nextCursor");
    }
  }

  /** No message is both a call-tool and a list-tools request. */
  lemma CallAndListDisjoint(j: Json)
    ensures !(Valid(CallToolRequestSchema, j) && Valid(ListToolsRequestSchema, j))
  {
    CallToolRequestKeys();
    ListToolsRequestKeys();
    assert "tools/call"[6] != "tools/list"[6];
    TagsDisjoint(CallToolRequestSchema, ListToolsRequestSchema, "method", j);
  }
}
