/** The JSON-RPC 2.0 envelopes of src/schemas/json-rpc.ts.

    These follow the code, which differs from the JSON-RPC 2.0 Specification
    in three places: a `null` id is rejected, the response schema does not
    require `result` (z.unknown() also accepts an absent member), and nothing
    stops a message from carrying both `result` and `error`.
 */
module JsonRpc {
  import opened Json
  import opened Zod

  const JsonRpcVersion: string := "2.0"

  const RequestIdSchema: Schema := ZUnion(ZString, ZNumber)

  const JsonRpcRequestSchema: Schema := ZObject(map[
    "jsonrpc" := ZLiteral(JsonRpcVersion),
    "id" := RequestIdSchema,
    "method" := ZString,
    "params" := ZOptional(ZUnknown)
  ])

  const JsonRpcNotificationSchema: Schema := ZObject(map[
    "jsonrpc" := ZLiteral(JsonRpcVersion),
    "method" := ZString,
    "params" := ZOptional(ZUnknown)
  ])

  const JsonRpcResponseSchema: Schema := ZObject(map[
    "jsonrpc" := ZLiteral(JsonRpcVersion),
    "id" := RequestIdSchema,
    "result" := ZUnknown
  ])

  /** The inline object under `error` in JSONRPCErrorSchema. */
  const ErrorObjectSchema: Schema := ZObject(map[
    "code" := ZNumber,
    "message" := ZString,
    "data" := ZOptional(ZUnknown)
  ])

  const JsonRpcErrorSchema: Schema := ZObject(map[
    "jsonrpc" := ZLiteral(JsonRpcVersion),
    "id" := RequestIdSchema,
    "error" := ErrorObjectSchema
  ])

  /** `jsonrpc` is the string "2.0". */
  predicate HasVersion(j: Json) {
    Member(j, "jsonrpc") == Some(JString(JsonRpcVersion))
  }

  // Each schema's keys, as written.

  lemma RequestKeys()
    ensures JsonRpcRequestSchema.shape.Keys == {"jsonrpc", "id", "method", "params"}
    ensures JsonRpcRequestSchema.shape["jsonrpc"] == ZLiteral(JsonRpcVersion)
    ensures JsonRpcRequestSchema.shape["id"] == RequestIdSchema
    ensures JsonRpcRequestSchema.shape["method"] == ZString
    ensures JsonRpcRequestSchema.shape["params"] == ZOptional(ZUnknown)
  {
  }

  lemma NotificationKeys()
    ensures JsonRpcNotificationSchema.shape.Keys == {"jsonrpc", "method", "params"}
    ensures JsonRpcNotificationSchema.shape["jsonrpc"] == ZLiteral(JsonRpcVersion)
    ensures JsonRpcNotificationSchema.shape["method"] == ZString
    ensures JsonRpcNotificationSchema.shape["params"] == ZOptional(ZUnknown)
  {
  }

  lemma ResponseKeys()
    ensures JsonRpcResponseSchema.shape.Keys == {"jsonrpc", "id", "result"}
    ensures JsonRpcResponseSchema.shape["jsonrpc"] == ZLiteral(JsonRpcVersion)
    ensures JsonRpcResponseSchema.shape["id"] == RequestIdSchema
    ensures JsonRpcResponseSchema.shape["result"] == ZUnknown
  {
  }

  lemma ErrorKeys()
    ensures JsonRpcErrorSchema.shape.Keys == {"jsonrpc", "id", "error"}
    ensures JsonRpcErrorSchema.shape["jsonrpc"] == ZLiteral(JsonRpcVersion)
    ensures JsonRpcErrorSchema.shape["id"] == RequestIdSchema
    ensures JsonRpcErrorSchema.shape["error"] == ErrorObjectSchema
  {
  }

  lemma ErrorObjectKeys()
    ensures ErrorObjectSchema.shape.Keys == {"code", "message", "data"}
    ensures ErrorObjectSchema.shape["code"] == ZNumber
    ensures ErrorObjectSchema.shape["message"] == ZString
    ensures ErrorObjectSchema.shape["data"] == ZOptional(ZUnknown)
  {
  }

  /** A request id is a string or a number; null, booleans, arrays, objects
      and an absent id are all rejected. */
  lemma RequestIdIsStringOrNumber(v: Option<Json>)
    ensures Accepts(RequestIdSchema, v) <==> IsStringOrNumber(v)
    ensures !Accepts(RequestIdSchema, Some(JNull))
    ensures !Accepts(RequestIdSchema, None)
  {
  }

  /** A request is an object with `jsonrpc` "2.0", a string-or-number `id`
      and a string `method`; `params` may be absent or anything. */
  lemma RequestShape(j: Json)
    ensures Valid(JsonRpcRequestSchema, j) <==>
      && j.JObject?
      && HasVersion(j)
      && IsStringOrNumber(Member(j, "id"))
      && IsString(Member(j, "method"))
  {
    RequestKeys();
    if Valid(JsonRpcRequestSchema, j) {
      MemberAccepted(JsonRpcRequestSchema, j, "jsonrpc");
      MemberAccepted(JsonRpcRequestSchema, j, "id");
      MemberAccepted(JsonRpcRequestSchema, j, "method");
    }
    if j.JObject? && HasVersion(j) && IsStringOrNumber(Member(j, "id")) && IsString(Member(j, "method")) {
      ObjectOfFour(JsonRpcRequestSchema, j, "jsonrpc", "id", "method", "params");
    }
  }

  /** A notification needs only `jsonrpc` "2.0" and a string `method`; no id. */
  lemma NotificationShape(j: Json)
    ensures Valid(JsonRpcNotificationSchema, j) <==>
      && j.JObject?
      && HasVersion(j)
      && IsString(Member(j, "method"))
  {
    NotificationKeys();
    if Valid(JsonRpcNotificationSchema, j) {
      MemberAccepted(JsonRpcNotificationSchema, j, "jsonrpc");
      MemberAccepted(JsonRpcNotificationSchema, j, "method");
    }
    if j.JObject? && HasVersion(j) && IsString(Member(j, "method")) {
      ObjectOfThree(JsonRpcNotificationSchema, j, "jsonrpc", "method", "params");
    }
  }

  /** Every request is also a notification: the notification schema ignores
      the extra `id`. */
  lemma RequestIsNotification(j: Json)
    ensures Valid(JsonRpcRequestSchema, j) ==> Valid(JsonRpcNotificationSchema, j)
  {
    RequestKeys();
    NotificationKeys();
    forall k | k in JsonRpcNotificationSchema.shape
      ensures Refines(JsonRpcRequestSchema.shape[k], JsonRpcNotificationSchema.shape[k])
    {
      RefinesReflexive(JsonRpcNotificationSchema.shape[k]);
    }
    ShapeRefines(JsonRpcRequestSchema, JsonRpcNotificationSchema);
  }

  /** A response is an object with `jsonrpc` "2.0" and a string-or-number
      `id`; `result` is not required. */
  lemma ResponseShape(j: Json)
    ensures Valid(JsonRpcResponseSchema, j) <==>
      && j.JObject?
      && HasVersion(j)
      && IsStringOrNumber(Member(j, "id"))
  {
    ResponseKeys();
    if Valid(JsonRpcResponseSchema, j) {
      MemberAccepted(JsonRpcResponseSchema, j, "jsonrpc");
      MemberAccepted(JsonRpcResponseSchema, j, "id");
    }
    if j.JObject? && HasVersion(j) && IsStringOrNumber(Member(j, "id")) {
      ObjectOfThree(JsonRpcResponseSchema, j, "jsonrpc", "id", "result");
    }
  }

  /** An error envelope is an object with `jsonrpc` "2.0", a string-or-number
      `id` and an `error` object holding a numeric `code` and a string
      `message`; `data` is optional. */
  lemma ErrorShape(j: Json)
    ensures Valid(JsonRpcErrorSchema, j) <==>
      && j.JObject?
      && HasVersion(j)
      && IsStringOrNumber(Member(j, "id"))
      && IsObject(Member(j, "error"))
      && IsNumber(Member(j.fields["error"], "code"))
      && IsString(Member(j.fields["error"], "message"))
  {
    if Valid(JsonRpcErrorSchema, j) {
      ErrorToFields(j);
    }
    if && j.JObject? && HasVersion(j) && IsStringOrNumber(Member(j, "id"))
       && IsObject(Member(j, "error"))
       && IsNumber(Member(j.fields["error"], "code"))
       && IsString(Member(j.fields["error"], "message"))
    {
      ErrorFromFields(j);
    }
  }

  lemma ErrorToFields(j: Json)
    requires Valid(JsonRpcErrorSchema, j)
    ensures j.JObject? && HasVersion(j) && IsStringOrNumber(Member(j, "id"))
    ensures IsObject(Member(j, "error"))
    ensures IsNumber(Member(j.fields["error"], "code"))
    ensures IsString(Member(j.fields["error"], "message"))
  {
    ErrorKeys();
    MemberAccepted(JsonRpcErrorSchema, j, "jsonrpc");
    MemberAccepted(JsonRpcErrorSchema, j, "id");
    MemberAccepted(JsonRpcErrorSchema, j, "error");
    var e := j.fields["error"];
    ErrorObjectKeys();
    MemberAccepted(ErrorObjectSchema, e, "code");
    MemberAccepted(ErrorObjectSchema, e, "message");
  }

  lemma ErrorFromFields(j: Json)
    requires j.JObject? && HasVersion(j) && IsStringOrNumber(Member(j, "id"))
    requires IsObject(Member(j, "error"))
    requires IsNumber(Member(j.fields["error"], "code"))
    requires IsString(Member(j.fields["error"], "message"))
    ensures Valid(JsonRpcErrorSchema, j)
  {
    ErrorKeys();
    ErrorObjectKeys();
    ObjectOfThree(ErrorObjectSchema, j.fields["error"], "code", "message", "data");
    ObjectOfThree(JsonRpcErrorSchema, j, "jsonrpc", "id", "error");
  }


  /** Responses and errors both carry a valid request id. */
  lemma ResponsesNeedRequestId(j: Json)
    ensures Valid(JsonRpcResponseSchema, j) ==> Accepts(RequestIdSchema, Member(j, "id"))
    ensures Valid(JsonRpcErrorSchema, j) ==> Accepts(RequestIdSchema, Member(j, "id"))
  {
    ResponseShape(j);
    ErrorShape(j);
  }

  /** A message whose `jsonrpc` member is anything but the string "2.0"
      (absent, another string, another type) fails all four envelopes. */
  lemma WrongVersionRejected(j: Json)
    requires !HasVersion(j)
    ensures !Valid(JsonRpcRequestSchema, j)
    ensures !Valid(JsonRpcNotificationSchema, j)
    ensures !Valid(JsonRpcResponseSchema, j)
    ensures !Valid(JsonRpcErrorSchema, j)
  {
    RequestShape(j);
    NotificationShape(j);
    ResponseShape(j);
    ErrorShape(j);
  }

  /** The code does not enforce "exactly one of result and error": one
      document carrying both passes the response and the error schemas. */
  lemma ResultAndErrorTogether()
    ensures Valid(JsonRpcResponseSchema, ResultAndError)
    ensures Valid(JsonRpcErrorSchema, ResultAndError)
  {
    ResponseShape(ResultAndError);
    ErrorShape(ResultAndError);
  }

  /** A reply carrying both a `result` and an `error`. */
  const ResultAndError: Json := JObject(map[
    "jsonrpc" := JString(JsonRpcVersion),
    "id" := JNumber(1.0),
    "result" := JObject(map[]),
    "error" := JObject(map["code" := JNumber(-32601.0), "message" := JString("Method not found")])
  ])

}
