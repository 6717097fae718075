/** The progress and cancellation notifications of
    src/schemas/notifications.ts. */
module Notifications {
  import opened Json
  import opened Zod
  import opened JsonRpc

  const ProgressTokenSchema: Schema := ZUnion(ZString, ZNumber)

  /** The inline object under `params` in ProgressNotificationSchema. */
  const ProgressParamsSchema: Schema := ZObject(map[
    "progressToken" := ProgressTokenSchema,
    "progress" := ZNumber,
    "total" := ZOptional(ZNumber),
    "message" := ZOptional(ZString)
  ])

  const ProgressNotificationSchema: Schema := Extend(JsonRpcNotificationSchema, map[
    "method" := ZLiteral("notifications/progress"),
    "params" := ProgressParamsSchema
  ])

  /** The inline object under `params` in CancelledNotificationSchema. */
  const CancelledParamsSchema: Schema := ZObject(map[
    "requestId" := ZUnion(ZString, ZNumber),
    "reason" := ZOptional(ZString)
  ])

  const CancelledNotificationSchema: Schema := Extend(JsonRpcNotificationSchema, map[
    "method" := ZLiteral("notifications/cancelled"),
    "params" := CancelledParamsSchema
  ])

  // Each schema's keys, after `.extend`.

  lemma ProgressNotificationKeys()
    ensures ProgressNotificationSchema.shape.Keys == {"jsonrpc", "method", "params"}
    ensures ProgressNotificationSchema.shape["jsonrpc"] == ZLiteral(JsonRpcVersion)
    ensures ProgressNotificationSchema.shape["method"] == ZLiteral("notifications/progress")
    ensures ProgressNotificationSchema.shape["params"] == ProgressParamsSchema
  {
    NotificationKeys();
  }

  lemma ProgressParamsKeys()
    ensures ProgressParamsSchema.shape.Keys == {"progressToken", "progress", "total", "message"}
    ensures ProgressParamsSchema.shape["progressToken"] == ProgressTokenSchema
    ensures ProgressParamsSchema.shape["progress"] == ZNumber
    ensures ProgressParamsSchema.shape["total"] == ZOptional(ZNumber)
    ensures ProgressParamsSchema.shape["message"] == ZOptional(ZString)
  {
  }

  lemma CancelledNotificationKeys()
    ensures CancelledNotificationSchema.shape.Keys == {"jsonrpc", "method", "params"}
    ensures CancelledNotificationSchema.shape["jsonrpc"] == ZLiteral(JsonRpcVersion)
    ensures CancelledNotificationSchema.shape["method"] == ZLiteral("notifications/cancelled")
    ensures CancelledNotificationSchema.shape["params"] == CancelledParamsSchema
  {
    NotificationKeys();
  }

  lemma CancelledParamsKeys()
    ensures CancelledParamsSchema.shape.Keys == {"requestId", "reason"}
    ensures CancelledParamsSchema.shape["requestId"] == ZUnion(ZString, ZNumber)
    ensures CancelledParamsSchema.shape["reason"] == ZOptional(ZString)
  {
  }

  /** A progress token is a string or a number, and nothing else. */
  lemma ProgressTokenIsStringOrNumber(v: Option<Json>)
    ensures Accepts(ProgressTokenSchema, v) <==> IsStringOrNumber(v)
    ensures !Accepts(ProgressTokenSchema, Some(JNull))
    ensures !Accepts(ProgressTokenSchema, None)
  {
  }

  /** Every progress notification is a JSON-RPC notification whose method is
      exactly "notifications/progress". */
  lemma ProgressIsNotification(j: Json)
    ensures Valid(ProgressNotificationSchema, j) ==>
      Valid(JsonRpcNotificationSchema, j) && Member(j, "method") == Some(JString("notifications/progress"))
  {
    NotificationKeys();
    LiteralRefinesString("notifications/progress");
    RefinesOptionalUnknown(ProgressParamsSchema);
    ExtendRefines(JsonRpcNotificationSchema,
      map["method" := ZLiteral("notifications/progress"), "params" := ProgressParamsSchema]);
    if Valid(ProgressNotificationSchema, j) {
      ProgressNotificationKeys();
      MemberAccepted(ProgressNotificationSchema, j, "method");
    }
  }

  /** Progress params need a string-or-number `progressToken` and a numeric
      `progress`; `total` is an optional number and `message` an optional
      string. */
  lemma ProgressParamsShape(v: Option<Json>)
    ensures Accepts(ProgressParamsSchema, v) <==>
      && IsObject(v)
      && IsStringOrNumber(Member(v.value, "progressToken"))
      && IsNumber(Member(v.value, "progress"))
      && OptionalNumber(Member(v.value, "total"))
      && OptionalString(Member(v.value, "message"))
  {
    ProgressParamsKeys();
    if Accepts(ProgressParamsSchema, v) {
      MemberAccepted(ProgressParamsSchema, v.value, "progressToken");
      MemberAccepted(ProgressParamsSchema, v.value, "progress");
      MemberAccepted(ProgressParamsSchema, v.value, "total");
      MemberAccepted(ProgressParamsSchema, v.value, "message");
    }
    if && IsObject(v)
       && IsStringOrNumber(Member(v.value, "progressToken"))
       && IsNumber(Member(v.value, "progress"))
       && OptionalNumber(Member(v.value, "total"))
       && OptionalString(Member(v.value, "message"))
    {
      ObjectOfFour(ProgressParamsSchema, v.value, "progressToken", "progress", "total", "message");
    }
  }

  /** A progress notification is a JSON-RPC notification with method
      "notifications/progress" whose params are required and valid progress
      params. */
  lemma ProgressNotificationShape(j: Json)
    ensures Valid(ProgressNotificationSchema, j) <==>
      && Valid(JsonRpcNotificationSchema, j)
      && Member(j, "method") == Some(JString("notifications/progress"))
      && Accepts(ProgressParamsSchema, Member(j, "params"))
  {
    if Valid(ProgressNotificationSchema, j) {
      ProgressIsNotification(j);
      ProgressNotificationKeys();
      MemberAccepted(ProgressNotificationSchema, j, "params");
    }
    if && Valid(JsonRpcNotificationSchema, j)
       && Member(j, "method") == Some(JString("notifications/progress"))
       && Accepts(ProgressParamsSchema, Member(j, "params"))
    {
      NotificationShape(j);
      ProgressNotificationFromFields(j);
    }
  }

  lemma ProgressNotificationFromFields(j: Json)
    requires j.JObject? && HasVersion(j)
    requires Member(j, "method") == Some(JString("notifications/progress"))
    requires Accepts(ProgressParamsSchema, Member(j, "params"))
    ensures Valid(ProgressNotificationSchema, j)
  {
    ProgressNotificationKeys();
    ObjectOfThree(ProgressNotificationSchema, j, "jsonrpc", "method", "params");
  }

  /** Every cancelled notification is a JSON-RPC notification with method
      exactly "notifications/cancelled". */
  lemma CancelledIsNotification(j: Json)
    ensures Valid(CancelledNotificationSchema, j) ==>
      Valid(JsonRpcNotificationSchema, j) && Member(j, "method") == Some(JString("notifications/cancelled"))
  {
    NotificationKeys();
    LiteralRefinesString("notifications/cancelled");
    RefinesOptionalUnknown(CancelledParamsSchema);
    ExtendRefines(JsonRpcNotificationSchema,
      map["method" := ZLiteral("notifications/cancelled"), "params" := CancelledParamsSchema]);
    if Valid(CancelledNotificationSchema, j) {
      CancelledNotificationKeys();
      MemberAccepted(CancelledNotificationSchema, j, "method");
    }
  }

  /** Cancelled params need a string-or-number `requestId`; `reason` is an
      optional string. */
  lemma CancelledParamsShape(v: Option<Json>)
    ensures Accepts(CancelledParamsSchema, v) <==>
      && IsObject(v)
      && IsStringOrNumber(Member(v.value, "requestId"))
      && OptionalString(Member(v.value, "reason"))
  {
    CancelledParamsKeys();
    if Accepts(CancelledParamsSchema, v) {
      MemberAccepted(CancelledParamsSchema, v.value, "requestId");
      MemberAccepted(CancelledParamsSchema, v.value, "reason");
    }
  }

  /** A cancelled notification is a JSON-RPC notification with method
      "notifications/cancelled" whose params are required and valid cancelled
      params. */
  lemma CancelledNotificationShape(j: Json)
    ensures Valid(CancelledNotificationSchema, j) <==>
      && Valid(JsonRpcNotificationSchema, j)
      && Member(j, "method") == Some(JString("notifications/cancelled"))
      && Accepts(CancelledParamsSchema, Member(j, "params"))
  {
    if Valid(CancelledNotificationSchema, j) {
      CancelledIsNotification(j);
      CancelledNotificationKeys();
      MemberAccepted(CancelledNotificationSchema, j, "params");
    }
    if && Valid(JsonRpcNotificationSchema, j)
       && Member(j, "method") == Some(JString("notifications/cancelled"))
       && Accepts(CancelledParamsSchema, Member(j, "params"))
    {
      NotificationShape(j);
      CancelledNotificationFromFields(j);
    }
  }

  lemma CancelledNotificationFromFields(j: Json)
    requires j.JObject? && HasVersion(j)
    requires Member(j, "method") == Some(JString("notifications/cancelled"))
    requires Accepts(CancelledParamsSchema, Member(j, "params"))
    ensures Valid(CancelledNotificationSchema, j)
  {
    CancelledNotificationKeys();
    ObjectOfThree(CancelledNotificationSchema, j, "jsonrpc", "method", "params");
  }

  /** No message is both a progress and a cancelled notification. */
  lemma ProgressAndCancelledDisjoint(j: Json)
    ensures !(Valid(ProgressNotificationSchema, j) && Valid(CancelledNotificationSchema, j))
  {
    ProgressNotificationKeys();
    CancelledNotificationKeys();
    TagsDisjoint(ProgressNotificationSchema, CancelledNotificationSchema, "method", j);
  }
}
