/** `middleware/errorHandler.js`: the last Express handler, which turns an error into a status
    and a JSON body. The rules are tried in order: the Prisma code, then the error's name,
    then its message, then the fallback. */
module ErrorHandler {
  import opened Base
  import opened Strings
  import opened JsonValue
  import opened ShopifyConfig

  /** The parts of an error the handler reads. `status` is 0 when the error carries none (a
      falsy `err.status`). */
  datatype AppError = AppError(code: Option<string>, name: string, message: string, status: int,
                               meta: Json, stack: string)

  datatype Answer = Answer(status: int, body: Json)

  /** `env.NODE_ENV === 'development'`, where an unset `NODE_ENV` reads as `development`. */
  predicate Development(env: Env) {
    GetEnv(env, "NODE_ENV").Err? || env["NODE_ENV"] == "development"
  }

  function Message(m: string): Json {
    JObj([("message", JStr(m))])
  }

  /** `errorHandler(err, req, res, next)` */
  function HandleError(err: AppError, dev: bool): (a: Answer)
    ensures a.status in {409, 404, 401, 400, 502, 500} || a.status == err.status
    ensures a.body.JObj? && Get(a.body, "message").JStr?
  {
    if err.code == Some("P2002") then
      Answer(409, JObj([("message", JStr("duplicate entry")), ("field", Get(err.meta, "target"))]))
    else if err.code == Some("P2025") then Answer(404, Message("record not found"))
    else if err.name == "JsonWebTokenError" then Answer(401, Message("invalid token"))
    else if err.name == "TokenExpiredError" then Answer(401, Message("token expired"))
    else if err.name == "ValidationError" then
      Answer(400, JObj([("message", JStr("validation error")), ("details", JStr(err.message))]))
    else if Contains(err.message, "Shopify") && Contains(err.message, "failed") then
      Answer(502, JObj([("message", JStr("External API error")),
                        ("details", JStr(if dev then err.message else "Shopify API unavailable"))]))
    else
      Answer(if err.status != 0 then err.status else 500,
             JObj([("message", JStr(if dev then err.message else "internal server error"))] +
                  (if dev then [("stack", JStr(err.stack))] else [])))
  }

  // ---------------------------------------------------------------------------
  // properties
  // ---------------------------------------------------------------------------

  /** The Prisma code is looked at first: whatever the name and message, a unique-constraint
      violation is a 409 naming the violated fields and a missing record is a 404. */
  lemma PrismaCodesFirst(err: AppError, dev: bool)
    ensures err.code == Some("P2002") ==>
              HandleError(err, dev).status == 409 &&
              Get(HandleError(err, dev).body, "field") == Get(err.meta, "target")
    ensures err.code == Some("P2025") ==>
              HandleError(err, dev) == Answer(404, JObj([("message", JStr("record not found"))]))
  {
    if err.code == Some("P2002") {
      var fields := [("message", JStr("duplicate entry")), ("field", Get(err.meta, "target"))];
      assert "message"[0] != "field"[0];
      assert fields[1..] == [("field", Get(err.meta, "target"))];
      assert Field(fields, "field") == Field(fields[1..], "field") == Get(err.meta, "target");
    }
  }

  /** The statuses the handler can give: one of its fixed ones, the error's own status, or
      500; 409, 404 (unless the error says 404), 401 and 400 each come from exactly one
      kind of error. */
  lemma StatusMeaning(err: AppError, dev: bool)
    ensures var s := HandleError(err, dev).status;
            && (s in {409, 404, 401, 400, 502, 500} || s == err.status)
            && (err.status !in {409, 404, 401, 400, 502} ==>
                  && (s == 409 <==> err.code == Some("P2002"))
                  && (s == 404 <==> err.code == Some("P2025"))
                  && (s == 401 <==> err.code !in {Some("P2002"), Some("P2025")} &&
                                    err.name in {"JsonWebTokenError", "TokenExpiredError"})
                  && (s == 400 <==> err.code !in {Some("P2002"), Some("P2025")} && err.name == "ValidationError"))
  {
  }

  /** Outside development the message and stack are never shown, except as the details of a
      validation error; in development the fallback shows both. */
  lemma ProductionHidesInternals(err: AppError, dev: bool)
    ensures var body := HandleError(err, dev).body;
            && (!dev && err.name != "ValidationError" ==>
                  && Get(body, "message") in {JStr("duplicate entry"), JStr("record not found"), JStr("invalid token"),
                                              JStr("token expired"), JStr("External API error"),
                                              JStr("internal server error")}
                  && Get(body, "details") in {JUndefined, JStr("Shopify API unavailable")}
                  && Get(body, "stack") == JUndefined)
            && (dev && HandleError(err, dev).status !in {409, 404, 401, 400, 502} && err.code.None? ==>
                  Get(body, "message") == JStr(err.message) && Get(body, "stack") == JStr(err.stack))
  {
    if dev && HandleError(err, dev).status !in {409, 404, 401, 400, 502} && err.code.None? {
      var fields := [("message", JStr(err.message))] + [("stack", JStr(err.stack))];
      assert HandleError(err, dev).body == JObj(fields);
      assert "message"[0] != "stack"[0];
      assert fields[1..] == [("stack", JStr(err.stack))];
      assert Field(fields, "stack") == Field(fields[1..], "stack") == JStr(err.stack);
    }
  }

  /** A failed Shopify REST request, the error `request` throws, becomes a 502 unless a
      Prisma code or a special name comes first. */
  lemma ShopifyFailuresAreUpstream(verb: string, path: string, status: int, text: string, stack: string, dev: bool)
    ensures HandleError(AppError(None, "Error", FailedMessage(verb, path, status, text), 0, JUndefined, stack), dev)
              .status == 502
  {
    var x := "Shopify " + verb + " " + path;
    assert x[..7] == "Shopify";
    NamesShopifyFailure(x, IntToDecimal(status), text);
    UpstreamWhenNamed(AppError(None, "Error", FailedMessage(verb, path, status, text), 0, JUndefined, stack), dev);
  }

  /** A message that starts with `Shopify` and has ` failed (` further on names both words. */
  lemma NamesShopifyFailure(x: string, d: string, t: string)
    requires |x| >= 7 && x[..7] == "Shopify"
    ensures Contains(x + " failed (" + d + "): " + t, "Shopify")
    ensures Contains(x + " failed (" + d + "): " + t, "failed")
  {
    var m := x + " failed (" + d + "): " + t;
    var y := x + " failed (";
    assert m[..7] == y[..7] == x[..7];
    assert OccursAt(m, "Shopify", 0);
    assert m[|x| + 1..|x| + 7] == y[|x| + 1..|x| + 7] == "failed";
    assert OccursAt(m, "failed", |x| + 1);
  }

  lemma UpstreamWhenNamed(err: AppError, dev: bool)
    requires err.code.None? && err.name == "Error"
    requires Contains(err.message, "Shopify") && Contains(err.message, "failed")
    ensures HandleError(err, dev).status == 502
  {
  }

  /** An error with no code, the plain name and no mention of Shopify falls through to the
      error's own status or 500. */
  lemma FallbackWhenPlain(err: AppError, dev: bool)
    requires err.code.None? && err.name == "Error" && !Contains(err.message, "Shopify")
    ensures HandleError(err, dev).status == if err.status != 0 then err.status else 500
  {
  }

  /** A tenant that fails the webhook gate is reported as a server error, not a 403. */
  lemma WebhookGateIsServerError(stack: string, dev: bool)
    ensures HandleError(AppError(None, "Error", "Tenant not found or inactive for webhook", 0, JUndefined, stack), dev)
              .status == 500
  {
    var m := "Tenant not found or inactive for webhook";
    assert "Shopify"[0] == 'S';
    assert forall i :: 0 <= i < |m| ==> m[i] != 'S';
    MissingFirstChar(m, "Shopify");
    FallbackWhenPlain(AppError(None, "Error", m, 0, JUndefined, stack), dev);
  }
}
