/** What an Express handler does with a request: answer it, redirect, or hand it on to the
    next middleware, with or without an error. */
module Http {
  import opened JsonValue

  datatype Outcome =
    | SendJson(status: int, body: Json)
    | SendText(status: int, text: string)
    | Redirect(location: string)
    | CallNext
    | CallNextWithError(msg: string)

  /** `res.status(status).json({ error: msg })` */
  function ErrorJson(status: int, msg: string): (o: Outcome)
    ensures o.SendJson? && o.status == status && Get(o.body, "error") == JStr(msg)
  {
    SendJson(status, JObj([("error", JStr(msg))]))
  }
}
