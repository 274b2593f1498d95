/** What an HTTP handler hands back through its framework's `res` object. */
module Http {

  /** A header value: express renders a number (`Content-Length`) in decimal itself. */
  datatype HeaderValue = Str(text: string) | Num(n: nat)

  /** A response body: `send(text)`, `json({...})` or `send(buffer)`. */
  datatype Body =
    | Text(text: string)
    | Json(fields: seq<(string, string)>)
    | Bytes(length: nat)

  datatype Reply = Reply(status: nat, headers: map<string, HeaderValue>, body: Body)

  /** `res.status(code).send(text)` with no headers set. */
  function TextReply(code: nat, text: string): Reply {
    Reply(code, map[], Text(text))
  }

  /** `res.status(code).json({ error: message })`. */
  function ErrorJson(code: nat, message: string): Reply {
    Reply(code, map[], Json([("error", message)]))
  }
}
