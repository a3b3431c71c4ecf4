/** What passes between a chat route and the outside world: the outcome of
    one provider request, and the HTTP answer the route sends. */
module Exchange {
  import opened Json

  /** One `fetch(...)` plus `response.json()`: either something threw
      (network failure, unparsable body) or a JSON body came back. */
  datatype Attempt = Threw | Answered(body: Json)

  /** The answer `res.status(status).json({ reply })`; `status` is 200 when
      the route does not set one. */
  datatype Response = Response(status: int, reply: Json)

  /** A route's answer together with the number of provider requests it
      issued on the way. */
  datatype Handled = Handled(response: Response, calls: nat)
}
