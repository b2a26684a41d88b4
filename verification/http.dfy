/** The HTTP side of the handlers: the incoming request, the JSON bodies they
    send, and the response object (`res`) they mutate. */
module Http {
  import opened Common
  import opened Tables

  /** `req`: its method (`verb`), its `Origin` header, its `action` query parameter and its JSON body. */
  datatype Request<B> = Request(verb: HttpMethod, origin: Option<string>, action: Option<string>, body: B)

  /** The JSON bodies the handlers send. */
  datatype Payload =
    | ErrorBody(error: string)                          // { error: "<fixed message>" }
    | StorageErrorBody                                  // { error: err.message } for a database error
    | OrderCreatedBody(orderId: int)                    // { message: "Order created", order_id }
    | UserRegisteredBody(userId: int)                   // { message: "User registered", user_id }
    | LoginBody(userId: int, isAdmin: Option<bool>)     // { message: "Login successful", user_id[, is_admin] }
    | ProductListBody(rows: seq<ProductRow>)            // { success: true, data: rows }
    | ProductRowsBody(rows: seq<ProductRow>)            // the bare array of rows
    | ProductAddedBody(productId: int)                  // { success: true, message, productId }

  /** A status code with the JSON body sent under it. */
  datatype Reply = Reply(status: int, payload: Payload)

  const MethodNotAllowed := Reply(405, ErrorBody("Method not allowed"))

  /** `res`: the headers set so far, the status code (200 unless set), the JSON body
      once one is sent, and whether the response has been ended. */
  class Response {
    var headers: map<string, string>
    var statusCode: int
    var body: Option<Payload>
    var ended: bool

    constructor ()
      ensures headers == map[] && statusCode == 200 && body == None && !ended
    {
      headers, statusCode, body, ended := map[], 200, None, false;
    }

    /** `res.setHeader(name, value)`. */
    method SetHeader(name: string, value: string)
      modifies this
      ensures headers == old(headers)[name := value]
      ensures statusCode == old(statusCode) && body == old(body) && ended == old(ended)
    {
      headers := headers[name := value];
    }

    /** `res.status(code)`. */
    method Status(code: int)
      modifies this
      ensures statusCode == code
      ensures headers == old(headers) && body == old(body) && ended == old(ended)
    {
      statusCode := code;
    }

    /** `res.end()`: ends the response without a body. */
    method End()
      modifies this
      ensures ended
      ensures headers == old(headers) && statusCode == old(statusCode) && body == old(body)
    {
      ended := true;
    }

    /** `res.json(payload)`: sends the body and ends the response. */
    method Json(payload: Payload)
      modifies this
      ensures body == Some(payload) && ended
      ensures headers == old(headers) && statusCode == old(statusCode)
    {
      body := Some(payload);
      ended := true;
    }

    /** `res.status(reply.status).json(reply.payload)`. */
    method Send(reply: Reply)
      modifies this
      ensures statusCode == reply.status && body == Some(reply.payload) && ended
      ensures headers == old(headers)
    {
      Status(reply.status);
      Json(reply.payload);
    }
  }
}
