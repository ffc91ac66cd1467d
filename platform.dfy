/**
 * What the SDK gets from its surroundings and does not implement itself: the
 * PHP functions it calls (bcrypt, SHA-256, JSON, strtotime) and the HTTP
 * transport (Guzzle). Each primitive is a parameter; the transport is an
 * object that records every request handed to it.
 */
module Platform {
  import opened Wrappers
  import opened Values

  /** The PHP runtime's primitives, left uninterpreted. */
  datatype Runtime = Runtime(
    /** `function_exists("password_hash")` */
    hasPasswordHash: bool,
    /** `password_hash($password, PASSWORD_BCRYPT)`; the random salt is not modelled */
    passwordHash: string -> string,
    /** `hash("sha256", $data)` */
    sha256: string -> string,
    /** `GuzzleHttp\json_encode` of a PHP array */
    jsonEncode: map<string, Value> -> string,
    /** `GuzzleHttp\json_decode($body, true)`; None where Guzzle throws */
    jsonDecode: string -> Option<Value>,
    /** `strtotime`; None where PHP returns false */
    strtotime: Value -> Option<int>,
    /** `GuzzleHttp\default_user_agent()` */
    guzzleUserAgent: string)

  /** A header value: PHP puts strings and, for Content-Length, an integer into the header array. */
  datatype Header = Text(text: string) | Number(number: int)

  /** Everything Guzzle is given for one request: client options and request options. */
  datatype HttpRequest = HttpRequest(
    httpMethod: string,
    baseUri: string,
    target: string,
    timeout: int,
    allowRedirects: bool,
    headers: map<string, Header>,
    body: Option<string>)

  /** A PSR-7 response as far as the SDK reads it. */
  datatype Response = Response(status: int, reason: string, body: string)

  /** What the transport returns: a response, or the message of a TransferException. */
  datatype Reply = Delivered(response: Response) | TransferError(message: string)

  /**
   * The HTTP transport. `respond` gives the reply to the n-th request (counting
   * from 0), so a gateway of any behaviour can stand behind it.
   */
  class Transport {
    var sent: seq<HttpRequest>
    const respond: (HttpRequest, nat) -> Reply

    constructor (respond: (HttpRequest, nat) -> Reply)
      ensures sent == []
      ensures this.respond == respond
    {
      this.respond := respond;
      sent := [];
    }

    /** Sends one request and returns the reply to it. */
    method Dispatch(request: HttpRequest) returns (reply: Reply)
      modifies this
      ensures sent == old(sent) + [request]
      ensures reply == respond(request, |old(sent)|)
    {
      reply := respond(request, |sent|);
      sent := sent + [request];
    }
  }
}
