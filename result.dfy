/**
 * The response envelope of the legacy API (src/Ukey1/ApiClient/Result.php):
 * the raw body, and the decoded data once its "result" field has been checked
 * against the HTTP status. The constructor's expected-status argument is
 * discarded by the source, so a result holds only the response.
 */
module Results {
  import opened Wrappers
  import opened Values
  import opened Exceptions
  import opened Platform

  datatype ApiResult = ApiResult(response: Response)

  /** `new Result($response, $expectedStatus)`: the expected status plays no part. */
  function MakeResult(response: Response, expectedStatus: int): (r: ApiResult)
    ensures r.response == response
  {
    ApiResult(response)
  }

  /** What `send` makes of the transport's reply: a result, or EndpointException on a transfer error. */
  function Receive(reply: Reply, expectedStatus: int): (r: Result<ApiResult, Error>)
    ensures reply.Delivered? <==> r.Success?
    ensures r.Success? ==> r.value.response == reply.response
    ensures r.Failure? ==> r.error == TransferFailed(reply.message)
  {
    match reply
    case Delivered(response) => Success(MakeResult(response, expectedStatus))
    case TransferError(message) => Failure(TransferFailed(message))
  }

  /** `getBody`: the raw body of the response, unchanged. */
  function GetBody(result: ApiResult): (body: string)
    ensures body == result.response.body
  {
    result.response.body
  }

  /**
   * PHP's `$status != $expected` between the HTTP status and the decoded
   * "result" value: an integer compares by value, a boolean against the
   * status's truthiness; other kinds count as different.
   */
  predicate StatusMatches(expected: Value, status: int) {
    match expected
    case Int(i) => i == status
    case Bool(b) => b == (status != 0)
    case _ => false
  }

  /**
   * `getData`: decode the body; reject it unless it is an object with a
   * non-null "result", then reject it unless that value matches the HTTP
   * status; otherwise return the whole decoded object, "result" included.
   */
  function GetData(result: ApiResult, decode: string -> Option<Value>): (r: Result<map<string, Value>, Error>)
    ensures decode(result.response.body).None? ==> r == Failure(InvalidJson(result.response.body))
    ensures r.Success? <==>
      decode(result.response.body).Some? &&
      var data := decode(result.response.body).value;
      data.Object? && Isset(data.fields, "result") &&
      StatusMatches(data.fields["result"], result.response.status)
    ensures r.Success? ==> Object(r.value) == decode(result.response.body).value && "result" in r.value
    ensures r.Failure? && decode(result.response.body).Some? ==>
      var data := decode(result.response.body).value;
      if !(data.Object? && Isset(data.fields, "result"))
      then r.error == InvalidStructure(result.response.body)
      else r.error == UnexpectedStatus(result.response.status, result.response.reason)
  {
    var body := GetBody(result);
    match decode(body)
    case None => Failure(InvalidJson(body))
    case Some(data) =>
      if !(data.Object? && Isset(data.fields, "result")) then
        Failure(InvalidStructure(body))
      else
        var _ :- CheckStatus(result, data.fields["result"]);
        Success(data.fields)
  }

  /** `checkStatus`: EndpointException unless the HTTP status matches the expected one. */
  function CheckStatus(result: ApiResult, expected: Value): (r: Result<(), Error>)
    ensures r.Success? <==> StatusMatches(expected, result.response.status)
    ensures r.Failure? ==> r.error == UnexpectedStatus(result.response.status, result.response.reason)
  {
    if StatusMatches(expected, result.response.status) then Success(())
    else Failure(UnexpectedStatus(result.response.status, result.response.reason))
  }
}
