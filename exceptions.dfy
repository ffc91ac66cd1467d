/** The exceptions the SDK raises, one constructor per distinct message. */
module Exceptions {

  datatype Error =
    /** EndpointException: "Required function password_hash() doesn't exist". */
    | HashUnavailable
    /** GeneratorException: "Required function openssl_random_pseudo_bytes() doesn't exist". */
    | RandomUnavailable
    /** AppException: "Please set both your App ID and secret key". */
    | IncompleteApp
    /** EndpointException wrapping a Guzzle TransferException, with its message. */
    | TransferFailed(message: string)
    /** Guzzle's InvalidArgumentException from json_decode: the body is not JSON. */
    | InvalidJson(body: string)
    /** EndpointException: "Invalid result structure: " followed by the raw body. */
    | InvalidStructure(body: string)
    /** EndpointException: "Unexpected HTTP status <status> <reason phrase>". */
    | UnexpectedStatus(status: int, reason: string)
    /** EndpointException: "Gateway URL expired". */
    | GatewayExpired
    /** EndpointException: "No request ID or connect ID were provided". */
    | MissingIds
    /** EndpointException: "Invalid request ID". */
    | InvalidRequestId
    /** EndpointException: "Invalid connect ID". */
    | InvalidConnectId
    /** EndpointException: "Invalid signature". */
    | InvalidSignature
    /** EndpointException: "No refresh token was provided". */
    | NoRefreshToken
    /** EndpointException: "No access token was provided". */
    | NoAccessToken
}
