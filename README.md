# Ukey1 PHP SDK, legacy v1 protocol — a Dafny model

This project models the client side of the Ukey1 authentication gateway as
the PHP SDK implements it:

- the signed request: its setters, the JSON body, the bcrypt signature
  preimage, the header array and `send`;
- the response wrapper, with its `result` envelope and status check;
- the app configuration and the common endpoint constructor;
- the endpoints:
  - Connect registers an authorization request and receives a gateway URL;
  - AccessToken verifies the callback parameters and exchanges the ids for tokens;
  - RefreshToken renews an access token;
  - User reads `/me`;
  - SystemScopes lists the permissions;
  - ExtranetUsers creates or deletes users;
- the user and thumbnail entities;
- the random string generator.

Each PHP class whose methods update fields is a Dafny `class` with the same
fields. Its methods carry `modifies` frames limited to the fields the PHP
method writes. The classes are `App`, `Request` and every endpoint. Code
that only computes is a datatype with functions: `Result`, the user entity,
the thumbnail, and the pieces of `Request` that compute.

The environment is passed in as parameters:

- `Runtime` carries the primitives the SDK calls but does not define:
  - bcrypt `password_hash`, and whether it exists;
  - SHA-256;
  - JSON encoding and decoding;
  - `strtotime`;
  - Guzzle's default user agent.
- `Transport` stands for the HTTP client. It is a class that logs every
  request handed to it and answers from a response oracle.

With these, each endpoint's `Execute` states exactly which requests it sends.
This covers "no request" on the error paths that come before sending. The
new field values are stated as a function of the oracle's reply. The pure
specification functions (`Fetch`, `Acquire`, `Register`, `Verdict`,
`GatewayOf`, `PermissionsOf`, `CreatedOf`) carry the properties, and lemmas
describe what a signed request looks like on the wire.

PHP values are the `Value` datatype. `Truthy` is PHP's truthiness: strings
"" and "0", 0, false, null and empty arrays are falsy. `Isset` is `isset` on
an array key. Strings that end up in a hash preimage are modelled as
`string`, with PHP's null read as "" exactly as string concatenation reads
it.

Two places in ExtranetUsers cannot run as written. The model follows their
evident intent; the PHP as written throws `Error` there before any request is
sent (see "## Left out"):

- ExtranetUsers calls `$app->getHost()`, `getAppId()` and `getSecretKey()`.
  App.php declares none of these; they are modelled as reading the host, the
  App ID and the secret key.
- ExtranetUsers uses `Request::DELETE`, which Request.php does not declare.
  It is modelled as the method "DELETE".

Two further points where the model follows the code as it is:

- The `executed` flag is undeclared in Endpoint.php. Each endpoint that uses
  it has its own field, initially false.
- `Result`'s constructor discards its expected status. The status check
  compares the HTTP status with the response's own `result` field.

## Model

| member | source | states |
|---|---|---|
| AppConfig.App.constructor | src/Ukey1/App.php:78-81 | the host is the argument when it is truthy and the default host otherwise; the credentials start unset |
| AppConfig.App.AppId | src/Ukey1/App.php:90-98 | a truthy argument sets the App ID and returns the app; any other argument changes nothing and returns the current ID |
| AppConfig.App.SecretKey | src/Ukey1/App.php:107-115 | the same get-or-set rule for the secret key |
| AppConfig.App.Check | src/Ukey1/App.php:132-137 | succeeds exactly when both App ID and secret key are truthy; otherwise fails with the incomplete-app error |
| AppConfig.ConfigureApp | src/Ukey1/App.php:78-115 | configuring an app and then reading its ID leaves it complete exactly when both credentials given are truthy, with the host rule of the constructor |
| Endpoint.Admit | src/Ukey1/Endpoint.php:56-60 | the common constructor admits an app exactly when it is complete, and keeps that same app |
| Endpoint.Prepare | src/Ukey1/Endpoint.php:56-60 | the setter chain yields a fresh request with the app's host and credentials, the chosen method, version and path, and no access token |
| Endpoint.CheckExpiration | src/Ukey1/Endpoint.php:69-72 | valid exactly when now is strictly before the expiry |
| Endpoint.ExpiredAtBoundary | src/Ukey1/Endpoint.php:69-72 | an expiry equal to now is already expired, one second later is not |
| Results.MakeResult | src/Ukey1/ApiClient/Result.php:54-57 | keeps the response; the expected status passed in has no effect |
| Results.GetBody | src/Ukey1/ApiClient/Result.php:64-67 | the body is the response's raw body, unchanged |
| Results.Receive | src/Ukey1/ApiClient/Request.php:221-240 | a delivered reply becomes a result over that response; a transfer error becomes an endpoint error carrying its message |
| Results.GetData | src/Ukey1/ApiClient/Result.php:74-85 | undecodable JSON fails; success exactly when the body decodes to an object with `result` set and matching the HTTP status; a missing `result` is a structure error, a mismatch a status error; success returns the whole decoded map, `result` included |
| Results.CheckStatus | src/Ukey1/ApiClient/Result.php:94-101 | passes exactly when the HTTP status matches the expected value; otherwise fails with the status and reason phrase |
| Requests.CreateJsonBody | src/Ukey1/ApiClient/Request.php:250-257 | JSON exists exactly when the body is non-empty and the method is not GET, and then it is the encoding of the body |
| Requests.CreateSignature | src/Ukey1/ApiClient/Request.php:267-288 | fails exactly when bcrypt is unavailable; otherwise it is the hash of the signature preimage |
| Requests.SignaturePreimage | src/Ukey1/ApiClient/Request.php:273-285 | the preimage starts with version, path, method, App ID and secret key, and ends with the access token when it is truthy |
| Requests.PreimageLayout | src/Ukey1/ApiClient/Request.php:273-285 | the preimage is version, path, method, App ID and secret key in that order, then the JSON if truthy, then the access token if truthy |
| Requests.PrepareHeaders | src/Ukey1/ApiClient/Request.php:298-308 | `x-ukey1-app` is the App ID and `x-ukey1-signature` the signature; `Authorization` is "UKEY1 " plus the token when it is truthy |
| Requests.PrepareHeadersKeeps | src/Ukey1/ApiClient/Request.php:298-308 | the header names are the predefined ones plus the two signature headers, plus `Authorization` with a token; every other predefined header is kept unchanged |
| Requests.WireSignatureHeaders | src/Ukey1/ApiClient/Request.php:298-308 | `x-ukey1-app` is the App ID and `x-ukey1-signature` the hash; `Authorization` is "UKEY1 " plus the token, present exactly when a token is set |
| Requests.UserAgent | src/Ukey1/ApiClient/Request.php:315-318 | the agent starts with "ukey1-php-sdk/1.0.0" and is longer than that prefix |
| Requests.WireUserAgent | src/Ukey1/ApiClient/Request.php:315-318 | User-Agent is always present and starts with "ukey1-php-sdk/1.0.0" |
| Requests.WireContentHeaders | src/Ukey1/ApiClient/Request.php:213-217 | Content-Type and Content-Length are present exactly when the body is non-empty; the length is that of the JSON string |
| Requests.WireHeaderNames | src/Ukey1/ApiClient/Request.php:210-219 | no header other than these six is ever sent |
| Requests.Wire | src/Ukey1/ApiClient/Request.php:222-237 | the request goes to the host with target version plus path, a 10-second timeout and redirects disabled; the body is the JSON, present exactly when the body is non-empty and the method is not GET |
| Requests.Dispatched | src/Ukey1/ApiClient/Request.php:205-241 | `send` hands at most one request to the transport; with bcrypt it is exactly the signed request `Wire` describes, without bcrypt there is none |
| Requests.Fetch | src/Ukey1/ApiClient/Request.php:205-241 | without bcrypt the call fails with the hash error; with bcrypt a transfer error fails with its message; success exactly when the reply was delivered and `getData` accepts it, and then the body is the one received and the data is `getData`'s map; a rejected envelope fails with `getData`'s error |
| Requests.Request.constructor | src/Ukey1/ApiClient/Request.php:124-127 | a new request has the given method and every other field unset |
| Requests.Request.SetHost | src/Ukey1/ApiClient/Request.php:136-140 | sets only the host and returns the same request |
| Requests.Request.SetVersion | src/Ukey1/ApiClient/Request.php:149-153 | sets only the version and returns the same request |
| Requests.Request.SetEndpoint | src/Ukey1/ApiClient/Request.php:162-166 | sets only the path and returns the same request |
| Requests.Request.SetCredentials | src/Ukey1/ApiClient/Request.php:176-181 | sets only App ID and secret key and returns the same request |
| Requests.Request.SetAccessToken | src/Ukey1/ApiClient/Request.php:190-194 | sets only the access token and returns the same request |
| Requests.Request.Send | src/Ukey1/ApiClient/Request.php:205-241 | the transport log grows by exactly the dispatched requests; without bcrypt it fails with nothing sent; otherwise the result is the transport's reply to the signed request |
| TokenGrant.GrantOf | src/Ukey1/Endpoints/Authentication/AccessToken.php:171-181 | a response yields tokens exactly when access_token, expiration and scope are all set; otherwise a structure error carrying the body; the refresh token is present exactly when the response sets one |
| TokenGrant.Exchanged | src/Ukey1/Endpoints/Authentication/AccessToken.php:175-181 | access token, expiration and scope are replaced; the refresh token is replaced only when the response has one, otherwise the previous one is kept |
| AccessTokenEndpoint.Param | src/Ukey1/Endpoints/Authentication/AccessToken.php:223-234 | a callback parameter is returned exactly when present, scalar and truthy, and then as given |
| AccessTokenEndpoint.CheckSignature | src/Ukey1/Endpoints/Authentication/AccessToken.php:244-251 | passes exactly when the received signature (empty when missing) equals the expected hash |
| AccessTokenEndpoint.Verdict | src/Ukey1/Endpoints/Authentication/AccessToken.php:192-214 | missing stored ids fail first, then a request_id mismatch, then a connect_id mismatch, then a bad signature; otherwise the verdict is whether the status is "authorized" |
| AccessTokenEndpoint.CallbackPreimage | src/Ukey1/Endpoints/Authentication/AccessToken.php:246 | the signed data is the App ID, the request id, the connect id, the status and the secret key, in that order and with nothing else |
| AccessTokenEndpoint.ForgedSignatureRejected | src/Ukey1/Endpoints/Authentication/AccessToken.php:244-251 | under exact string comparison, a signature other than SHA-256 of App ID, request id, connect id, status and secret key is never accepted |
| AccessTokenEndpoint.VerifiedNotAuthorized | src/Ukey1/Endpoints/Authentication/AccessToken.php:192-214 | a callback with matching ids and a correct signature whose status is not "authorized" is verified and answers false |
| AccessTokenEndpoint.AuthorizedExactly | src/Ukey1/Endpoints/Authentication/AccessToken.php:192-214 | the callback is accepted as authorized exactly when both ids match, the signature is right and the status is "authorized" |
| AccessTokenEndpoint.AccessToken.constructor | src/Ukey1/Endpoint.php:56-60 | a new endpoint keeps the app and the callback parameters, with no ids, no cached parameters and no tokens |
| AccessTokenEndpoint.AccessToken.New | src/Ukey1/Endpoint.php:56-60 | construction succeeds exactly for a complete app |
| AccessTokenEndpoint.AccessToken.SetRequestId | src/Ukey1/Endpoints/Authentication/AccessToken.php:123-127 | stores the request id and returns the same endpoint |
| AccessTokenEndpoint.AccessToken.SetConnectId | src/Ukey1/Endpoints/Authentication/AccessToken.php:136-140 | stores the connect id and returns the same endpoint |
| AccessTokenEndpoint.AccessToken.GetParam | src/Ukey1/Endpoints/Authentication/AccessToken.php:223-234 | loads the parameter cache from the callback parameters and returns the parameter as `Param` defines it |
| AccessTokenEndpoint.AccessToken.CheckInputs | src/Ukey1/Endpoints/Authentication/AccessToken.php:192-214 | returns exactly `Verdict` of the stored ids, the app's credentials and the callback parameters |
| AccessTokenEndpoint.AccessToken.Execute | src/Ukey1/Endpoints/Authentication/AccessToken.php:148-184 | unless the verdict is authorized it returns the verdict, sends nothing and keeps the tokens; otherwise it sends one exchange request and stores the grant, or keeps the tokens on failure |
| AccessTokenEndpoint.AccessToken.Redeem | src/Ukey1/Endpoints/Authentication/AccessToken.php:156-181 | sends exactly the exchange request with body {request_id, connect_id}; a complete response updates the tokens as `Exchanged` says, any failure leaves them unchanged |
| AccessTokenEndpoint.AccessToken.Store | src/Ukey1/Endpoints/Authentication/AccessToken.php:175-181 | the token fields become `Exchanged` of the old ones and the grant: three overwritten, the refresh token only when the response has one |
| ConnectEndpoint.GatewayOf | src/Ukey1/Endpoints/Authentication/Connect.php:144-153 | succeeds exactly when connect_id, gateway.url and gateway.expiration are set and the expiry is strictly after now; a complete but stale gateway fails as expired |
| ConnectEndpoint.ExpiredGatewayRefused | src/Ukey1/Endpoints/Authentication/Connect.php:148-150 | a gateway expiring exactly now is refused |
| ConnectEndpoint.Connect.constructor | src/Ukey1/Endpoint.php:56-60 | a new endpoint keeps the app, with every field unset |
| ConnectEndpoint.Connect.New | src/Ukey1/Endpoint.php:56-60 | construction succeeds exactly for a complete app |
| ConnectEndpoint.Connect.SetRequestId | src/Ukey1/Endpoints/Authentication/Connect.php:89-93 | stores the request id and returns the same endpoint |
| ConnectEndpoint.Connect.SetReturnUrl | src/Ukey1/Endpoints/Authentication/Connect.php:102-106 | stores the return URL and returns the same endpoint |
| ConnectEndpoint.Connect.SetScope | src/Ukey1/Endpoints/Authentication/Connect.php:115-119 | stores the permission list and returns the same endpoint |
| ConnectEndpoint.Connect.Execute | src/Ukey1/Endpoints/Authentication/Connect.php:126-154 | sends one request with body {request_id, scope, return_url}; stores connect id and gateway URL only when `GatewayOf` succeeds, otherwise keeps both |
| RefreshTokenEndpoint.RefreshToken.constructor | src/Ukey1/Endpoint.php:56-60 | a new endpoint keeps the app, with no tokens |
| RefreshTokenEndpoint.RefreshToken.New | src/Ukey1/Endpoint.php:56-60 | construction succeeds exactly for a complete app |
| RefreshTokenEndpoint.RefreshToken.SetRefreshToken | src/Ukey1/Endpoints/Authentication/RefreshToken.php:81-85 | stores the refresh token and returns the same endpoint |
| RefreshTokenEndpoint.RefreshToken.Execute | src/Ukey1/Endpoints/Authentication/RefreshToken.php:92-125 | without a truthy refresh token it fails and sends nothing; otherwise it sends {refresh_token}, and a complete response replaces all four fields, with the refresh token replaced or cleared and never kept |
| RefreshTokenEndpoint.RefreshToken.Store | src/Ukey1/Endpoints/Authentication/RefreshToken.php:116-124 | the four token fields become exactly the grant's, so a missing refresh token clears the old one |
| ExtranetUsersEndpoint.CreatedOf | src/Ukey1/Endpoints/Authentication/ExtranetUsers.php:164-171 | succeeds exactly when reference_id is set, yielding it and the status; otherwise a structure error carrying the body |
| ExtranetUsersEndpoint.ExtranetUsers.constructor | src/Ukey1/Endpoint.php:56-60 | a new endpoint keeps the app, is not executed and has all fields unset |
| ExtranetUsersEndpoint.ExtranetUsers.New | src/Ukey1/Endpoint.php:56-60 | construction succeeds exactly for a complete app |
| ExtranetUsersEndpoint.ExtranetUsers.SetEmail | src/Ukey1/Endpoints/Authentication/ExtranetUsers.php:91-97 | stores the email, clears the reference id and the executed flag |
| ExtranetUsersEndpoint.ExtranetUsers.SetLocale | src/Ukey1/Endpoints/Authentication/ExtranetUsers.php:108-112 | stores only the locale |
| ExtranetUsersEndpoint.ExtranetUsers.SetReferenceId | src/Ukey1/Endpoints/Authentication/ExtranetUsers.php:121-127 | stores the reference id, clears the email and the executed flag |
| ExtranetUsersEndpoint.ExtranetUsers.Execute | src/Ukey1/Endpoints/Authentication/ExtranetUsers.php:132-139 | creates exactly when email and locale are truthy, else deletes exactly when the reference id is truthy, else does nothing; once executed it sends nothing and changes nothing |
| ExtranetUsersEndpoint.ExtranetUsers.Create | src/Ukey1/Endpoints/Authentication/ExtranetUsers.php:146-173 | a no-op once executed; otherwise sends {email, locale}, and only a response with reference_id stores status and reference id and marks executed |
| ExtranetUsersEndpoint.ExtranetUsers.Record | src/Ukey1/Endpoints/Authentication/ExtranetUsers.php:170-172 | stores status and reference id from the response and marks executed |
| ExtranetUsersEndpoint.ExtranetUsers.Delete | src/Ukey1/Endpoints/Authentication/ExtranetUsers.php:180-199 | a no-op once executed; otherwise sends {reference_id} with method DELETE and marks executed only when the envelope checks |
| ExtranetUsersEndpoint.ExtranetUsers.GetSuccessStatus | src/Ukey1/Endpoints/Authentication/ExtranetUsers.php:206-211 | before a run, sends exactly the create or delete request `execute` would and returns the reply's status (create) or the stored one (delete), or the request's error; after a run, sends nothing and returns the stored status |
| ExtranetUsersEndpoint.ExtranetUsers.GetReferenceId | src/Ukey1/Endpoints/Authentication/ExtranetUsers.php:218-223 | the same for the reference id: the create reply's id, or the id the delete request carried |
| ExtranetUsersEndpoint.ReadBoth | src/Ukey1/Endpoints/Authentication/ExtranetUsers.php:206-223 | reading both results issues at most one request once the first read succeeds |
| SystemScopesEndpoint.Attached | src/Ukey1/Endpoints/Authentication/SystemScopes.php:96-98 | the request gets the caller's token exactly when it is truthy |
| SystemScopesEndpoint.PermissionsOf | src/Ukey1/Endpoints/Authentication/SystemScopes.php:103-112 | succeeds exactly when `permissions` is set; the rejected list is present exactly when the response sets it |
| SystemScopesEndpoint.SystemScopes.constructor | src/Ukey1/Endpoint.php:56-60 | a new endpoint keeps the app, is not executed and has no token and no lists |
| SystemScopesEndpoint.SystemScopes.New | src/Ukey1/Endpoint.php:56-60 | construction succeeds exactly for a complete app |
| SystemScopesEndpoint.SystemScopes.SetAccessToken | src/Ukey1/Endpoints/Authentication/SystemScopes.php:74-78 | stores the token and returns the same endpoint |
| SystemScopesEndpoint.SystemScopes.Execute | src/Ukey1/Endpoints/Authentication/SystemScopes.php:85-113 | a no-op once executed; otherwise one GET without version prefix and with empty body; success stores the permissions, replaces the rejected list only when sent and marks executed; failure changes nothing |
| SystemScopesEndpoint.SystemScopes.Record | src/Ukey1/Endpoints/Authentication/SystemScopes.php:107-112 | stores the permissions, marks executed, and replaces the rejected list only when the response has one |
| SystemScopesEndpoint.SystemScopes.GetAvailablePermissions | src/Ukey1/Endpoints/Authentication/SystemScopes.php:120-125 | before a run, sends exactly the GET `execute` sends and returns the reply's `permissions` list or the request's error; after a run, sends nothing and returns the stored list |
| SystemScopesEndpoint.SystemScopes.GetRejectedPermissions | src/Ukey1/Endpoints/Authentication/SystemScopes.php:132-137 | the same for the rejected list: the reply's `rejected-permissions`, or the previous list when the reply has none |
| SystemScopesEndpoint.ReadBoth | src/Ukey1/Endpoints/Authentication/SystemScopes.php:120-137 | once the first getter succeeds, the second sends nothing more |
| UserEndpoint.User.constructor | src/Ukey1/Endpoint.php:56-60 | a new endpoint keeps the app, with no token and no result data |
| UserEndpoint.User.New | src/Ukey1/Endpoint.php:56-60 | construction succeeds exactly for a complete app |
| UserEndpoint.User.SetAccessToken | src/Ukey1/Endpoints/Authentication/User.php:68-72 | stores the token and returns the same endpoint |
| UserEndpoint.User.Execute | src/Ukey1/Endpoints/Authentication/User.php:80-99 | without a truthy token it fails and sends nothing; otherwise one GET on "/v1/me" with the token; success returns the raw body and stores the decoded data of the same response |
| UserEndpoint.User.GetUser | src/Ukey1/Endpoints/Authentication/User.php:106-109 | an entity exists exactly when result data is stored, and it is built from exactly that data |
| UserEndpoint.Me | src/Ukey1/Endpoints/Authentication/User.php:68-109 | with a truthy token, sends exactly the signed GET of `/me` and succeeds exactly when that fetch does, with the entity built from the reply's data; otherwise it fails with the fetch's error, or with no request when the token is falsy |
| UserEntity.FromResponse | src/Ukey1/User.php:45-49 | the entity keeps the whole response; its scope is the response's `scope` |
| UserEntity.User.Get | src/Ukey1/User.php:88-95 | returns the stored user value when it is truthy and null otherwise, so the result is null or truthy |
| UserEntity.Accessors | src/Ukey1/User.php:57-239 | each named getter reads its own key, and each deprecated alias equals its getter |
| UserEntity.NoUserObject | src/Ukey1/User.php:88-95 | without a `user` object every key reads as null |
| UserEntity.EmptyStringsReadAsNull | src/Ukey1/User.php:88-95 | an empty string or "0" reads as null |
| Thumbnails.FromData | src/Ukey1/Thumbnail.php:46-55 | the thumbnail exists exactly for non-empty details; it is the default one unless `isset` is truthy; without details it has no default flag |
| Thumbnails.Thumbnail.Detail | src/Ukey1/Thumbnail.php:73-123 | a detail is read unchanged when the thumbnail exists, and is null otherwise |
| Thumbnails.NoDetails | src/Ukey1/Thumbnail.php:46-55 | null and an empty array build the same thumbnail, with nothing to read |
| Thumbnails.CustomThumbnail | src/Ukey1/Thumbnail.php:51-76 | details with a truthy `isset` describe a custom thumbnail and expose their URL |
| Thumbnails.MissingIssetIsDefault | src/Ukey1/Thumbnail.php:51-66 | details without `isset` describe the default thumbnail |
| RandomString.Bin2Hex | src/Ukey1/Generators/RandomString.php:54 | the encoding has two characters per byte, all lower-case hexadecimal digits |
| RandomString.Bin2HexAt | src/Ukey1/Generators/RandomString.php:54 | byte i is written at positions 2i and 2i+1, high nibble first |
| RandomString.Hex2BinInverts | src/Ukey1/Generators/RandomString.php:54 | decoding the encoding gives the bytes back |
| RandomString.Bin2HexInjective | src/Ukey1/Generators/RandomString.php:54 | different bytes never give the same string |
| RandomString.Generate | src/Ukey1/Generators/RandomString.php:48-55 | fails exactly when the random source is unavailable; otherwise the string is hexadecimal and twice as long as the bytes drawn |
| RandomString.GenerateDoubles | src/Ukey1/Generators/RandomString.php:41-54 | for a source that yields the requested number of bytes, the string has twice that length and decodes back to the bytes |
| RandomString.DefaultLength | src/Ukey1/Generators/RandomString.php:48-54 | the default length of 16 bytes gives 32 characters |

## Left out

- HTTP transport: the Guzzle client becomes the `Transport` oracle. Connection errors and Guzzle's exceptions for 4xx/5xx responses are a transfer error, whose message the oracle chooses. The `httpClient` field the request keeps is not modelled.
- Cryptographic primitives: bcrypt and SHA-256 are uninterpreted functions of the runtime. bcrypt's random salt is not modelled, so the same preimage always gives the same hash.
- JSON: encoding and decoding are functions of the runtime. Encoding never fails in the model; Guzzle's encoder can throw on values it cannot encode.
- Numbers: floats are not modelled, and JSON numbers are integers.
- Loose comparison: PHP's `!=` is exact equality in the model, except on the HTTP status (see `Results.CheckStatus`). PHP 8 also compares two numeric strings by their numeric value, and the model does not capture this. Three consequences:
  - Numeric strings such as "200" or "1e3" compared with a number, and ids passed as numbers, are not modelled.
  - The callback's request_id and connect_id checks (AccessToken.php:203 and :207) accept "1e1" for a stored "10" in PHP, and the model rejects it.
  - The signature check (AccessToken.php:248) accepts any signature of the form "0e" followed by digits in PHP whenever the expected SHA-256 hex also has that form. So `AccessTokenEndpoint.ForgedSignatureRejected` holds for the model's exact comparison only.
- Results.GetData: the `result` field matches the HTTP status when it is an equal integer, or a boolean with the same truthiness; a numeric string never matches, although PHP would accept "200".
- The callback superglobal: `filter_input` becomes the callback parameter map fixed when the AccessToken endpoint is built.
- Connect's `redirect` sends a header and ends the process. That is output, and it is not modelled.
- Thumbnail's `download` reads a URL and may write a file. That is I/O, and it is not modelled.
- Time: `time()` is the `now` parameter, and `strtotime` is a runtime function.
- The random source: OpenSSL's bytes are a parameter. `RandomString.Generate` takes a natural length; PHP's handling of zero or negative lengths is not modelled.
- Guzzle's `default_user_agent` text is a runtime string. The model states only the SDK's own prefix.
- UserEndpoint.User.GetUser: PHP raises a type error when it is called before a successful `execute`; the model returns None.
- UserEntity.User.Get: `isset` on a string `user` value with a numeric key would index the string in PHP; the model reads only from a `user` object.
- ExtranetUsers as written: `create` and `delete` call App methods and a Request constant that do not exist. PHP raises `Error` there, so neither ever sends a request. The model sends the request they evidently mean, with the app's host and credentials and the method "DELETE".
- Representation: `Result::getBody` returns a PSR-7 stream, and the model returns the string that stream reads as (`Results.GetBody`). `Requests.Wire` sets Content-Length to the JSON's length in characters, where Request.php uses `strlen`, which counts bytes; the two agree because Guzzle's `json_encode` escapes non-ASCII characters by default.
- Getters that only return a stored field are functions without contracts. These are the AccessToken and RefreshToken token getters, Connect's `getId` and `getGatewayUrl`, and `App::host`.
