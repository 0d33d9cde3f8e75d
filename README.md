# SbankenClient in Dafny

A model of the core of the Sbanken iOS SDK, a small banking client. The client gets an OAuth2 token with the client-credentials grant (section 4.4 of RFC 6749), authenticating with the Basic scheme (section 2 of RFC 7617). It keeps that token in a one-slot cache, `AccessTokenManager`. It then sends authenticated requests (the Bearer scheme, section 2.1 of RFC 6750) for three operations: list accounts, list transactions and transfer money. Every failure reaches the caller as one `SbankenError`.

Modules, one per source file or component:

- `Wrappers` (wrappers.dfy): Swift's `Optional` and the SDK's two-case `Result`.
- `Errors` (errors.dfy): `SbankenError`, its two smart constructors and `description`. A Swift `Error` is `AnyError`: either a `SbankenError` or a framework error that carries its own description.
- `TokenCache` (token_cache.dfy): `AccessToken` and the class `AccessTokenManager`. The class has the stored token as a field, the getter as a function of the instant `now`, and the setter as a method.
- `Http` (http.dfy): the `URLRequest` record (method, URL, header map, body) and the reply a session hands to a completion handler (optional body, optional error).
- `Handling` (handling.dfy): the completion handlers as functions. This covers how a reply is classified, and which completion calls an operation makes.
- `Client` (client.dfy): the class `SbankenClient`. It builds the token request and the API requests step by step, and it runs `accessToken`, `accounts`, `transactions` and `transfer`.

The URL session is replaced by two things: the field `sent`, which logs every request handed to the session, and a reply given to each operation for each request it may send. Each public operation returns the completion calls it makes, in order. So an operation that never completes returns `[]`, and one that completes twice returns two results.

The framework calls are function-valued fields of `Platform` and are left uninterpreted. These are `URL(string:)`, UTF-8 encoding, `base64EncodedString`, `stringFromHttpParameters`, `ISO8601DateFormatter` and the JSON decoders and encoder.

## Where the code departs from its evident intent

The model follows the code as written in every case below.

- The cache getter (SbankenClient/Helpers/AccessTokenManager.swift:19) parses as `(_token?.expiryDate ?? distantPast) < now`, because `??` binds tighter than `<`. It returns the stored token only once that token has expired, and nil while it is still valid. The rest of the source is written against the opposite rule. `accessToken` (SbankenClient/SbankenClient.swift:192-195) uses any token the getter yields and fetches a new one only on nil. The test `testNilTokenForAccountsReturnsError` (SbankenClientTests/SbankenClientAccessTokenTests.swift:77-92) stores a token with `expiresIn: -1000` and treats it as a nil token.
  - `TokenCache.CachedToken` models the code as written.
  - `TokenCache.ValidToken` states the intended rule.
  - `TokenCache.CachedTokenInvertsValidity` proves the two agree only when nothing is stored or at the instant of expiry.
  - `Handling.FetchedTokenNotServedWhileFresh` proves a consequence: as written, a token just fetched is never reused while it is fresh, so each operation fetches a new one.
  - The client calls the getter as written. Its contracts are stated in terms of what the getter yields, so they would read the same over the intended getter.
- A URL that does not parse makes `transactions` and `transfer` return without calling their completion (SbankenClient/SbankenClient.swift:97, :136). In `accounts` it traps (:47).
- When encoding the transfer body fails, `transfer` reports `unableToDecodeNetworkResponse` but does not return (:143-147). The request goes out without a body, and its handler completes a second time.

## Model

| member | source | states |
|---|---|---|
| `Errors.Description` | SbankenClient/Types/SbankenError.swift:18-29 | `.message(m)` describes itself as `m`; `.generic(e)` as `e`'s own description; the two fixed kinds as their two constant texts, which differ from each other |
| `Errors.FromMessage` | SbankenClient/Types/SbankenError.swift:31-33 | `init(String s)` gives `.message(s)`, whose description is `s` |
| `Errors.FromError` | SbankenClient/Types/SbankenError.swift:35-41 | `init(Error e)` returns `e` unchanged when it is already a `SbankenError`, and `.generic(e)` otherwise; either way the result's description is `e`'s own |
| `Errors.FromErrorIdempotent` | SbankenClient/Types/SbankenError.swift:35-38 | wrapping an already wrapped error changes nothing, so an authentication failure passes through an operation unchanged |
| `Errors.DescriptionOfKinds` | SbankenClient/Types/SbankenError.swift:18-29 | a framework error wrapped in `.generic` is described by its own text, and the two fixed kinds are told apart by their descriptions |
| `TokenCache.CachedToken` | SbankenClient/Helpers/AccessTokenManager.swift:17-24 | the getter as parsed: nil with no stored token; otherwise the stored token itself when its expiry is strictly before `now`, and nil in every other case; it never yields a token other than the stored one |
| `TokenCache.ValidToken` | SbankenClient/Helpers/AccessTokenManager.swift:19-23 | the rule the guard was meant to state: the stored token exactly while `now` is before its expiry, nil otherwise |
| `TokenCache.CachedTokenInvertsValidity` | SbankenClient/Helpers/AccessTokenManager.swift:19-23 | the getter as written yields a token only when the intended rule refuses it, and the reverse; the two agree exactly when nothing is stored or `now` is the expiry instant |
| `TokenCache.CachedTokenServesStaleToken` | SbankenClient/Helpers/AccessTokenManager.swift:19-23 | a concrete case: a token with `expires_in` 12345 is refused 100 s after issue and served 20000 s after issue |
| `TokenCache.AccessTokenManager.constructor` | SbankenClient/Helpers/AccessTokenManager.swift:11-13 | a new manager stores no token |
| `TokenCache.AccessTokenManager.Token` | SbankenClient/Helpers/AccessTokenManager.swift:17-24 | the getter the client calls is `CachedToken` of the stored token: nil or the stored token itself, and the stored token exactly when its expiry is before `now`; reading it changes nothing |
| `TokenCache.AccessTokenManager.SetToken` | SbankenClient/Helpers/AccessTokenManager.swift:26-28 | the setter overwrites the stored token unconditionally and touches nothing else; after storing nil, the getter yields nil at every instant |
| `Handling.Classify` | SbankenClient/SbankenClient.swift:52-66 | the shared reply handler: a transport error gives that error, normalised; otherwise a missing body gives `missingNetworkResponse`; otherwise an undecodable body gives `unableToDecodeNetworkResponse`; success holds exactly when there is no error, there is a body and it decodes, and it carries the decoded value |
| `Handling.TokenResult` | SbankenClient/SbankenClient.swift:212-230 | the token reply handler succeeds exactly when the shared handler does, and then delivers a token with the decoded access token and type, issued at `now` and expiring `expires_in` seconds later; its failures are the shared handler's |
| `Handling.AccountsResult` | SbankenClient/SbankenClient.swift:62-66 | `accounts`' handler succeeds exactly when the shared handler does, and then delivers the decoded response's `items`; its failures are the shared handler's |
| `Handling.TransferResult` | SbankenClient/SbankenClient.swift:149-170 | `transfer`'s handler is never a success when the response reports `isError`; that case gives `.message(errorMessage ?? "Undefined error")`; on every other reply it agrees with the shared handler |
| `Handling.Completions` | SbankenClient/SbankenClient.swift:128-170 | a failed token step completes once with that same error; an unbuildable request completes nothing; otherwise the last completion is the handler's result; there are at most two completions, two exactly when encoding the body failed, and then the first is `unableToDecodeNetworkResponse` |
| `Handling.FetchedTokenNotServedWhileFresh` | SbankenClient/Helpers/AccessTokenManager.swift:19-23 | a token just fetched is not served by the cache at any instant up to and including its expiry |
| `Handling.TransportErrorIgnoresBody` | SbankenClient/SbankenClient.swift:52-55 | a transport error decides the outcome whatever body came with it, and the failure's description is the transport error's |
| `Handling.TransferBusinessErrorMessage` | SbankenClient/SbankenClient.swift:161-163 | a decoded transfer response with `isError` fails with a description equal to the server's message, or "Undefined error" when there is none |
| `Client.Decimal` | SbankenClient/SbankenClient.swift:90-91 | `"\(index)"` and `"\(length)"`: a non-empty string of decimal digits, with a leading `-` exactly for a negative number; a single digit for `0..9`, no leading zero for a larger number, and for a negative number the sign followed by exactly the numeral of its absolute value, so no padding zero anywhere |
| `Client.DecimalDenotes` | SbankenClient/SbankenClient.swift:90-91 | the digits written for `n` denote `n` when `n` is non-negative, and denote `-n` after the sign when it is negative |
| `Client.SbankenClient.constructor` | SbankenClient/SbankenClient.swift:26-34 | keeps the credentials, the cache and the platform; nothing has been sent yet |
| `Client.SbankenClient.BuildTokenRequest` | SbankenClient/SbankenClient.swift:197-210 | the token request is a POST to the base URL + `/identityserver/connect/token`; it has exactly the fields `Authorization: Basic base64(utf8(clientId:secret))`, the form-encoded `Content-Type` and `Accept: application/json`, whatever order the header dictionary is walked in; its body is `grant_type=client_credentials` |
| `Client.SbankenClient.UrlRequest` | SbankenClient/SbankenClient.swift:182-188 | nil exactly when the URL string does not parse; otherwise a GET of the parsed URL with exactly the fields `Authorization: Bearer <token>` and `Accept: application/json`, and no body |
| `Client.SbankenClient.UrlRequestWithParameters` | SbankenClient/SbankenClient.swift:175-180 | nil exactly when the plain request is nil; otherwise the plain request with the same method, fields and body, whose URL is the original URL + "?" + the encoded parameters, parsed again |
| `Client.SbankenClient.AccessToken` | SbankenClient/SbankenClient.swift:190-231 | a token the getter yields is delivered as a success and nothing is sent; otherwise exactly the token request is sent and its reply is classified; a decoded token is issued at `now` and stored before it is delivered; a failed fetch leaves the cache unchanged |
| `Client.SbankenClient.Accounts` | SbankenClient/SbankenClient.swift:36-71 | after a successful token step, sends a GET of `/Bank/api/v1/Accounts/{userId}` with the Bearer token; a success delivers the decoded `items`; a URL that does not parse traps and completes nothing; the completions are those of `Completions` with no encoding step |
| `Client.SbankenClient.Transactions` | SbankenClient/SbankenClient.swift:73-119 | after a successful token step, sends a GET of `/Bank/api/v2/Transactions/{userId}/{accountNumber}` with the query parameters `index`, `length`, `startDate` and `endDate`; a URL that does not parse ends the call with no completion |
| `Client.SbankenClient.Transfer` | SbankenClient/SbankenClient.swift:121-173 | after a successful token step, sends a POST of `/Bank/api/v1/Transfers/{userId}` with the Bearer token, `Content-Type: application/json` and the encoded body; a URL that does not parse ends the call with no completion; an encoding failure completes once and then again with the reply's result |

## Left out

- The URL session, `dataTask`, `resume` and the asynchronous callbacks: each request gets a reply passed in, and requests are recorded in `sent`. The token step completes before the operation's own request is built, as in the source. The response metadata (`URLResponse`) is never read by the client and is not modelled.
- Concurrency: the model is sequential. Two operations racing on the cache are not modelled.
- `JSONDecoder`, `JSONEncoder`, `ISO8601DateFormatter`, `base64EncodedString`, UTF-8 encoding, `URL(string:)` and `stringFromHttpParameters` are uninterpreted functions of `Platform`. The definition of `stringFromHttpParameters` is not modelled; it is the uninterpreted `Platform.queryString`, which receives the whole parameter dictionary, so no order of the parameters is fixed.
- Header field names are compared exactly. Foundation compares them without regard to case, but the client never sets two names that differ only in case.
- Instants are whole seconds since 1970 (`int`). `Date`'s fractional seconds are not modelled.
- `Float` amounts and balances are `real`. Rounding and non-finite values are not modelled, so the encoder's failure stays an uninterpreted case.
- The definition of the Swift `AccessToken` type is not modelled; the datatype `TokenCache.AccessToken` stands for it. A token is taken as the wire fields plus the instant it was decoded at, and its expiry as `issuedAt + expiresIn`.
- Account.swift is kept as a plain record. The definition of the Swift transaction type is not modelled; the datatype `Handling.Transaction` stands for it and keeps only three of its fields. TransferResponse.swift is kept whole. Data+JSON.swift is not modelled.
- `fatalError` in `accounts` (SbankenClient/SbankenClient.swift:47) is the out-parameter `trapped`. Process termination is not modelled.
- The force unwraps of the token URL and of the credentials' UTF-8 data (SbankenClient/SbankenClient.swift:197, :201) are covered by the class invariant `Valid()`: the configured base URL gives a parsable token URL. `Constants.baseUrl` is a fixed literal, and UTF-8 encoding of a string never fails.
- At SbankenClient/SbankenClient.swift:53, :102 and :152, `SbankenError(error)` is applied to the error that the guard just found to be non-nil. The model passes that unwrapped error.
- `(error as CustomStringConvertible).description` is taken to succeed for every error. A framework error carries its description in `AnyError.Foreign`.
- Default arguments are passed explicitly by the caller. For `transactions` these are `endDate = Date()`, `index = 0` and `length = 10`. For `SbankenClient.init` (SbankenClient/SbankenClient.swift:28-29) they are `tokenManager = AccessTokenManager()` and `urlSession = URLSession.shared`. A caller passes `new AccessTokenManager()` for the former default, so each such client gets its own empty cache. The URL session has no parameter, because it is replaced by `sent` and the replies.
- The model's constructor takes two parameters the Swift `init` does not have. `baseUrl` stands for `Constants.baseUrl`. `platform` stands for the JSON encoder and decoder and the other framework calls.
- Each operation reads the clock once, as `now`.
