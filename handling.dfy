/** The completion handlers of SbankenClient/SbankenClient.swift: how a transport reply is
    classified, and which completion calls a public operation makes. */
module Handling {
  import opened Wrappers
  import opened Errors
  import opened TokenCache
  import opened Http

  /** The token endpoint's JSON payload: `access_token`, `expires_in`, `token_type`. */
  datatype TokenPayload = TokenPayload(accessToken: string, expiresIn: int, tokenType: string)

  /** Decoding stamps the token with the instant it was decoded at. */
  function Issue(p: TokenPayload, now: Time): AccessToken {
    AccessToken(p.accessToken, p.expiresIn, p.tokenType, now)
  }

  datatype Account = Account(
    accountNumber: string, customerId: string, ownerCustomerId: string, name: string,
    accountType: string, available: real, balance: real, creditLimit: real, defaultAccount: bool)

  datatype AccountsResponse = AccountsResponse(availableItems: int, items: seq<Account>)

  datatype Transaction = Transaction(transactionId: string, amount: real, text: string)

  datatype TransactionResponse = TransactionResponse(availableItems: int, items: seq<Transaction>)

  datatype TransferRequest = TransferRequest(fromAccount: string, toAccount: string, message: string, amount: real)

  datatype TransferResponse = TransferResponse(errorType: Option<int>, isError: bool, errorMessage: Option<string>)

  const UndefinedErrorText := "Undefined error"

  /** The handler shared by the token fetch, `accounts` and `transactions`, in its fixed order:
      a transport error wins whatever the body, then a missing body, then a body that does not
      decode; only a decoded body is a success, and it is the decoded value. */
  function Classify<T>(reply: Reply, decode: Bytes -> Option<T>): (r: Result<T, SbankenError>)
    ensures reply.error.Some? ==> r == Failure(FromError(reply.error.value))
    ensures reply.error.None? && reply.data.None? ==> r == Failure(MissingNetworkResponse)
    ensures (reply.error.None? && reply.data.Some? && decode(reply.data.value).None?)
              ==> r == Failure(UnableToDecodeNetworkResponse)
    ensures r.Success? <==> reply.error.None? && reply.data.Some? && decode(reply.data.value).Some?
    ensures r.Success? ==> decode(reply.data.value) == Some(r.value)
  {
    if reply.error.Some? then
      Failure(FromError(reply.error.value))
    else if reply.data.None? then
      Failure(MissingNetworkResponse)
    else
      match decode(reply.data.value)
      case Some(v) => Success(v)
      case None => Failure(UnableToDecodeNetworkResponse)
  }

  /** The token fetch's handler: the decoded payload becomes a token issued at `now`. */
  function TokenResult(reply: Reply, decode: Bytes -> Option<TokenPayload>, now: Time): (r: Result<AccessToken, SbankenError>)
    ensures r.Success? <==> Classify(reply, decode).Success?
    ensures r.Failure? ==> r.error == Classify(reply, decode).error
    ensures r.Success? ==> var p := Classify(reply, decode).value;
      && r.value.accessToken == p.accessToken && r.value.tokenType == p.tokenType
      && r.value.issuedAt == now && r.value.ExpiryDate() == now + p.expiresIn
  {
    match Classify(reply, decode)
    case Success(p) => Success(Issue(p, now))
    case Failure(e) => Failure(e)
  }

  /** `accounts`' handler: a decoded response delivers its `items`. */
  function AccountsResult(reply: Reply, decode: Bytes -> Option<AccountsResponse>): (r: Result<seq<Account>, SbankenError>)
    ensures r.Success? <==> Classify(reply, decode).Success?
    ensures r.Failure? ==> r.error == Classify(reply, decode).error
    ensures r.Success? ==> r.value == Classify(reply, decode).value.items
  {
    match Classify(reply, decode)
    case Success(response) => Success(response.items)
    case Failure(e) => Failure(e)
  }

  /** `transfer`'s handler, which adds a business layer to the shared one: a response that
      decodes but reports `isError` is a failure carrying the server's message (or "Undefined
      error"), never a success. On every other reply it agrees with the shared handler. */
  function TransferResult(reply: Reply, decode: Bytes -> Option<TransferResponse>): (r: Result<TransferResponse, SbankenError>)
    ensures r.Success? ==> !r.value.isError
    ensures Classify(reply, decode).Failure? ==> r == Classify(reply, decode)
    ensures (Classify(reply, decode).Success? && !Classify(reply, decode).value.isError)
              ==> r == Classify(reply, decode)
    ensures (Classify(reply, decode).Success? && Classify(reply, decode).value.isError)
              ==> r == Failure(Message(Classify(reply, decode).value.errorMessage.GetOr(UndefinedErrorText)))
  {
    if reply.error.Some? then
      Failure(FromError(reply.error.value))
    else if reply.data.None? then
      Failure(MissingNetworkResponse)
    else
      match decode(reply.data.value)
      case Some(response) =>
        if response.isError then Failure(FromMessage(response.errorMessage.GetOr(UndefinedErrorText)))
        else Success(response)
      case None => Failure(UnableToDecodeNetworkResponse)
  }

  /** The completion calls a public operation makes, in order, given the outcome of the token
      step, whether its request could be built (its URL parsed), whether encoding its body
      failed, and what its reply handler yields. A failed token step is passed on unchanged
      (`SbankenError(error)` of a `SbankenError` is that error). A request that cannot be built
      completes nothing. An encoding failure reports, and then the request still goes out and
      its handler completes a second time. */
  function Completions<T>(auth: Result<AccessToken, SbankenError>, requestBuilt: bool, encodeFailed: bool,
                          handled: Result<T, SbankenError>): (r: seq<Result<T, SbankenError>>)
    ensures auth.Failure? ==> r == [Failure(auth.error)]
    ensures auth.Success? && !requestBuilt ==> r == []
    ensures auth.Success? && requestBuilt ==> |r| > 0 && r[|r| - 1] == handled
    ensures |r| <= 2
    ensures |r| == 2 <==> auth.Success? && requestBuilt && encodeFailed
    ensures |r| == 2 ==> r[0] == Failure(UnableToDecodeNetworkResponse)
  {
    match auth
    case Failure(e) => [Failure(FromError(Sbanken(e)))]
    case Success(_) =>
      if !requestBuilt then []
      else (if encodeFailed then [Failure(UnableToDecodeNetworkResponse)] else []) + [handled]
  }

  /** As the cache's getter is written, a token just fetched is not served again before it
      expires, so every operation in that window fetches anew. */
  lemma FetchedTokenNotServedWhileFresh(p: TokenPayload, fetchedAt: Time, later: Time)
    requires later <= fetchedAt + p.expiresIn
    ensures CachedToken(Some(Issue(p, fetchedAt)), later) == None
  {
  }

  /** A transport error decides the outcome whatever body came with it, and the failure
      describes itself as the transport error does. */
  lemma TransportErrorIgnoresBody<T>(e: AnyError, d1: Option<Bytes>, d2: Option<Bytes>, decode: Bytes -> Option<T>)
    ensures Classify(Reply(d1, Some(e)), decode) == Classify(Reply(d2, Some(e)), decode)
    ensures Description(Classify(Reply(d1, Some(e)), decode).error) == ErrorDescription(e)
  {
  }

  /** The failures of a decoded business error describe themselves with the server's message. */
  lemma TransferBusinessErrorMessage(reply: Reply, decode: Bytes -> Option<TransferResponse>, response: TransferResponse)
    requires reply.error.None? && reply.data.Some? && decode(reply.data.value) == Some(response)
    requires response.isError
    ensures TransferResult(reply, decode).Failure?
    ensures Description(TransferResult(reply, decode).error) == response.errorMessage.GetOr(UndefinedErrorText)
  {
  }
}
