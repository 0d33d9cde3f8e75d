/** The API client (SbankenClient/SbankenClient.swift): acquires a token through the cache or
    the token endpoint, builds authenticated requests, hands them to the injected session and
    classifies the replies.

    The URL session is replaced by a log of the requests handed to it (`sent`) and by a reply
    given per request; each public operation returns the completion calls it makes, in order. */
module Client {
  import opened Wrappers
  import opened Errors
  import opened TokenCache
  import opened Http
  import opened Handling

  /** The framework calls the client relies on, left uninterpreted: `URL(string:)`, UTF-8
      encoding, `base64EncodedString`, `stringFromHttpParameters`, `ISO8601DateFormatter`, and
      the JSON decoder and encoder bound to the response and request schemas. */
  datatype Platform = Platform(
    parseUrl: string -> Option<Url>,
    utf8: string -> Bytes,
    base64: Bytes -> string,
    queryString: map<string, string> -> string,
    iso8601: Time -> string,
    decodeToken: Bytes -> Option<TokenPayload>,
    decodeAccounts: Bytes -> Option<AccountsResponse>,
    decodeTransactions: Bytes -> Option<TransactionResponse>,
    decodeTransfer: Bytes -> Option<TransferResponse>,
    encodeTransfer: TransferRequest -> Option<Bytes>)

  const TokenPath := "/identityserver/connect/token"
  const JsonType := "application/json"
  const FormType := "application/x-www-form-urlencoded; charset=utf-8"
  const GrantBody := "grant_type=client_credentials"

  function AccountsPath(userId: string): string {
    "/Bank/api/v1/Accounts/" + userId
  }

  function TransactionsPath(userId: string, accountNumber: string): string {
    "/Bank/api/v2/Transactions/" + userId + "/" + accountNumber
  }

  function TransfersPath(userId: string): string {
    "/Bank/api/v1/Transfers/" + userId
  }

  /** Swift's `"\(n)"` for an `Int`. */
  function Decimal(n: int): (r: string)
    decreases if n < 0 then 1 - n else n
    ensures |r| > 0
    ensures r[0] == '-' <==> n < 0
    ensures forall i | (if n < 0 then 1 else 0) <= i < |r| :: '0' <= r[i] <= '9'
    ensures n >= 10 ==> r[0] != '0'
    ensures 0 <= n < 10 ==> |r| == 1
    ensures n < 0 ==> r[1..] == Decimal(-n)
  {
    if n < 0 then "-" + Decimal(-n)
    else if n < 10 then ["0123456789"[n]]
    else Decimal(n / 10) + ["0123456789"[n % 10]]
  }

  /** The number a string of decimal digits denotes, most significant digit first. */
  function DigitsValue(s: string): int
  {
    if s == [] then 0
    else 10 * DigitsValue(s[..|s| - 1]) + (s[|s| - 1] as int - '0' as int)
  }

  /** The digit `Decimal` writes for `k` is worth `k`. */
  lemma DigitValue(k: int)
    requires 0 <= k < 10
    ensures "0123456789"[k] as int - '0' as int == k
  {
    if k < 5 {
      assert k == 0 || k == 1 || k == 2 || k == 3 || k == 4;
    } else {
      assert k == 5 || k == 6 || k == 7 || k == 8 || k == 9;
    }
  }

  /** Appending a digit multiplies the value so far by ten and adds the digit. */
  lemma DigitsValueAppend(s: string, c: char)
    ensures DigitsValue(s + [c]) == 10 * DigitsValue(s) + (c as int - '0' as int)
  {
    assert (s + [c])[..|s|] == s;
  }

  /** The digits `Decimal` writes for a non-negative number denote that number. */
  lemma {:induction false} NaturalDecimalDenotes(n: nat)
    ensures DigitsValue(Decimal(n)) == n
  {
    if n < 10 {
      DigitValue(n);
      assert Decimal(n) == [] + ["0123456789"[n]];
      DigitsValueAppend([], "0123456789"[n]);
    } else {
      var q, d := n / 10, n % 10;
      NaturalDecimalDenotes(q);
      DigitValue(d);
      assert Decimal(n) == Decimal(q) + ["0123456789"[d]];
      DigitsValueAppend(Decimal(q), "0123456789"[d]);
      assert 10 * q + d == n;
    }
  }

  /** The digits `Decimal` writes denote the number it was given; a negative number's follow its sign. */
  lemma {:induction false} DecimalDenotes(n: int)
    ensures n >= 0 ==> DigitsValue(Decimal(n)) == n
    ensures n < 0 ==> DigitsValue(Decimal(n)[1..]) == -n
  {
    if n < 0 {
      NaturalDecimalDenotes(-n);
      assert Decimal(n)[1..] == Decimal(-n);
    } else {
      NaturalDecimalDenotes(n);
    }
  }

  /** The header fields of every authenticated API request (Bearer scheme, section 2.1 of RFC 6750). */
  function BearerHeaders(token: AccessToken): map<string, string> {
    map["Authorization" := "Bearer " + token.accessToken, "Accept" := JsonType]
  }

  /** An authenticated GET of `url`. */
  function BearerRequest(url: Url, token: AccessToken): Request {
    Request("GET", Some(url), BearerHeaders(token), None)
  }

  /** The list of requests the token step hands to the session: one exactly when the cache had nothing to give. */
  function TokenRequests(cached: Option<AccessToken>, tokenRequest: Request): seq<Request> {
    if cached.None? then [tokenRequest] else []
  }

  /** What the cache holds after the token step: a freshly fetched token is stored, nothing else changes it. */
  function StoredAfter(stored: Option<AccessToken>, cached: Option<AccessToken>, auth: Result<AccessToken, SbankenError>): Option<AccessToken> {
    if cached.None? && auth.Success? then Some(auth.value) else stored
  }

  class SbankenClient {
    const clientId: string
    const secret: string
    /** `Constants.baseUrl` */
    const baseUrl: string
    const platform: Platform
    const tokenManager: AccessTokenManager
    /** Every request handed to the URL session, in order. */
    var sent: seq<Request>

    /** The configured base URL gives a parsable token endpoint, so the force unwrap of the
        token URL never traps. */
    predicate Valid() {
      platform.parseUrl(baseUrl + TokenPath).Some?
    }

    constructor(clientId: string, secret: string, baseUrl: string, platform: Platform, tokenManager: AccessTokenManager)
      requires platform.parseUrl(baseUrl + TokenPath).Some?
      ensures Valid()
      ensures this.clientId == clientId && this.secret == secret && this.baseUrl == baseUrl
      ensures this.platform == platform && this.tokenManager == tokenManager
      ensures sent == []
    {
      this.clientId := clientId;
      this.secret := secret;
      this.baseUrl := baseUrl;
      this.platform := platform;
      this.tokenManager := tokenManager;
      sent := [];
    }

    /** The header fields of the token request: Basic credentials (section 2 of RFC 7617) and
        the form-encoded content type of a client-credentials grant (section 4.4 of RFC 6749). */
    function TokenHeaders(): map<string, string> {
      map["Authorization" := "Basic " + platform.base64(platform.utf8(clientId + ":" + secret)),
          "Content-Type" := FormType,
          "Accept" := JsonType]
    }

    /** The client-credentials token request. */
    function TokenEndpointRequest(): Request {
      Request("POST", platform.parseUrl(baseUrl + TokenPath), TokenHeaders(), Some(platform.utf8(GrantBody)))
    }

    /** The outcome of the token step, given what the cache's getter yielded. */
    function Authenticate(cached: Option<AccessToken>, reply: Reply, now: Time): Result<AccessToken, SbankenError> {
      if cached.Some? then Success(cached.value) else TokenResult(reply, platform.decodeToken, now)
    }

    /** An authenticated GET of `url` with the query string of `parameters` appended. */
    function QueryRequest(url: Url, token: AccessToken, parameters: map<string, string>): Request {
      BearerRequest(url, token).(url := platform.parseUrl(url.absoluteString + "?" + platform.queryString(parameters)))
    }

    /** An authenticated POST of `body` as JSON to `url`. */
    function PostRequest(url: Url, token: AccessToken, body: Option<Bytes>): Request {
      Request("POST", Some(url), BearerHeaders(token)["Content-Type" := JsonType], body)
    }

    /** Builds the token request as the client does: a request to the token endpoint, each
        entry of a header dictionary set in the dictionary's (unspecified) order, then the
        method and the form body. */
    method BuildTokenRequest() returns (request: Request)
      requires Valid()
      ensures request == TokenEndpointRequest()
      ensures request.httpMethod == "POST"
      ensures request.url == platform.parseUrl(baseUrl + TokenPath)
      ensures request.headers.Keys == {"Authorization", "Content-Type", "Accept"}
      ensures request.headers["Authorization"] == "Basic " + platform.base64(platform.utf8(clientId + ":" + secret))
      ensures request.headers["Content-Type"] == FormType && request.headers["Accept"] == JsonType
      ensures request.httpBody == Some(platform.utf8(GrantBody))
    {
      var fields := TokenHeaders();
      request := NewRequest(platform.parseUrl(baseUrl + TokenPath).value);
      var pending := fields.Keys;
      while pending != {}
        invariant pending <= fields.Keys
        invariant request.headers == map k | k in fields.Keys - pending :: fields[k]
        invariant request.httpMethod == "GET" && request.httpBody == None
        invariant request.url == platform.parseUrl(baseUrl + TokenPath)
        decreases pending
      {
        var key :| key in pending;
        request := request.SetValue(fields[key], key);
        pending := pending - {key};
      }
      request := request.(httpMethod := "POST");
      request := request.(httpBody := Some(platform.utf8(GrantBody)));
    }

    /** `urlRequest(_:token:)`: nothing exactly when the URL string does not parse; otherwise a
        GET of the parsed URL carrying exactly the Bearer token and the JSON `Accept` field. */
    method UrlRequest(urlString: string, token: AccessToken) returns (request: Option<Request>)
      ensures request.None? <==> platform.parseUrl(urlString).None?
      ensures request.Some? ==> request.value == BearerRequest(platform.parseUrl(urlString).value, token)
      ensures request.Some? ==> request.value.headers.Keys == {"Authorization", "Accept"}
      ensures request.Some? ==> request.value.headers["Authorization"] == "Bearer " + token.accessToken
      ensures request.Some? ==> request.value.headers["Accept"] == JsonType
    {
      var url := platform.parseUrl(urlString);
      if url.None? {
        return None;
      }
      var r := NewRequest(url.value);
      r := r.SetValue("Bearer " + token.accessToken, "Authorization");
      r := r.SetValue(JsonType, "Accept");
      return Some(r);
    }

    /** `urlRequest(_:token:parameters:)`: nothing exactly when the plain request cannot be
        built; otherwise the plain request, same method, header fields and body, whose URL is
        re-parsed from the original URL, "?" and the encoded parameters. */
    method UrlRequestWithParameters(urlString: string, token: AccessToken, parameters: map<string, string>)
      returns (request: Option<Request>)
      ensures request.None? <==> platform.parseUrl(urlString).None?
      ensures request.Some? ==> request.value == QueryRequest(platform.parseUrl(urlString).value, token, parameters)
      ensures request.Some? ==> request.value.headers == BearerHeaders(token) && request.value.httpMethod == "GET"
      ensures request.Some? ==>
                request.value.url == platform.parseUrl(platform.parseUrl(urlString).value.absoluteString + "?" + platform.queryString(parameters))
    {
      var plain := UrlRequest(urlString, token);
      if plain.None? {
        return None;
      }
      var r := plain.value;
      if r.url.None? {
        return None;
      }
      var originalUrl := r.url.value.absoluteString;
      r := r.(url := platform.parseUrl(originalUrl + "?" + platform.queryString(parameters)));
      return Some(r);
    }

    /** `accessToken(clientId:secret:completion:)`. A token the getter yields is delivered at
        once and nothing is sent. Otherwise the token request is sent, and its reply is
        classified; a decoded token is stored in the cache before it is delivered, and a failed
        fetch leaves the cache as it was. */
    method AccessToken(now: Time, reply: Reply) returns (result: Result<AccessToken, SbankenError>)
      requires Valid()
      modifies this, tokenManager
      ensures result == Authenticate(old(tokenManager.Token(now)), reply, now)
      ensures old(tokenManager.Token(now)).Some? ==> result == Success(old(tokenManager.Token(now)).value)
      ensures sent == old(sent) + TokenRequests(old(tokenManager.Token(now)), TokenEndpointRequest())
      ensures tokenManager.storedToken == StoredAfter(old(tokenManager.storedToken), old(tokenManager.Token(now)), result)
    {
      var cached := tokenManager.Token(now);
      if cached.Some? {
        return Success(cached.value);
      }
      var request := BuildTokenRequest();
      sent := sent + [request];
      if reply.error.Some? {
        return Failure(FromError(reply.error.value));
      }
      if reply.data.None? {
        return Failure(MissingNetworkResponse);
      }
      var payload := platform.decodeToken(reply.data.value);
      if payload.Some? {
        var token := Issue(payload.value, now);
        tokenManager.SetToken(Some(token));
        result := Success(token);
      } else {
        result := Failure(UnableToDecodeNetworkResponse);
      }
    }

    /** `accounts(userId:completion:)`. A URL that does not parse traps (`fatalError`) after a
        successful token step; otherwise the completions are those of `Completions`. */
    method Accounts(userId: string, now: Time, tokenReply: Reply, reply: Reply)
      returns (completions: seq<Result<seq<Account>, SbankenError>>, trapped: bool)
      requires Valid()
      modifies this, tokenManager
      ensures var cached := old(tokenManager.Token(now));
              var auth := Authenticate(cached, tokenReply, now);
              var url := platform.parseUrl(baseUrl + AccountsPath(userId));
              && trapped == (auth.Success? && url.None?)
              && completions == Completions(auth, url.Some?, false, AccountsResult(reply, platform.decodeAccounts))
              && sent == old(sent) + TokenRequests(cached, TokenEndpointRequest())
                           + (if auth.Success? && url.Some? then [BearerRequest(url.value, auth.value)] else [])
              && tokenManager.storedToken == StoredAfter(old(tokenManager.storedToken), cached, auth)
    {
      var auth := AccessToken(now, tokenReply);
      match auth
      case Failure(e) =>
        completions, trapped := [Failure(FromError(Sbanken(e)))], false;
      case Success(token) =>
        var request := UrlRequest(baseUrl + AccountsPath(userId), token);
        if request.None? {
          return [], true;
        }
        sent := sent + [request.value];
        completions, trapped := [AccountsResult(reply, platform.decodeAccounts)], false;
    }

    /** `transactions(userId:accountNumber:startDate:endDate:index:length:completion:)`. A URL
        that does not parse ends the call silently, with no completion at all. */
    method Transactions(userId: string, accountNumber: string, startDate: Time, endDate: Time,
                        index: int, length: int, now: Time, tokenReply: Reply, reply: Reply)
      returns (completions: seq<Result<TransactionResponse, SbankenError>>)
      requires Valid()
      modifies this, tokenManager
      ensures var cached := old(tokenManager.Token(now));
              var auth := Authenticate(cached, tokenReply, now);
              var url := platform.parseUrl(baseUrl + TransactionsPath(userId, accountNumber));
              var parameters := map["index" := Decimal(index), "length" := Decimal(length),
                                    "startDate" := platform.iso8601(startDate), "endDate" := platform.iso8601(endDate)];
              && completions == Completions(auth, url.Some?, false, Classify(reply, platform.decodeTransactions))
              && sent == old(sent) + TokenRequests(cached, TokenEndpointRequest())
                           + (if auth.Success? && url.Some? then [QueryRequest(url.value, auth.value, parameters)] else [])
              && tokenManager.storedToken == StoredAfter(old(tokenManager.storedToken), cached, auth)
    {
      var auth := AccessToken(now, tokenReply);
      match auth
      case Failure(e) =>
        completions := [Failure(FromError(Sbanken(e)))];
      case Success(token) =>
        var parameters := map["index" := Decimal(index), "length" := Decimal(length),
                              "startDate" := platform.iso8601(startDate), "endDate" := platform.iso8601(endDate)];
        var request := UrlRequestWithParameters(baseUrl + TransactionsPath(userId, accountNumber), token, parameters);
        if request.None? {
          return [];
        }
        sent := sent + [request.value];
        completions := [Classify(reply, platform.decodeTransactions)];
    }

    /** `transfer(userId:fromAccount:toAccount:message:amount:completion:)`. A URL that does not
        parse ends the call silently. An encoding failure is reported, but the request still
        goes out, without a body, and its handler completes a second time. */
    method Transfer(userId: string, fromAccount: string, toAccount: string, message: string, amount: real,
                    now: Time, tokenReply: Reply, reply: Reply)
      returns (completions: seq<Result<TransferResponse, SbankenError>>)
      requires Valid()
      modifies this, tokenManager
      ensures var cached := old(tokenManager.Token(now));
              var auth := Authenticate(cached, tokenReply, now);
              var url := platform.parseUrl(baseUrl + TransfersPath(userId));
              var body := platform.encodeTransfer(TransferRequest(fromAccount, toAccount, message, amount));
              && completions == Completions(auth, url.Some?, body.None?, TransferResult(reply, platform.decodeTransfer))
              && sent == old(sent) + TokenRequests(cached, TokenEndpointRequest())
                           + (if auth.Success? && url.Some? then [PostRequest(url.value, auth.value, body)] else [])
              && tokenManager.storedToken == StoredAfter(old(tokenManager.storedToken), cached, auth)
    {
      var auth := AccessToken(now, tokenReply);
      match auth
      case Failure(e) =>
        completions := [Failure(FromError(Sbanken(e)))];
      case Success(token) =>
        var built := UrlRequest(baseUrl + TransfersPath(userId), token);
        if built.None? {
          return [];
        }
        var request := built.value;
        var transferRequest := TransferRequest(fromAccount, toAccount, message, amount);
        request := request.(httpMethod := "POST");
        request := request.SetValue(JsonType, "Content-Type");
        completions := [];
        var body := platform.encodeTransfer(transferRequest);
        if body.Some? {
          request := request.(httpBody := body);
        } else {
          completions := completions + [Failure(UnableToDecodeNetworkResponse)];
        }
        sent := sent + [request];
        completions := completions + [TransferResult(reply, platform.decodeTransfer)];
    }
  }
}
