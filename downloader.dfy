/**
  The statement downloader: each operation sends one GET request through a
  lazily created HTTP client, and a failed response is turned into the
  library's own exceptions.
 */
module Downloads {
  import opened Wrappers
  import opened Json

  /** A bound of a statement period, as the caller hands it to UrlBuilder. */
  type DateTime = string

  /**
    Guzzle's BadResponseException: the server answered with an error status.
    The exception's code is that HTTP status code.
   */
  datatype BadResponse = BadResponse(code: int, reason: string)

  /** The decoded `accountStatement` member of a statement response. */
  datatype Statement = Statement(info: Record, transactions: seq<Record>)

  /** What one GET request yields: the decoded body, or the error response. */
  datatype Reply = Ok(body: Statement) | Fail(error: BadResponse)

  /**
    `TransactionList::create` of a statement. That class is not part of this
    model, so a list is just the statement it was made from.
   */
  datatype TransactionList = TransactionList(statement: Statement)

  /**
    The URLs UrlBuilder makes. That class is not part of this model, so a URL
    is the request it names: operation, token and parameters.
   */
  datatype Url =
    | PeriodsUrl(token: string, from: DateTime, to: DateTime)
    | LastUrl(token: string)
    | SetLastIdUrl(token: string, id: string)

  datatype UrlBuilder = UrlBuilder(token: string) {
    function BuildPeriodsUrl(from: DateTime, to: DateTime): Url {
      PeriodsUrl(token, from, to)
    }

    function BuildLastUrl(): Url {
      LastUrl(token)
    }

    function BuildSetLastIdUrl(id: string): Url {
      SetLastIdUrl(token, id)
    }
  }

  const TOO_GREEDY_MESSAGE := "You can use one token for API call every 30 seconds"
  const INTERNAL_ERROR_MESSAGE := "Server returned 500 Internal Error (probably invalid token?)"

  /** The exception a failed download ends in. */
  datatype ApiError =
    | TooGreedy(message: string, code: int, previous: BadResponse)
    | InternalError(message: string, code: int, previous: BadResponse)
    | Passthrough(error: BadResponse)
  {
    /** getCode() of the exception that reaches the caller. */
    function Code(): int {
      if Passthrough? then error.code else code
    }

    /** The failed response behind it: the previous exception, or the exception itself when rethrown. */
    function Cause(): BadResponse {
      if Passthrough? then error else previous
    }
  }

  /**
    `handleException`: never returns normally. 409 becomes TooGreedyException,
    500 InternalErrorException, each carrying the status as its code and the
    original exception as its cause; any other status rethrows the original.
   */
  function HandleException(e: BadResponse): (r: ApiError)
    ensures r.Code() == e.code && r.Cause() == e
    ensures r.TooGreedy? <==> e.code == 409
    ensures r.InternalError? <==> e.code == 500
    ensures r.Passthrough? <==> r == Passthrough(e)
    ensures r.TooGreedy? ==> r.message == TOO_GREEDY_MESSAGE
    ensures r.InternalError? ==> r.message == INTERNAL_ERROR_MESSAGE
  {
    if e.code == 409 then TooGreedy(TOO_GREEDY_MESSAGE, e.code, e)
    else if e.code == 500 then InternalError(INTERNAL_ERROR_MESSAGE, e.code, e)
    else Passthrough(e)
  }

  /**
    What `downloadTransactionsList` makes of the reply: the transaction list
    is built only from a successful response, and a failed one always ends
    in the classified exception.
   */
  function Receive(reply: Reply): (r: Result<TransactionList, ApiError>)
    ensures r.Success? <==> reply.Ok?
    ensures r.Success? ==> r.value.statement == reply.body
    ensures r.Failure? ==> r.error.Cause() == reply.error
    ensures reply.Fail? ==> r == Failure(HandleException(reply.error))
  {
    match reply
    case Ok(body) => Success(TransactionList(body))
    case Fail(e) => Failure(HandleException(e))
  }

  /** What `setLastId` makes of the reply: nothing on success (the body is dropped), the classified exception otherwise. */
  function Acknowledge(reply: Reply): (r: Result<(), ApiError>)
    ensures r.Success? <==> reply.Ok?
    ensures r.Failure? ==> r.error.Cause() == reply.error
    ensures reply.Fail? ==> r == Failure(HandleException(reply.error))
  {
    match reply
    case Ok(_) => Success(())
    case Fail(e) => Failure(HandleException(e))
  }

  /**
    Which exception a failed request ends in, for every operation: a 409 is
    TooGreedyException, a 500 InternalErrorException, each wrapping the
    response, and any other status rethrows the response's exception.
   */
  lemma FailedReplyClassified(e: BadResponse)
    ensures e.code == 409 ==>
      && Receive(Fail(e)) == Failure(TooGreedy(TOO_GREEDY_MESSAGE, 409, e))
      && Acknowledge(Fail(e)) == Failure(TooGreedy(TOO_GREEDY_MESSAGE, 409, e))
    ensures e.code == 500 ==>
      && Receive(Fail(e)) == Failure(InternalError(INTERNAL_ERROR_MESSAGE, 500, e))
      && Acknowledge(Fail(e)) == Failure(InternalError(INTERNAL_ERROR_MESSAGE, 500, e))
    ensures e.code != 409 && e.code != 500 ==>
      && Receive(Fail(e)) == Failure(Passthrough(e))
      && Acknowledge(Fail(e)) == Failure(Passthrough(e))
  {
  }

  /** A Guzzle client; `verify` is the CA bundle it checks the server's certificate against. */
  class HttpClient {
    const verify: string

    constructor (verify: string)
      ensures this.verify == verify
    {
      this.verify := verify;
    }
  }

  /** One GET request, and the client it went through. */
  datatype Request = Get(client: HttpClient, url: Url)

  class Downloader {
    const urlBuilder: UrlBuilder
    /** What CaBundle::getSystemCaRootBundlePath() reports on this host. */
    const caRootBundlePath: string
    /** The client in use: the injected one, or the default one once created. */
    var client: Option<HttpClient>
    /** Every GET request sent so far, in order. */
    ghost var requests: seq<Request>

    constructor (token: string, client: Option<HttpClient>, caRootBundlePath: string)
      ensures urlBuilder == UrlBuilder(token) && this.client == client
      ensures this.caRootBundlePath == caRootBundlePath && requests == []
    {
      urlBuilder := UrlBuilder(token);
      this.client := client;
      this.caRootBundlePath := caRootBundlePath;
      requests := [];
    }

    /** What `getClient` did: kept the client it had, or created the default one and kept that. */
    twostate predicate ClientResolved(new c: HttpClient)
      reads this
    {
      && client == Some(c)
      && (old(client).Some? ==> c == old(client).value)
      && (old(client).None? ==> fresh(c) && c.verify == caRootBundlePath)
    }

    /** `getClient`: the lazily created client. */
    method GetClient() returns (c: HttpClient)
      modifies this`client
      ensures ClientResolved(c)
    {
      if client.None? {
        var created := new HttpClient(caRootBundlePath);
        client := Some(created);
      }
      c := client.value;
    }

    /** `downloadTransactionsList`: one GET of the URL, then the list or the classified failure. */
    method DownloadTransactionsList(url: Url, reply: Reply) returns (r: Result<TransactionList, ApiError>)
      modifies this
      ensures client.Some? && ClientResolved(client.value)
      ensures requests == old(requests) + [Get(client.value, url)]
      ensures r == Receive(reply)
    {
      var c := GetClient();
      requests := requests + [Get(c, url)];
      r := Receive(reply);
    }

    /** `downloadFromTo`: the statement for a period. */
    method DownloadFromTo(from: DateTime, to: DateTime, reply: Reply) returns (r: Result<TransactionList, ApiError>)
      modifies this
      ensures client.Some? && ClientResolved(client.value)
      ensures requests == old(requests) + [Get(client.value, PeriodsUrl(urlBuilder.token, from, to))]
      ensures r == Receive(reply)
    {
      var url := urlBuilder.BuildPeriodsUrl(from, to);
      r := DownloadTransactionsList(url, reply);
    }

    /** `downloadSince`: the period from `since` to `now`, the current time. */
    method DownloadSince(since: DateTime, now: DateTime, reply: Reply) returns (r: Result<TransactionList, ApiError>)
      modifies this
      ensures client.Some? && ClientResolved(client.value)
      ensures requests == old(requests) + [Get(client.value, PeriodsUrl(urlBuilder.token, since, now))]
      ensures r == Receive(reply)
    {
      r := DownloadFromTo(since, now, reply);
    }

    /** `downloadLast`: the movements not yet marked as read. */
    method DownloadLast(reply: Reply) returns (r: Result<TransactionList, ApiError>)
      modifies this
      ensures client.Some? && ClientResolved(client.value)
      ensures requests == old(requests) + [Get(client.value, LastUrl(urlBuilder.token))]
      ensures r == Receive(reply)
    {
      var url := urlBuilder.BuildLastUrl();
      r := DownloadTransactionsList(url, reply);
    }

    /** `setLastId`: moves the server's last-read marker to the given movement id. */
    method SetLastId(id: string, reply: Reply) returns (r: Result<(), ApiError>)
      modifies this
      ensures client.Some? && ClientResolved(client.value)
      ensures requests == old(requests) + [Get(client.value, SetLastIdUrl(urlBuilder.token, id))]
      ensures r == Acknowledge(reply)
    {
      var c := GetClient();
      var url := urlBuilder.BuildSetLastIdUrl(id);
      requests := requests + [Get(c, url)];
      r := Acknowledge(reply);
    }
  }

  /** Without an injected client, two downloads go through one default client, created by the first. */
  method DefaultClientCreatedOnce(token: string, caRoots: string, first: Reply, second: Reply)
    returns (d: Downloader)
    ensures fresh(d) && d.client.Some? && fresh(d.client.value)
    ensures d.requests == [Get(d.client.value, LastUrl(token)), Get(d.client.value, LastUrl(token))]
  {
    d := new Downloader(token, None, caRoots);
    var r1 := d.DownloadLast(first);
    var r2 := d.DownloadLast(second);
  }

  /** An injected client is the one every request goes through. */
  method InjectedClientIsKept(token: string, given: HttpClient, caRoots: string, from: DateTime, to: DateTime, first: Reply, second: Reply)
    returns (d: Downloader)
    ensures d.client == Some(given)
    ensures d.requests == [Get(given, PeriodsUrl(token, from, to)), Get(given, SetLastIdUrl(token, "1"))]
  {
    d := new Downloader(token, Some(given), caRoots);
    var r1 := d.DownloadFromTo(from, to, first);
    var r2 := d.SetLastId("1", second);
  }
}
