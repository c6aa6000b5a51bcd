// The user-search client: FindUsers checks the request, asks the server for
// one user more than it will return (to learn whether another page exists)
// and turns the server's answer into a page or an error.
module SearchClient {
  import opened Outcomes
  import opened GoStrconv
  import opened NetUrl
  import opened SearchApi
  import opened SearchServer

  /** The client never asks for more than this many users. */
  const MaxLimit: int := 25

  const StatusInternalServerError: int := 500

  /** What came back from the HTTP layer: the request could not be built
      from the URL, the call timed out, it failed otherwise, or an answer
      arrived. */
  datatype Transport = BadUrl(err: string) | Timeout | NetFailure(err: string) | Delivered(reply: Reply)

  /** The client: the token it sends in the AccessToken header. */
  datatype Client = Client(accessToken: string)

  /** FindUsers' checks and adjustments before the call: a negative limit,
      then a negative offset, is refused; otherwise the limit is capped at 25
      and one is added to detect a next page. */
  function Shaped(req: SearchRequest): (r: Result<SearchRequest, string>)
  {
    if req.limit < 0 then Err("limit must be > 0")
    else
      var capped := if req.limit > MaxLimit then MaxLimit else req.limit;
      if req.offset < 0 then Err("offset must be > 0")
      else Ok(req.(limit := capped + 1))
  }

  /** url.Values.Encode of the five parameters: keys in sorted order, each
      value query-escaped (the keys need no escaping). */
  function QueryString(sent: SearchRequest): string {
    "limit=" + QueryEscape(Itoa(sent.limit)) + "&offset=" + QueryEscape(Itoa(sent.offset)) +
    "&order_by=" + QueryEscape(Itoa(sent.orderBy)) + "&order_field=" + QueryEscape(sent.orderField) +
    "&query=" + QueryEscape(sent.query)
  }

  /** The decoder's complaint when a body of the wrong shape is decoded. */
  function Mismatch(body: Body, into: string): string {
    match body
    case Undecodable(reason) => reason
    case ErrorJson(_) => "json: cannot unmarshal object into Go value of type " + into
    case UsersJson(_) => "json: cannot unmarshal array into Go value of type " + into
  }

  /** The answer to a request that was sent with the limit `sent.limit`
      (one more than the page): 401 and 500 are errors of their own, a 400
      carries the server's error, anything else must be a list of users; a
      full list of `sent.limit` users means there is a next page, and its
      last user is not returned. */
  function Interpret(orderField: string, sent: SearchRequest, reply: Reply): (r: Result<SearchResponse, string>)
  {
    if reply.status == StatusUnauthorized then Err("bad AccessToken")
    else if reply.status == StatusInternalServerError then Err("SearchServer fatal error")
    else if reply.status == StatusBadRequest then
      if reply.body.ErrorJson? then
        if reply.body.error == ErrorBadOrderField then Err("OrderField " + orderField + " invalid")
        else Err("unknown bad request error: " + reply.body.error)
      else Err("cant unpack error json: " + Mismatch(reply.body, "main.SearchErrorResponse"))
    else if reply.body.UsersJson? then
      var data := reply.body.users;
      if |data| == sent.limit && |data| > 0 then Ok(SearchResponse(data[..|data| - 1], true))
      else Ok(SearchResponse(data, false))
    else Err("cant unpack result json: " + Mismatch(reply.body, "[]main.User"))
  }

  /** FindUsers, with `send` standing for the HTTP round trip: it gets the
      token and the query parameters. */
  function FindUsers(client: Client, req: SearchRequest, send: (string, Params) -> Transport): (r: Result<SearchResponse, string>)
    ensures r.Ok? ==> req.limit >= 0 && req.offset >= 0
  {
    match Shaped(req)
    case Err(m) => Err(m)
    case Ok(sent) =>
      match send(client.accessToken, Encoded(sent))
      case BadUrl(err) => Err(err)
      case Timeout => Err("timeout for " + QueryString(sent))
      case NetFailure(err) => Err("unknown error " + err)
      case Delivered(reply) => Interpret(req.orderField, sent, reply)
  }

  /** A timeout names the encoded query: the query text is escaped, so a
      space and an ampersand in it cannot pass for a separator. */
  lemma TimeoutNamesQuery(client: Client, req: SearchRequest, send: (string, Params) -> Transport)
    requires 0 <= req.limit <= MaxLimit && req.offset == 0 && req.orderBy == 0
    requires req.orderField == "" && req.query == "a b&c"
    requires send(client.accessToken, Encoded(req.(limit := req.limit + 1))) == Timeout
    ensures FindUsers(client, req, send) == Err("timeout for " + QueryString(req.(limit := req.limit + 1)))
    ensures QueryString(req.(limit := req.limit + 1)) ==
      "limit=" + Itoa(req.limit + 1) + "&offset=" + "0" + "&order_by=" + "0" +
      "&order_field=" + "" + "&query=" + "a+b%26c"
  {
    var sent := req.(limit := req.limit + 1);
    assert Shaped(req) == Ok(sent);
    SampleQuery(sent);
  }

  lemma SampleQuery(sent: SearchRequest)
    requires sent.offset == 0 && sent.orderBy == 0 && sent.orderField == "" && sent.query == "a b&c"
    ensures QueryString(sent) ==
      "limit=" + Itoa(sent.limit) + "&offset=" + "0" + "&order_by=" + "0" +
      "&order_field=" + "" + "&query=" + "a+b%26c"
  {
    QueryEscapeSample();
    ItoaUnreserved(sent.limit);
    assert Itoa(0) == "0";
    assert QueryEscape("0") == "0";
    assert QueryEscape("") == "";
  }

  lemma ItoaUnreserved(n: int)
    ensures QueryEscape(Itoa(n)) == Itoa(n)
  {
    var s := Itoa(n);
    assert forall j :: 0 <= j < |s| ==> Unreserved(s[j]) by {
      if n < 0 {
        assert forall j :: 1 <= j < |s| ==> s[j] == Digits(-n)[j - 1];
      }
    }
    QueryEscapeUnreserved(s);
  }

  /** The request is checked before anything is sent: a negative limit is
      refused first, then a negative offset, whatever the server would do. */
  lemma ChecksBeforeSending(client: Client, req: SearchRequest, send: (string, Params) -> Transport)
    ensures req.limit < 0 ==> FindUsers(client, req, send) == Err("limit must be > 0")
    ensures req.limit >= 0 && req.offset < 0 ==> FindUsers(client, req, send) == Err("offset must be > 0")
  {
  }

  /** A request that passes the checks asks for min(limit, 25) + 1 users and
      keeps everything else, and the server parses back exactly that. */
  lemma SentRequest(req: SearchRequest)
    requires req.limit >= 0 && req.offset >= 0 && InIntRange(req.offset) && InIntRange(req.orderBy)
    ensures Shaped(req).Ok?
    ensures Shaped(req).value == req.(limit := (if req.limit < MaxLimit then req.limit else MaxLimit) + 1)
    ensures ParseSearchRequest(Encoded(Shaped(req).value)) == Ok(Shaped(req).value)
  {
    ParseEncoded(Shaped(req).value);
  }

  /** The error of each status: 401 and 500 whatever the body; for 400 the
      order-field error names the request's field. */
  lemma StatusErrors(orderField: string, sent: SearchRequest, body: Body)
    ensures Interpret(orderField, sent, Reply(StatusUnauthorized, body)) == Err("bad AccessToken")
    ensures Interpret(orderField, sent, Reply(StatusInternalServerError, body)) == Err("SearchServer fatal error")
    ensures Interpret(orderField, sent, Reply(StatusBadRequest, ErrorJson(ErrorBadOrderField))) == Err("OrderField " + orderField + " invalid")
  {
  }

  /** A server that honours the limit gives at most `sent.limit - 1` users:
      with the cap, never more than 25; the next-page flag is set exactly
      when the server filled the whole limit. */
  lemma PageBound(orderField: string, sent: SearchRequest, data: seq<User>)
    requires 1 <= sent.limit <= MaxLimit + 1 && |data| <= sent.limit
    ensures Interpret(orderField, sent, Reply(StatusOK, UsersJson(data))).Ok?
    ensures var resp := Interpret(orderField, sent, Reply(StatusOK, UsersJson(data))).value;
            && |resp.users| <= sent.limit - 1 <= MaxLimit
            && (resp.nextPage <==> |data| == sent.limit)
            && resp.users == data[..|resp.users|]
  {
  }

  /** FindUsers against the search server: when the server serves the
      request the client sends, the client gets the first min(limit, 25)
      users of the server's window at the offset, and a next page exactly
      when more matching users follow. */
  lemma AgainstServer(usersDb: seq<User>, req: SearchRequest, ordered: seq<User>, reply: Reply, send: (string, Params) -> Transport)
    requires req.limit >= 0 && req.offset >= 0
    requires Served(usersDb, Shaped(req).value, ordered, reply)
    requires send(AccessTokenCorrect, Encoded(Shaped(req).value)) == Delivered(reply)
    ensures var shown := if req.limit < MaxLimit then req.limit else MaxLimit;
            FindUsers(Client(AccessTokenCorrect), req, send) ==
              Ok(SearchResponse(Page(ordered, req.offset, shown),
                                |Matching(usersDb, req.query)| > req.offset + shown))
  {
    var shown := if req.limit < MaxLimit then req.limit else MaxLimit;
    var sent := req.(limit := shown + 1);
    assert Shaped(req) == Ok(sent);
    ServedWindow(usersDb, sent, ordered, reply);
    assert FindUsers(Client(AccessTokenCorrect), req, send) == Interpret(req.orderField, sent, reply);
    TrimmedPage(ordered, req.offset, shown);
  }

  /** With the correct token, the server refuses nothing the client sends
      for a request with a known field and a direction in -1..1. */
  lemma ServerAccepts(req: SearchRequest)
    requires req.limit >= 0 && req.offset >= 0 && InIntRange(req.offset) && InIntRange(req.orderBy)
    requires KnownOrderField(req.orderField) && -1 <= req.orderBy <= 1
    ensures Shaped(req).Ok? && Refusal(AccessTokenCorrect, Encoded(Shaped(req).value)) == None
  {
    SentRequest(req);
    RefusalMeaning(AccessTokenCorrect, Encoded(Shaped(req).value));
    OrderFieldCheckCorrected(req.orderField);
  }

  /** A served answer is a 200 carrying the window of `ordered`, which holds
      as many users as match. */
  lemma ServedWindow(usersDb: seq<User>, sent: SearchRequest, ordered: seq<User>, reply: Reply)
    requires sent.offset >= 0 && sent.limit >= 0 && Served(usersDb, sent, ordered, reply)
    ensures reply == Reply(StatusOK, UsersJson(Page(ordered, sent.offset, sent.limit)))
    ensures |ordered| == |Matching(usersDb, sent.query)|
  {
    assert |multiset(ordered)| == |multiset(Matching(usersDb, sent.query))|;
  }

  /** The client's reading of a window one user longer than it shows: the
      shown window, and a next page exactly when more users follow. */
  lemma TrimmedPage(s: seq<User>, offset: int, shown: int)
    requires offset >= 0 && shown >= 0
    ensures var data := Page(s, offset, shown + 1);
            (if |data| == shown + 1 && |data| > 0 then SearchResponse(data[..|data| - 1], true) else SearchResponse(data, false))
              == SearchResponse(Page(s, offset, shown), |s| > offset + shown)
  {
    PagesTile(s, offset, shown, 1);
    PageMeaning(s, offset, shown);
    PageMeaning(s, offset, shown + 1);
  }
}
