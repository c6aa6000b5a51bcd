// The RealWorld API server: five endpoints over the repositories. Each
// handler is proved to answer and to change the repositories as the
// endpoint promises; the clock, the id clock and the random bytes it would
// read come in as an Env.
module RealWorldServer {
  import opened Outcomes
  import opened GoStrings
  import opened NetUrl
  import opened MapIteration
  import opened RealWorldText
  import opened RealWorldRepos

  /** utils.ApiError: the status to answer with and the error text. */
  datatype ApiError = ApiError(responseCode: int, err: string)

  /** An error reaching ServeHTTP: an ApiError, or any other error. */
  datatype HandlerError = Api(e: ApiError) | Other

  /** What a handler answers with: the user, the article, the list with
      its count, or an empty object. */
  datatype Payload =
    | UserPayload(user: User)
    | ArticlePayload(article: Article)
    | ArticlesPayload(articles: seq<Article>, articlesCount: int)
    | EmptyObject

  /** utils.ApiResponse. */
  datatype ApiResponse = ApiResponse(code: int, response: Payload)

  /** The body ServeHTTP writes: the JSON of a payload, {"error": ...}, or
      plain text. */
  datatype Body = Json(payload: Payload) | ErrorJson(error: string) | Text(text: string)

  datatype Reply = Reply(status: int, body: Body)

  /** The JSON body fields the handlers read, "" or [] when absent. */
  datatype UserFields = UserFields(email: string, username: string, password: string, bio: string)
  datatype ArticleFields = ArticleFields(title: string, description: string, body: string, tagList: seq<string>)
  datatype JsonBody = JsonBody(user: UserFields, article: ArticleFields)

  /** The request: path, method, the Authorization header ("" when absent),
      the query, and the body decoded (None when it is not valid JSON). */
  datatype Request = Request(path: string, httpMethod: string, authorization: string,
                             query: Values, body: Option<JsonBody>)

  /** What the handlers would read from the clock and the random source:
      the time, the id made from the clock, and 32 random bytes. */
  datatype Env = Env(now: int, id: string, random: seq<Byte>)

  predicate EnvReady(env: Env) {
    |env.random| == 32
  }

  const StatusOK := 200
  const StatusCreated := 201
  const StatusBadRequest := 400
  const StatusUnauthorized := 401
  const StatusNotFound := 404
  const StatusConflict := 409
  const StatusInternalServerError := 500

  const BadMethod := ApiError(StatusBadRequest, "bad method")
  const Forbidden := ApiError(StatusUnauthorized, "forbidden")

  // ---------------------------------------------------------------------
  // Routing and replies

  datatype Endpoint = Users | Login | CurrentUser | Logout | Articles | Unknown

  /** ServeHTTP's switch on the exact path. */
  function Route(path: string): (e: Endpoint)
    ensures e == Unknown <==>
              path !in {"/api/users", "/api/users/login", "/api/user", "/api/user/logout", "/api/articles"}
  {
    if path == "/api/users" then Users
    else if path == "/api/users/login" then Login
    else if path == "/api/user" then CurrentUser
    else if path == "/api/user/logout" then Logout
    else if path == "/api/articles" then Articles
    else Unknown
  }

  /** The methods each endpoint's handler accepts. */
  predicate Accepts(e: Endpoint, httpMethod: string) {
    match e
    case Users => httpMethod == "POST"
    case Login => httpMethod == "POST"
    case Logout => httpMethod == "POST"
    case CurrentUser => httpMethod == "GET" || httpMethod == "PUT"
    case Articles => httpMethod == "GET" || httpMethod == "POST"
    case Unknown => false
  }

  /** What ServeHTTP writes for the handler's output and error: an error
      wins; an ApiError answers with its code and {"error": text}, any other
      error with 500 and an empty text (the zero ApiError's); an output
      answers with its code and its JSON; neither is a 500 in plain text. */
  function Write(output: Option<ApiResponse>, err: Option<HandlerError>): (reply: Reply)
    ensures err.Some? ==> reply.body.ErrorJson?
    ensures err.Some? && err.value.Api? ==> reply == Reply(err.value.e.responseCode, ErrorJson(err.value.e.err))
    ensures err.Some? && err.value.Other? ==> reply == Reply(StatusInternalServerError, ErrorJson(""))
    ensures err.None? && output.Some? ==> reply == Reply(output.value.code, Json(output.value.response))
    ensures err.None? && output.None? ==> reply.status == StatusInternalServerError && reply.body.Text?
  {
    match err
    case Some(Api(e)) => Reply(e.responseCode, ErrorJson(e.err))
    case Some(Other) => Reply(StatusInternalServerError, ErrorJson(""))
    case None =>
      match output
      case Some(o) => Reply(o.code, Json(o.response))
      case None => Reply(StatusInternalServerError, Text("Something went wrong\n"))
  }

  /** A handler's result as the pair ServeHTTP receives. */
  function Written(out: Result<ApiResponse, ApiError>): Reply {
    match out
    case Ok(o) => Write(Some(o), None)
    case Err(e) => Write(None, Some(Api(e)))
  }

  /** The user the Authorization header names: "Token <t>" with t bound to
      the id of a stored user. */
  function Authenticated(authorization: string, sessions: map<string, string>, usersById: map<string, User>): Option<User> {
    if authorization == "" then None
    else if !HasPrefix(authorization, "Token ") then None
    else Lookup(usersById, SessionUser(sessions, authorization[|"Token "|..]))
  }

  /** A caller is authenticated exactly when the header is "Token " and a
      token bound to the id of a stored user, and then it is that user. */
  lemma AuthenticatedMeaning(authorization: string, sessions: map<string, string>, usersById: map<string, User>)
    ensures Authenticated(authorization, sessions, usersById).Some? <==>
              exists token :: authorization == "Token " + token && SessionUser(sessions, token) in usersById
    ensures forall token :: authorization == "Token " + token && SessionUser(sessions, token) in usersById ==>
              Authenticated(authorization, sessions, usersById) == Some(usersById[SessionUser(sessions, token)])
  {
    forall token | authorization == "Token " + token
      ensures HasPrefix(authorization, "Token ") && authorization[|"Token "|..] == token
    {
      PrefixOfConcat("Token ", token);
    }
    if Authenticated(authorization, sessions, usersById).Some? {
      var token := authorization[|"Token "|..];
      assert authorization == "Token " + token by {
        PrefixChars(authorization, "Token ");
      }
    }
  }

  /** getArticles' order: oldest first. */
  predicate SortedByCreation(s: seq<Article>) {
    forall i, j :: 0 <= i < j < |s| ==> s[i].createdAt <= s[j].createdAt
  }

  /** slices.SortFunc by CreatedAt, in place (as an insertion sort: only
      the order and the permutation are promised). */
  method SortByCreation(a: array<Article>)
    modifies a
    ensures SortedByCreation(a[..])
    ensures multiset(a[..]) == multiset(old(a[..]))
  {
    var i := 0;
    while i < a.Length
      invariant 0 <= i <= a.Length
      invariant SortedByCreation(a[..i])
      invariant multiset(a[..]) == multiset(old(a[..]))
    {
      InsertByCreation(a, i);
      i := i + 1;
    }
    assert a[..i] == a[..];
  }

  /** Midway through inserting the element at `j`: every other pair up to
      `i` is in order and everything between `j` and `i` is not older. */
  ghost predicate Inserting(s: seq<Article>, i: int, j: int) {
    && 0 <= j <= i < |s|
    && (forall p, q :: 0 <= p < q <= i && p != j && q != j ==> s[p].createdAt <= s[q].createdAt)
    && (forall q :: j < q <= i ==> s[j].createdAt <= s[q].createdAt)
  }

  lemma SwapDown(s: seq<Article>, i: int, j: int)
    requires Inserting(s, i, j) && j > 0 && s[j - 1].createdAt > s[j].createdAt
    ensures Inserting(s[j - 1 := s[j]][j := s[j - 1]], i, j - 1)
    ensures multiset(s[j - 1 := s[j]][j := s[j - 1]]) == multiset(s)
  {
    SwapOrders(s, i, j);
    var t := s[j - 1 := s[j]][j := s[j - 1]];
    assert t == s[..j - 1] + [s[j], s[j - 1]] + s[j + 1..];
    assert s == s[..j - 1] + [s[j - 1], s[j]] + s[j + 1..];
  }

  lemma SwapOrders(s: seq<Article>, i: int, j: int)
    requires Inserting(s, i, j) && j > 0 && s[j - 1].createdAt > s[j].createdAt
    ensures Inserting(s[j - 1 := s[j]][j := s[j - 1]], i, j - 1)
  {
    var t := s[j - 1 := s[j]][j := s[j - 1]];
    forall p, q | 0 <= p < q <= i && p != j - 1 && q != j - 1
      ensures t[p].createdAt <= t[q].createdAt
    {
      if p == j {
        assert t[p] == s[j - 1] && t[q] == s[q];
      } else if q == j {
        assert t[p] == s[p] && t[q] == s[j - 1];
      } else {
        assert t[p] == s[p] && t[q] == s[q];
      }
    }
    forall q | j - 1 < q <= i ensures t[j - 1].createdAt <= t[q].createdAt {
      if q > j {
        assert t[j - 1] == s[j] && t[q] == s[q];
      }
    }
  }

  /** One insertion step: the element at `i` moves left past every newer
      one. */
  method InsertByCreation(a: array<Article>, i: int)
    requires 0 <= i < a.Length && SortedByCreation(a[..i])
    modifies a
    ensures SortedByCreation(a[..i + 1])
    ensures multiset(a[..]) == multiset(old(a[..]))
  {
    var j := i;
    assert Inserting(a[..], i, j) by {
      assert forall p :: 0 <= p < i ==> a[..i][p] == a[p];
    }
    while j > 0 && a[j - 1].createdAt > a[j].createdAt
      invariant Inserting(a[..], i, j)
      invariant multiset(a[..]) == multiset(old(a[..]))
    {
      SwapDown(a[..], i, j);
      a[j - 1], a[j] := a[j], a[j - 1];
      j := j - 1;
    }
    assert Inserting(a[..], i, j) && (j == 0 || a[j - 1].createdAt <= a[j].createdAt);
  }

  class RealWorldApi {
    const sessionManager: SessionManager
    const userDb: UserDbRepository
    const articlesDb: ArticlesDbRepository

    /** NewRealWorldApi: empty repositories. */
    constructor ()
      ensures fresh(sessionManager) && fresh(userDb) && fresh(articlesDb)
      ensures sessionManager.sessions == map[] && userDb.users == map[] && userDb.usersById == map[]
      ensures articlesDb.articles == map[]
    {
      sessionManager := new SessionManager();
      userDb := new UserDbRepository();
      articlesDb := new ArticlesDbRepository();
    }

    /** getAuthenticatedUser. */
    method GetAuthenticatedUser(r: Request) returns (user: Option<User>)
      ensures user == Authenticated(r.authorization, sessionManager.sessions, userDb.usersById)
    {
      var auth := r.authorization;
      if auth == "" {
        return None;
      }
      if !HasPrefix(auth, "Token ") {
        return None;
      }
      var token := auth[|"Token "|..];
      var userId := sessionManager.GetAuthenticatedUser(token);
      user := userDb.GetUserById(userId);
    }

    /** handleUsersRequest / registerUser: a new email gets a user and a
        session; the user carries the session's token and is answered with
        201. */
    method HandleUsersRequest(r: Request, env: Env) returns (out: Result<ApiResponse, ApiError>)
      requires EnvReady(env)
      modifies userDb, sessionManager
      ensures r.httpMethod != "POST" ==> out == Err(BadMethod)
      ensures r.httpMethod == "POST" && r.body.None? ==> out == Err(ApiError(StatusBadRequest, "failed to decode body json"))
      ensures r.httpMethod == "POST" && r.body.Some? && r.body.value.user.email in old(userDb.users) ==>
                out == Err(ApiError(StatusConflict, "user already exists"))
      ensures out.Err? ==> unchanged(userDb, sessionManager)
      ensures out.Ok? ==>
                && r.httpMethod == "POST" && r.body.Some? && r.body.value.user.email !in old(userDb.users)
                && var fields := r.body.value.user;
                   var token := Token(env.random);
                   out.value.code == StatusCreated && out.value.response.UserPayload?
                   && var user := out.value.response.user;
                      && fresh(user)
                      && user.Value() == ZeroUser.(id := env.id, email := fields.email, username := fields.username,
                                                   password := fields.password, createdAt := env.now,
                                                   updatedAt := env.now, token := token)
                      && userDb.users == old(userDb.users)[fields.email := user]
                      && userDb.usersById == old(userDb.usersById)[env.id := user]
                      && sessionManager.sessions == old(sessionManager.sessions)[token := env.id]
    {
      if r.httpMethod != "POST" {
        return Err(BadMethod);
      }
      if r.body.None? {
        return Err(ApiError(StatusBadRequest, "failed to decode body json"));
      }
      var fields := r.body.value.user;
      var taken := userDb.IsUserExists(fields.email);
      if taken {
        return Err(ApiError(StatusConflict, "user already exists"));
      }
      var user := userDb.AddUser(fields.email, fields.username, fields.password, env.id, env.now, env.now);
      var token := sessionManager.AddSession(user.id, env.random);
      user.token := token;
      return Ok(ApiResponse(StatusCreated, UserPayload(user)));
    }

    /** handleLoginRequest / loginUser: the right password adds a session,
        whose token the stored user now carries; earlier sessions stay. */
    method HandleLoginRequest(r: Request, env: Env) returns (out: Result<ApiResponse, ApiError>)
      requires EnvReady(env)
      modifies sessionManager, userDb.users.Values
      ensures r.httpMethod != "POST" ==> out == Err(BadMethod)
      ensures r.httpMethod == "POST" && r.body.None? ==> out == Err(ApiError(StatusBadRequest, "failed to decode body"))
      ensures r.httpMethod == "POST" && r.body.Some? ==>
                var fields := r.body.value.user;
                var found := Lookup(userDb.users, fields.email);
                if found.None? || found.value.password != fields.password then
                  out == Err(Forbidden) && unchanged(sessionManager) && unchanged(userDb.users.Values)
                else
                  var user := found.value;
                  var token := Token(env.random);
                  && out == Ok(ApiResponse(StatusOK, UserPayload(user)))
                  && sessionManager.sessions == old(sessionManager.sessions)[token := user.id]
                  && user.token == token
                  && forall u :: u in userDb.users.Values && u != user ==> unchanged(u)
      ensures out.Err? ==> unchanged(sessionManager) && unchanged(userDb.users.Values)
    {
      if r.httpMethod != "POST" {
        return Err(BadMethod);
      }
      if r.body.None? {
        return Err(ApiError(StatusBadRequest, "failed to decode body"));
      }
      var fields := r.body.value.user;
      var found := userDb.GetUserByEmail(fields.email);
      if found.None? || found.value.password != fields.password {
        return Err(Forbidden);
      }
      var user := found.value;
      var token := sessionManager.AddSession(user.id, env.random);
      user.token := token;
      return Ok(ApiResponse(StatusOK, UserPayload(user)));
    }

    /** handleLogoutRequest / logoutUser: the session of the token stored on
        the caller's user record goes (which need not be the token the
        caller sent). */
    method HandleLogoutRequest(r: Request) returns (out: Result<ApiResponse, ApiError>)
      modifies sessionManager
      ensures r.httpMethod != "POST" ==> out == Err(BadMethod) && unchanged(sessionManager)
      ensures r.httpMethod == "POST" ==>
                match Authenticated(r.authorization, old(sessionManager.sessions), userDb.usersById)
                case None => out == Err(Forbidden) && unchanged(sessionManager)
                case Some(user) =>
                  && out == Ok(ApiResponse(StatusOK, EmptyObject))
                  && sessionManager.sessions == old(sessionManager.sessions) - {user.token}
    {
      if r.httpMethod != "POST" {
        return Err(BadMethod);
      }
      var user := GetAuthenticatedUser(r);
      if user.None? {
        return Err(Forbidden);
      }
      sessionManager.DeleteSession(user.value.token);
      return Ok(ApiResponse(StatusOK, EmptyObject));
    }

    /** handleUserRequest: GET answers the caller, PUT updates the caller's
        email and bio, anything else is a bad method. */
    method HandleUserRequest(r: Request, env: Env) returns (out: Result<ApiResponse, ApiError>)
      modifies userDb, sessionManager
      ensures r.httpMethod !in {"GET", "PUT"} ==> out == Err(BadMethod)
      ensures r.httpMethod == "GET" ==>
                match Authenticated(r.authorization, sessionManager.sessions, userDb.usersById)
                case None => out == Err(Forbidden)
                case Some(user) => out == Ok(ApiResponse(StatusOK, UserPayload(user)))
      ensures r.httpMethod != "PUT" ==> unchanged(userDb, sessionManager)
      ensures r.httpMethod == "PUT" ==>
                match Authenticated(r.authorization, old(sessionManager.sessions), old(userDb.usersById))
                case None => out == Err(Forbidden) && unchanged(userDb, sessionManager)
                case Some(current) =>
                  if r.body.None? then
                    out == Err(ApiError(StatusBadRequest, "failed to parse body")) && unchanged(userDb, sessionManager)
                  else
                    && out.Ok? && out.value.code == StatusOK && out.value.response.UserPayload?
                    && var updated := out.value.response.user;
                       && fresh(updated)
                       && updated.Value() == current.Value().(email := r.body.value.user.email,
                                                              bio := r.body.value.user.bio, updatedAt := env.now)
                       && userDb.users == Reindex(old(userDb.users), current.email, updated.email, updated)
                       && userDb.usersById == Reindex(old(userDb.usersById), current.id, updated.id, updated)
                       && sessionManager.sessions == old(sessionManager.sessions)[current.token := current.id]
    {
      if r.httpMethod == "GET" {
        var user := GetAuthenticatedUser(r);
        if user.None? {
          return Err(Forbidden);
        }
        return Ok(ApiResponse(StatusOK, UserPayload(user.value)));
      } else if r.httpMethod == "PUT" {
        var current := GetAuthenticatedUser(r);
        if current.None? {
          return Err(Forbidden);
        }
        if r.body.None? {
          return Err(ApiError(StatusBadRequest, "failed to parse body"));
        }
        var fields := r.body.value.user;
        var currUser := current.value;
        var updated := new User(currUser.Value().(email := fields.email, bio := fields.bio, updatedAt := env.now));
        userDb.UpdateUser(currUser, updated);
        sessionManager.UpdateSession(updated.token, updated.id);
        return Ok(ApiResponse(StatusOK, UserPayload(updated)));
      }
      return Err(BadMethod);
    }

    /** handleArticlesRequest: POST creates an article by the caller, GET
        lists the articles that match the query, oldest first. */
    method HandleArticlesRequest(r: Request, env: Env) returns (out: Result<ApiResponse, ApiError>, ghost order: seq<string>)
      modifies articlesDb
      ensures r.httpMethod !in {"GET", "POST"} ==> out == Err(BadMethod)
      ensures r.httpMethod != "POST" ==> unchanged(articlesDb)
      ensures r.httpMethod == "POST" ==>
                match Authenticated(r.authorization, sessionManager.sessions, userDb.usersById)
                case None => out == Err(Forbidden) && unchanged(articlesDb)
                case Some(user) =>
                  if r.body.None? then
                    out == Err(ApiError(StatusBadRequest, "failed to parse body")) && unchanged(articlesDb)
                  else
                    var f := r.body.value.article;
                    var article := NewArticle(f.title, f.description, f.body, f.tagList, user.Value(), env.now);
                    && out == Ok(ApiResponse(StatusCreated, ArticlePayload(article)))
                    && articlesDb.articles == old(articlesDb.articles)[article.slug := article]
      ensures r.httpMethod == "GET" ==>
                && Enumerates(order, articlesDb.articles.Keys)
                && out.Ok? && out.value.code == StatusOK && out.value.response.ArticlesPayload?
                && var listed := out.value.response.articles;
                   && out.value.response.articlesCount == |listed|
                   && SortedByCreation(listed)
                   && multiset(listed) == multiset(Selected(articlesDb.articles, order, Get(r.query, "author"), Get(r.query, "tag")))
    {
      order := [];
      if r.httpMethod == "GET" {
        var author := Get(r.query, "author");
        var tag := Get(r.query, "tag");
        var list;
        list, order := articlesDb.GetArticles(author, tag);
        var buffer := new Article[|list|](i requires 0 <= i < |list| => list[i]);
        assert buffer[..] == list;
        SortByCreation(buffer);
        return Ok(ApiResponse(StatusOK, ArticlesPayload(buffer[..], buffer.Length))), order;
      } else if r.httpMethod == "POST" {
        var user := GetAuthenticatedUser(r);
        if user.None? {
          return Err(Forbidden), order;
        }
        if r.body.None? {
          return Err(ApiError(StatusBadRequest, "failed to parse body")), order;
        }
        var f := r.body.value.article;
        var article := articlesDb.AddArticle(f.title, f.description, f.body, f.tagList, user.value.Value(), env.now);
        return Ok(ApiResponse(StatusCreated, ArticlePayload(article))), order;
      }
      return Err(BadMethod), order;
    }

    /** ServeHTTP: the path picks the handler; an unknown path is a 404
        "unknown endpoint", a method the endpoint does not take is a 400
        "bad method", and the handler's result is written as Write says. */
    method ServeHTTP(r: Request, env: Env) returns (reply: Reply, out: Result<ApiResponse, ApiError>)
      requires EnvReady(env)
      modifies userDb, sessionManager, articlesDb, userDb.users.Values
      ensures reply == Written(out)
      ensures Route(r.path) == Unknown ==> out == Err(ApiError(StatusNotFound, "unknown endpoint"))
      ensures Route(r.path) != Unknown && !Accepts(Route(r.path), r.httpMethod) ==> out == Err(BadMethod)
      ensures Route(r.path) == Unknown || !Accepts(Route(r.path), r.httpMethod) ==>
                unchanged(userDb, sessionManager, articlesDb) && unchanged(userDb.users.Values)
    {
      var endpoint := Route(r.path);
      ghost var order: seq<string>;
      match endpoint {
        case Users => out := HandleUsersRequest(r, env);
        case Login => out := HandleLoginRequest(r, env);
        case CurrentUser => out := HandleUserRequest(r, env);
        case Logout => out := HandleLogoutRequest(r);
        case Articles => out, order := HandleArticlesRequest(r, env);
        case Unknown => out := Err(ApiError(StatusNotFound, "unknown endpoint"));
      }
      match out {
        case Ok(o) => reply := Write(Some(o), None);
        case Err(e) => reply := Write(None, Some(Api(e)));
      }
    }
  }
}
