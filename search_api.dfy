// The types and constants that the user-search client and server share: a
// user record, a search request and the names of the order fields.
module SearchApi {

  /** One row of the user database. */
  datatype User = User(id: int, name: string, age: int, about: string, gender: string)

  /** The client's request; the server parses the same fields from the URL. */
  datatype SearchRequest = SearchRequest(limit: int, offset: int, query: string, orderField: string, orderBy: int)

  /** The client's answer: one page of users and whether another follows. */
  datatype SearchResponse = SearchResponse(users: seq<User>, nextPage: bool)

  const OrderByDesc: int := -1
  const OrderByAsIs: int := 0
  const OrderByAsc: int := 1

  const OrderFieldId: string := "Id"
  const OrderFieldAge: string := "Age"
  const OrderFieldName: string := "Name"

  const ErrorBadOrderField: string := "OrderField invalid"
  const ErrorBadOrderBy: string := "OrderBy invalid"

  const ValidOrderFieldValues: seq<string> := [OrderFieldId, OrderFieldAge, OrderFieldName]

  /** A JSON body as the other side decodes it: an error object, a list of
      users, or text that does not decode (with the decoder's complaint). */
  datatype Body = ErrorJson(error: string) | UsersJson(users: seq<User>) | Undecodable(reason: string)

  /** An HTTP answer: its status code and its body. */
  datatype Reply = Reply(status: int, body: Body)

  /** URL query parameters, one value per key (url.Values.Get reads the first). */
  type Params = map<string, string>

  /** url.Values.Get: the value, or "" when the key is absent. */
  function Get(params: Params, key: string): (v: string)
    ensures key in params ==> v == params[key]
    ensures key !in params ==> v == ""
  {
    if key in params then params[key] else ""
  }
}
