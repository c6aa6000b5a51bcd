// The user-search HTTP server: it checks the access token, parses the query
// parameters, keeps the users whose name or description contains the query,
// sorts them by the requested field and returns one offset/limit window.
module SearchServer {
  import opened Outcomes
  import opened GoStrings
  import opened GoStrconv
  import opened SearchApi

  const AccessTokenCorrect: string := "accessToken"

  const StatusOK: int := 200
  const StatusBadRequest: int := 400
  const StatusUnauthorized: int := 401

  // ---------------------------------------------------------------------
  // parseSearchRequest

  /** One integer parameter: absent or empty reads as 0, text that Atoi
      refuses is an error naming the parameter and quoting Atoi's error. */
  function IntParam(params: Params, key: string): (r: Result<int, string>)
  {
    var text := Get(params, key);
    if |text| == 0 then Ok(0)
    else match Atoi(text)
      case None => Err(ConvertError(key, text))
      case Some(n) => Ok(n)
  }

  /** The error for a parameter that is not an integer: the %v of Atoi's
      error follows the message after a space. */
  function ConvertError(key: string, text: string): string {
    "cant convert " + key + " value to int " + AtoiError(text)
  }

  /** parseSearchRequest: limit, offset and order_by in that order, then the
      query and the order field as given. */
  function ParseSearchRequest(params: Params): (r: Result<SearchRequest, string>)
    ensures r.Ok? ==> r.value.query == Get(params, "query") && r.value.orderField == Get(params, "order_field")
  {
    match IntParam(params, "limit")
    case Err(m) => Err(m)
    case Ok(limit) =>
      match IntParam(params, "offset")
      case Err(m) => Err(m)
      case Ok(offset) =>
        match IntParam(params, "order_by")
        case Err(m) => Err(m)
        case Ok(orderBy) => Ok(SearchRequest(limit, offset, Get(params, "query"), Get(params, "order_field"), orderBy))
  }

  /** A parameter that is absent, or empty, reads as zero; the text ones read
      as "" when absent. */
  lemma ParseDefaults(params: Params)
    requires "limit" !in params && "offset" !in params && "order_by" !in params
    ensures ParseSearchRequest(params) == Ok(SearchRequest(0, 0, Get(params, "query"), Get(params, "order_field"), 0))
  {
  }

  /** A limit that is present, non-empty and not an integer is refused,
      whatever the other parameters say: it is checked first. */
  lemma ParseRejectsLimit(params: Params)
    requires "limit" in params && |params["limit"]| > 0 && Atoi(params["limit"]).None?
    ensures ParseSearchRequest(params) == Err(ConvertError("limit", params["limit"]))
  {
  }

  /** limit=abc: the message carries Atoi's complaint about "abc". */
  lemma ParseRejectsWord(params: Params)
    requires "limit" in params && params["limit"] == "abc"
    ensures ParseSearchRequest(params) == Err(ConvertError("limit", "abc"))
    ensures AtoiError("abc") == "strconv.Atoi: parsing " + "\"abc\"" + ": " + "invalid syntax"
  {
    AtoiRejects("abc", 1);
    assert !IsDigit("abc"[0]) && !OutOfRange("abc");
    QuotePlain("abc");
  }

  /** A limit of more than 2^64-1 in digits followed by junk is refused
      with Atoi's "value out of range", not "invalid syntax": Atoi meets the
      overflow before the junk. */
  lemma ParseRejectsOverflow(params: Params, n: nat, c: char, rest: string)
    requires n > MaxUint64 && !IsDigit(c)
    requires "limit" in params && params["limit"] == Digits(n) + [c] + rest
    ensures ParseSearchRequest(params) == Err(ConvertError("limit", params["limit"]))
    ensures ConvertError("limit", params["limit"])
            == "cant convert limit value to int " + "strconv.Atoi: parsing " + Quote(params["limit"]) + ": " + "value out of range"
  {
    OverflowBeforeJunk(n, c, rest);
  }

  /** Printing the numbers of a request and parsing them back gives the
      request: the server reads what a client sends. */
  lemma ParseEncoded(req: SearchRequest)
    requires InIntRange(req.limit) && InIntRange(req.offset) && InIntRange(req.orderBy)
    ensures ParseSearchRequest(Encoded(req)) == Ok(req)
  {
    AtoiItoa(req.limit);
    AtoiItoa(req.offset);
    AtoiItoa(req.orderBy);
  }

  /** The parameters the search client puts in its URL. */
  function Encoded(req: SearchRequest): (params: Params)
    ensures params.Keys == {"limit", "offset", "query", "order_field", "order_by"}
  {
    map["limit" := Itoa(req.limit), "offset" := Itoa(req.offset), "query" := req.query,
        "order_field" := req.orderField, "order_by" := Itoa(req.orderBy)]
  }

  // ---------------------------------------------------------------------
  // The order-field check

  /** The order-field check as search_server.go:89 writes it: a non-empty
      field is refused when it IS one of Id, Age and Name. */
  predicate RejectsOrderFieldAsWritten(orderField: string) {
    |orderField| != 0 && orderField in ValidOrderFieldValues
  }

  /** The check as the client and its tests expect it: a non-empty field is
      refused when it is NOT one of Id, Age and Name. */
  predicate RejectsOrderField(orderField: string) {
    |orderField| != 0 && orderField !in ValidOrderFieldValues
  }

  /** The fields the comparator knows: the empty field sorts by name. */
  predicate KnownOrderField(orderField: string) {
    orderField == OrderFieldName || |orderField| == 0 || orderField == OrderFieldId || orderField == OrderFieldAge
  }

  /** As written, the documented field "Name" is refused, while an unknown
      field such as "LastName" passes and reaches the comparator's fallback,
      which calls every pair out of order. */
  lemma OrderFieldCheckInverted(a: User, b: User)
    ensures RejectsOrderFieldAsWritten(OrderFieldName)
    ensures !RejectsOrderFieldAsWritten("LastName") && !KnownOrderField("LastName")
    ensures Compare(a, b, "LastName", OrderByAsc) < 0 && Compare(b, a, "LastName", OrderByAsc) < 0
  {
    assert ValidOrderFieldValues[2] == OrderFieldName;
    assert "LastName" != OrderFieldId && "LastName" != OrderFieldAge && "LastName" != OrderFieldName by {
      assert "LastName"[0] == 'L';
    }
  }

  /** With the check corrected, a field gets through exactly when the
      comparator knows it, so every accepted sort uses a consistent order. */
  lemma OrderFieldCheckCorrected(orderField: string)
    ensures !RejectsOrderField(orderField) <==> KnownOrderField(orderField)
  {
    assert ValidOrderFieldValues == [OrderFieldId, OrderFieldAge, OrderFieldName];
    if orderField in ValidOrderFieldValues {
      var k :| 0 <= k < 3 && ValidOrderFieldValues[k] == orderField;
    }
  }

  // ---------------------------------------------------------------------
  // performSort's comparator

  /** cmp.Compare on strings: byte-wise lexicographic order. */
  function StrCmp(a: string, b: string): (c: int)
    ensures -1 <= c <= 1
  {
    if |a| == 0 && |b| == 0 then 0
    else if |a| == 0 then -1
    else if |b| == 0 then 1
    else if a[0] < b[0] then -1
    else if a[0] > b[0] then 1
    else StrCmp(a[1..], b[1..])
  }

  /** cmp.Compare on integers. */
  function IntCmp(x: int, y: int): (c: int)
    ensures c < 0 <==> x < y
    ensures c == 0 <==> x == y
    ensures -1 <= c <= 1
  {
    if x < y then -1 else if x > y then 1 else 0
  }

  /** Swapping the arguments negates the string comparison. */
  lemma {:induction false} StrCmpAntisymmetric(a: string, b: string)
    ensures StrCmp(a, b) == -StrCmp(b, a)
    decreases |a|
  {
    if |a| > 0 && |b| > 0 && a[0] == b[0] {
      StrCmpAntisymmetric(a[1..], b[1..]);
    }
  }

  /** Two strings compare equal exactly when they are equal. */
  lemma {:induction false} StrCmpZero(a: string, b: string)
    ensures StrCmp(a, b) == 0 <==> a == b
    decreases |a|
  {
    if |a| > 0 && |b| > 0 && a[0] == b[0] {
      StrCmpZero(a[1..], b[1..]);
      assert a == [a[0]] + a[1..] && b == [b[0]] + b[1..];
    }
  }

  /** "Not after" is transitive on strings. */
  lemma {:induction false} StrCmpTransitive(a: string, b: string, c: string)
    requires StrCmp(a, b) <= 0 && StrCmp(b, c) <= 0
    ensures StrCmp(a, c) <= 0
    decreases |a|
  {
    if |a| > 0 && |b| > 0 && |c| > 0 && a[0] == b[0] == c[0] {
      StrCmpTransitive(a[1..], b[1..], c[1..]);
    }
  }

  /** The comparison of two users on a known field, before the direction. */
  function FieldCompare(a: User, b: User, orderField: string): (c: int)
    ensures -1 <= c <= 1
  {
    if orderField == OrderFieldName || |orderField| == 0 then StrCmp(a.name, b.name)
    else if orderField == OrderFieldId then IntCmp(a.id, b.id)
    else IntCmp(a.age, b.age)
  }

  /** performSort's comparator: the field comparison times the direction; an
      unknown field answers -1 for every pair. */
  function Compare(a: User, b: User, orderField: string, orderBy: int): int {
    if KnownOrderField(orderField) then orderBy * FieldCompare(a, b, orderField) else -1
  }

  /** `a` may stand before `b`. */
  predicate Le(a: User, b: User, orderField: string, orderBy: int) {
    Compare(a, b, orderField, orderBy) <= 0
  }

  /** Sorted in the comparator's order (for an unknown field every order
      counts as sorted, since no pair compares as out of order). */
  predicate SortedBy(s: seq<User>, orderField: string, orderBy: int) {
    forall i, j :: 0 <= i < j < |s| ==> Le(s[i], s[j], orderField, orderBy)
  }

  lemma ScaledSign(d: int, c: int)
    requires -1 <= c <= 1
    ensures d * c <= 0 <==> d == 0 || c == 0 || (d > 0) != (c > 0)
  {
    if c == 1 {
      assert d * c == d;
    } else if c == -1 {
      assert d * c == -d;
    }
  }

  lemma FieldCompareAntisymmetric(a: User, b: User, orderField: string)
    ensures FieldCompare(a, b, orderField) == -FieldCompare(b, a, orderField)
  {
    StrCmpAntisymmetric(a.name, b.name);
  }

  /** Any two users can be put in some order. */
  lemma LeTotal(a: User, b: User, orderField: string, orderBy: int)
    ensures Le(a, b, orderField, orderBy) || Le(b, a, orderField, orderBy)
  {
    if KnownOrderField(orderField) {
      FieldCompareAntisymmetric(a, b, orderField);
      ScaledSign(orderBy, FieldCompare(a, b, orderField));
      ScaledSign(orderBy, FieldCompare(b, a, orderField));
    }
  }

  /** The comparator's "may stand before" is transitive. */
  lemma LeTransitive(a: User, b: User, c: User, orderField: string, orderBy: int)
    requires Le(a, b, orderField, orderBy) && Le(b, c, orderField, orderBy)
    ensures Le(a, c, orderField, orderBy)
  {
    if KnownOrderField(orderField) {
      var ab, bc, ac := FieldCompare(a, b, orderField), FieldCompare(b, c, orderField), FieldCompare(a, c, orderField);
      ScaledSign(orderBy, ab);
      ScaledSign(orderBy, bc);
      ScaledSign(orderBy, ac);
      FieldCompareAntisymmetric(a, b, orderField);
      FieldCompareAntisymmetric(b, c, orderField);
      FieldCompareAntisymmetric(a, c, orderField);
      if orderField == OrderFieldName || |orderField| == 0 {
        if orderBy > 0 {
          StrCmpTransitive(a.name, b.name, c.name);
        } else if orderBy < 0 {
          StrCmpTransitive(c.name, b.name, a.name);
        }
      }
    }
  }

  /** Descending order is ascending order read backwards. */
  lemma DescendingIsReversedAscending(s: seq<User>, orderField: string)
    requires KnownOrderField(orderField)
    ensures SortedBy(s, orderField, OrderByDesc) <==> SortedBy(Reversed(s), orderField, OrderByAsc)
  {
    var r := Reversed(s);
    forall a, b ensures Le(a, b, orderField, OrderByDesc) <==> Le(b, a, orderField, OrderByAsc) {
      FieldCompareAntisymmetric(a, b, orderField);
    }
    if SortedBy(s, orderField, OrderByDesc) {
      forall i, j | 0 <= i < j < |r| ensures Le(r[i], r[j], orderField, OrderByAsc) {
        assert r[i] == s[|s| - 1 - i] && r[j] == s[|s| - 1 - j];
      }
    }
    if SortedBy(r, orderField, OrderByAsc) {
      forall i, j | 0 <= i < j < |s| ensures Le(s[i], s[j], orderField, OrderByDesc) {
        assert s[i] == r[|s| - 1 - i] && s[j] == r[|s| - 1 - j];
      }
    }
  }

  function Reversed(s: seq<User>): (r: seq<User>)
    ensures |r| == |s| && forall i :: 0 <= i < |s| ==> r[i] == s[|s| - 1 - i]
  {
    if |s| == 0 then [] else Reversed(s[1..]) + [s[0]]
  }

  /** performSort: sorts the slice in place by the comparator; the users are
      only rearranged. */
  method PerformSort(users: array<User>, orderField: string, orderBy: int)
    modifies users
    ensures SortedBy(users[..], orderField, orderBy)
    ensures multiset(users[..]) == multiset(old(users[..]))
  {
    var i := 0;
    while i < users.Length
      invariant 0 <= i <= users.Length
      invariant SortedBy(users[..i], orderField, orderBy)
      invariant multiset(users[..]) == multiset(old(users[..]))
    {
      InsertAt(users, i, orderField, orderBy);
      i := i + 1;
    }
    assert users[..i] == users[..];
  }

  /** Partway through an insertion: the element at `j` is the one being
      inserted, every other pair up to `i` is in order, and everything
      between `j` and `i` may stand after it. */
  ghost predicate Inserting(s: seq<User>, i: int, j: int, orderField: string, orderBy: int) {
    && 0 <= j <= i < |s|
    && (forall p, q :: 0 <= p < q <= i && p != j && q != j ==> Le(s[p], s[q], orderField, orderBy))
    && (forall q :: j < q <= i ==> Le(s[j], s[q], orderField, orderBy))
  }

  /** Swapping the inserted element with a predecessor that belongs after it
      keeps the insertion invariant one place further left. */
  lemma SwapDown(s: seq<User>, i: int, j: int, orderField: string, orderBy: int)
    requires Inserting(s, i, j, orderField, orderBy) && j > 0
    requires Compare(s[j - 1], s[j], orderField, orderBy) > 0
    ensures Inserting(s[j - 1 := s[j]][j := s[j - 1]], i, j - 1, orderField, orderBy)
  {
    var t := s[j - 1 := s[j]][j := s[j - 1]];
    assert Le(t[j - 1], t[j], orderField, orderBy) by {
      LeTotal(s[j - 1], s[j], orderField, orderBy);
    }
    forall p, q | 0 <= p < q <= i && p != j - 1 && q != j - 1
      ensures Le(t[p], t[q], orderField, orderBy)
    {
      if p == j {
        assert t[p] == s[j - 1] && t[q] == s[q];
      } else if q == j {
        assert t[p] == s[p] && t[q] == s[j - 1];
      } else {
        assert t[p] == s[p] && t[q] == s[q];
      }
    }
    forall q | j - 1 < q <= i ensures Le(t[j - 1], t[q], orderField, orderBy) {
      if q > j {
        assert t[j - 1] == s[j] && t[q] == s[q];
      }
    }
  }

  /** Swapping two neighbours rearranges a sequence without changing it as a
      multiset. */
  lemma SwapKeepsElements(s: seq<User>, j: int)
    requires 0 < j < |s|
    ensures multiset(s[j - 1 := s[j]][j := s[j - 1]]) == multiset(s)
  {
    var t := s[j - 1 := s[j]][j := s[j - 1]];
    assert t == s[..j - 1] + [s[j], s[j - 1]] + s[j + 1..];
    assert s == s[..j - 1] + [s[j - 1], s[j]] + s[j + 1..];
  }

  /** An insertion that stops (at the front, or behind an element that may
      stand before the inserted one) leaves the first i + 1 elements sorted. */
  lemma InsertionDone(s: seq<User>, i: int, j: int, orderField: string, orderBy: int)
    requires Inserting(s, i, j, orderField, orderBy)
    requires j == 0 || Compare(s[j - 1], s[j], orderField, orderBy) <= 0
    ensures SortedBy(s[..i + 1], orderField, orderBy)
  {
    forall p, q | 0 <= p < q <= i ensures Le(s[p], s[q], orderField, orderBy) {
      if q == j && p < j - 1 {
        LeTransitive(s[p], s[j - 1], s[j], orderField, orderBy);
      }
    }
  }

  /** One insertion step: the element at `i` moves left past every element
      that the comparator puts after it. */
  method InsertAt(a: array<User>, i: int, orderField: string, orderBy: int)
    requires 0 <= i < a.Length && SortedBy(a[..i], orderField, orderBy)
    modifies a
    ensures SortedBy(a[..i + 1], orderField, orderBy)
    ensures multiset(a[..]) == multiset(old(a[..]))
  {
    var j := i;
    assert Inserting(a[..], i, j, orderField, orderBy) by {
      assert forall p :: 0 <= p < i ==> a[..i][p] == a[p];
    }
    while j > 0 && Compare(a[j - 1], a[j], orderField, orderBy) > 0
      invariant Inserting(a[..], i, j, orderField, orderBy)
      invariant multiset(a[..]) == multiset(old(a[..]))
    {
      SwapDown(a[..], i, j, orderField, orderBy);
      SwapKeepsElements(a[..], j);
      a[j - 1], a[j] := a[j], a[j - 1];
      j := j - 1;
    }
    InsertionDone(a[..], i, j, orderField, orderBy);
  }

  // ---------------------------------------------------------------------
  // Filtering and paging

  /** The user's name or description contains the query. */
  predicate Matches(u: User, query: string) {
    Contains(u.name, query) || Contains(u.about, query)
  }

  /** The matching users, in database order. */
  function Filter(usersDb: seq<User>, query: string): seq<User>
  {
    if |usersDb| == 0 then []
    else Filter(usersDb[..|usersDb| - 1], query) +
         (if Matches(usersDb[|usersDb| - 1], query) then [usersDb[|usersDb| - 1]] else [])
  }

  /** The users a query selects: all of them for an empty query. */
  function Matching(usersDb: seq<User>, query: string): seq<User> {
    if |query| == 0 then usersDb else Filter(usersDb, query)
  }

  /** Each user is kept as often as it occurs, if it matches, and dropped
      otherwise. */
  lemma {:induction false} FilterCounts(usersDb: seq<User>, query: string)
    ensures forall u :: multiset(Filter(usersDb, query))[u] == if Matches(u, query) then multiset(usersDb)[u] else 0
    decreases |usersDb|
  {
    if |usersDb| > 0 {
      var init, last := usersDb[..|usersDb| - 1], usersDb[|usersDb| - 1];
      FilterCounts(init, query);
      assert usersDb == init + [last];
    }
  }

  /** An empty query keeps every user in database order; any other query
      keeps exactly the matching users, each as often as it occurs. */
  lemma MatchingMeaning(usersDb: seq<User>, query: string)
    ensures |query| == 0 ==> Matching(usersDb, query) == usersDb
    ensures forall u :: multiset(Matching(usersDb, query))[u] == if Matches(u, query) then multiset(usersDb)[u] else 0
  {
    if |query| == 0 {
      forall u ensures Matches(u, query) {
        ContainsTrivial(u.name);
      }
    } else {
      FilterCounts(usersDb, query);
    }
  }

  /** The loop of SearchServer that collects the matching users. */
  method FilterUsers(usersDb: seq<User>, query: string) returns (queried: seq<User>)
    ensures queried == Matching(usersDb, query)
  {
    if |query| == 0 {
      return usersDb;
    }
    queried := [];
    var i := 0;
    while i < |usersDb|
      invariant 0 <= i <= |usersDb|
      invariant queried == Filter(usersDb[..i], query)
    {
      var user := usersDb[i];
      if Contains(user.name, query) || Contains(user.about, query) {
        queried := queried + [user];
      }
      assert usersDb[..i + 1][..i] == usersDb[..i];
      i := i + 1;
    }
    assert usersDb[..i] == usersDb;
  }

  /** The offset/limit window: empty when the offset is past the end,
      otherwise up to `limit` users starting at `offset`. */
  function Page(s: seq<User>, offset: int, limit: int): (r: seq<User>)
    requires offset >= 0 && limit >= 0
  {
    if offset > |s| - 1 then [] else s[offset..if offset + limit < |s| then offset + limit else |s|]
  }

  /** A page holds min(limit, what is left after the offset) users, each at
      its place in the full list. */
  lemma PageMeaning(s: seq<User>, offset: int, limit: int)
    requires offset >= 0 && limit >= 0
    ensures |Page(s, offset, limit)| <= limit
    ensures |Page(s, offset, limit)| == if |s| - offset < 0 then 0 else if limit < |s| - offset then limit else |s| - offset
    ensures forall k :: 0 <= k < |Page(s, offset, limit)| ==> Page(s, offset, limit)[k] == s[offset + k]
  {
  }

  /** Consecutive windows tile the list: a page of a + b users is the page
      of a users followed by the next page of b users. */
  lemma PagesTile(s: seq<User>, offset: int, a: int, b: int)
    requires offset >= 0 && a >= 0 && b >= 0
    ensures Page(s, offset, a + b) == Page(s, offset, a) + Page(s, offset + a, b)
  {
  }

  // ---------------------------------------------------------------------
  // SearchServer

  /** The answers SearchServer gives before it looks at the users: a wrong
      token, unparsable parameters, an unknown order field, a direction
      outside -1..1. The order-field check is the corrected one. */
  function Refusal(accessToken: string, params: Params): (r: Option<Reply>)
    ensures accessToken != AccessTokenCorrect ==> r == Some(Reply(StatusUnauthorized, ErrorJson("Unauthorized")))
  {
    if accessToken != AccessTokenCorrect then Some(Reply(StatusUnauthorized, ErrorJson("Unauthorized")))
    else match ParseSearchRequest(params)
      case Err(m) => Some(Reply(StatusBadRequest, ErrorJson("Failed to parse search request " + m)))
      case Ok(req) =>
        if RejectsOrderField(req.orderField) then Some(Reply(StatusBadRequest, ErrorJson(ErrorBadOrderField)))
        else if req.orderBy < -1 || req.orderBy > 1 then Some(Reply(StatusBadRequest, ErrorJson(ErrorBadOrderBy)))
        else None
  }

  /** A refusal is a 401 for a bad token and a 400 otherwise; a request that
      is not refused parsed, names a known field and a direction in -1..1. */
  lemma RefusalMeaning(accessToken: string, params: Params)
    ensures Refusal(accessToken, params).Some? ==>
              Refusal(accessToken, params).value.status == (if accessToken != AccessTokenCorrect then StatusUnauthorized else StatusBadRequest)
    ensures Refusal(accessToken, params).None? <==>
              && accessToken == AccessTokenCorrect
              && ParseSearchRequest(params).Ok?
              && KnownOrderField(ParseSearchRequest(params).value.orderField)
              && -1 <= ParseSearchRequest(params).value.orderBy <= 1
  {
    if ParseSearchRequest(params).Ok? {
      OrderFieldCheckCorrected(ParseSearchRequest(params).value.orderField);
    }
  }

  /** The server goes on past its limit and offset checks after writing the
      400: a negative offset then panics in the slicing, and so does a
      negative limit unless the offset lies past the matches, when "[]" is
      written after the error body. Callers keep both at or above zero. */
  predicate NonNegativePaging(params: Params) {
    ParseSearchRequest(params).Ok? ==> ParseSearchRequest(params).value.limit >= 0 && ParseSearchRequest(params).value.offset >= 0
  }

  /** A successful answer: `ordered` is the matching users, rearranged into
      the requested order (database order when no order is asked for), and
      the reply is its window. */
  ghost predicate Served(usersDb: seq<User>, req: SearchRequest, ordered: seq<User>, reply: Reply)
    requires req.offset >= 0 && req.limit >= 0
  {
    && multiset(ordered) == multiset(Matching(usersDb, req.query))
    && (req.orderBy == OrderByAsIs ==> ordered == Matching(usersDb, req.query))
    && SortedBy(ordered, req.orderField, req.orderBy)
    && reply == Reply(StatusOK, UsersJson(Page(ordered, req.offset, req.limit)))
  }

  /** Every user of a successful answer is a matching user of the database;
      there are min(limit, matches after the offset) of them, in the
      requested order. */
  lemma ServedMeaning(usersDb: seq<User>, req: SearchRequest, ordered: seq<User>, reply: Reply)
    requires req.offset >= 0 && req.limit >= 0 && Served(usersDb, req, ordered, reply)
    ensures reply.status == StatusOK && reply.body.UsersJson?
    ensures forall u :: u in reply.body.users ==> u in usersDb && (|req.query| == 0 || Matches(u, req.query))
    ensures var n := |Matching(usersDb, req.query)| - req.offset;
            |reply.body.users| == if n < 0 then 0 else if req.limit < n then req.limit else n
    ensures SortedBy(reply.body.users, req.orderField, req.orderBy)
  {
    var page := reply.body.users;
    PageMeaning(ordered, req.offset, req.limit);
    MatchingMeaning(usersDb, req.query);
    assert |ordered| == |Matching(usersDb, req.query)| by {
      assert |multiset(ordered)| == |multiset(Matching(usersDb, req.query))|;
    }
    PageWithin(ordered, req.offset, req.limit);
    forall u | u in page ensures u in usersDb && (|req.query| == 0 || Matches(u, req.query)) {
      assert multiset(Matching(usersDb, req.query))[u] > 0;
    }
    PageSorted(ordered, req.offset, req.limit, req.orderField, req.orderBy);
  }

  /** A page holds only users of the list it is cut from. */
  lemma PageWithin(s: seq<User>, offset: int, limit: int)
    requires offset >= 0 && limit >= 0
    ensures forall u :: u in Page(s, offset, limit) ==> u in multiset(s)
  {
    PageMeaning(s, offset, limit);
    forall u | u in Page(s, offset, limit) ensures u in multiset(s) {
      var k :| 0 <= k < |Page(s, offset, limit)| && Page(s, offset, limit)[k] == u;
      assert s[offset + k] == u;
    }
  }

  /** A page of a sorted list is sorted. */
  lemma PageSorted(s: seq<User>, offset: int, limit: int, orderField: string, orderBy: int)
    requires offset >= 0 && limit >= 0 && SortedBy(s, orderField, orderBy)
    ensures SortedBy(Page(s, offset, limit), orderField, orderBy)
  {
    PageMeaning(s, offset, limit);
    var page := Page(s, offset, limit);
    forall i, j | 0 <= i < j < |page| ensures Le(page[i], page[j], orderField, orderBy) {
      assert page[i] == s[offset + i] && page[j] == s[offset + j];
    }
  }

  /** SearchServer for a token, the URL's query parameters and the loaded
      user database. */
  method Search(accessToken: string, params: Params, usersDb: seq<User>) returns (reply: Reply, ghost ordered: seq<User>)
    requires Refusal(accessToken, params).None? ==> NonNegativePaging(params)
    ensures Refusal(accessToken, params).Some? ==> reply == Refusal(accessToken, params).value
    ensures Refusal(accessToken, params).None? ==>
              var req := ParseSearchRequest(params).value;
              req.limit >= 0 && req.offset >= 0 && Served(usersDb, req, ordered, reply)
  {
    if accessToken != AccessTokenCorrect {
      return Reply(StatusUnauthorized, ErrorJson("Unauthorized")), [];
    }
    var parsed := ParseSearchRequest(params);
    if parsed.Err? {
      return Reply(StatusBadRequest, ErrorJson("Failed to parse search request " + parsed.error)), [];
    }
    var req := parsed.value;
    if RejectsOrderField(req.orderField) {
      return Reply(StatusBadRequest, ErrorJson(ErrorBadOrderField)), [];
    }
    if req.orderBy < -1 || req.orderBy > 1 {
      return Reply(StatusBadRequest, ErrorJson(ErrorBadOrderBy)), [];
    }
    var queried := FilterUsers(usersDb, req.query);
    if req.orderBy != OrderByAsIs {
      var buffer := new User[|queried|](k requires 0 <= k < |queried| => queried[k]);
      assert buffer[..] == queried;
      PerformSort(buffer, req.orderField, req.orderBy);
      queried := buffer[..];
    }
    ordered := queried;
    var result: seq<User>;
    var from := req.offset;
    if from > |queried| - 1 {
      result := [];
    } else {
      var to := if req.offset + req.limit < |queried| then req.offset + req.limit else |queried|;
      result := queried[from..to];
    }
    reply := Reply(StatusOK, UsersJson(result));
  }
}
