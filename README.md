# Go web-services workbook, modelled in Dafny

The repository is a course workbook of small Go services. This project models the sequential logic of its exercises and proves what each promises. Transport, goroutines, clocks and file I/O are removed.

Each source file has one module:

- **gRPC microservice (7-microservices).**
  - `Acl`: the consumer → service → methods table and its check.
  - `EventBus`: the subscriber registry.
  - `StatCollector`: the per-method and per-consumer counters.
  - `Middleware`: the interceptor that publishes each call and then authorizes it.
  - `AdminService`: the Logging and Statistics streams, as processors over an input trace.
  - `GrpcStatus`: the status values.
- **User search (4-networking, 4-test-coverage).**
  - `SearchApi`: the query string.
  - `SearchServer`: parsing, filtering, an in-place sort on an array, and paging.
  - `SearchClient`: request shaping and reply interpretation.
- **GraphQL shop (11-graphql).**
  - `ShopData`: the data, carts and the offset/limit window.
  - `ShopResolver`: the cart mutations and the item fields.
  - `ShopQueries`: the queries, catalog and seller resolvers, and token registration.
- **Text adventure (12-dialog-game).**
  - `GameRules`: the world as a value and every command as a function.
  - `DialogGame`: the players and the game handler as classes whose methods are proved against those functions.
- **Telegram task bot (10-tgbot).**
  - `TaskRules`: the commands and listings.
  - `TaskBotServer`: the bot as a class.
  - `MapIteration`: Go's map iteration, as an explicit order that enumerates the keys.
- **Code generator (5-code-generator).**
  - `ApiGenRules` and `ApiGenParser`: struct-tag and doc-comment parsing.
  - `ApiGenRuntime`: what the generated validators, wrappers and ServeHTTP do.
  - `ApiGenCases`: the messages the generated code answers with.
- **RealWorld API (9-architecture).**
  - `RealWorldText`: slugs, tokens and headers.
  - `RealWorldRepos`: the user, session and article repositories.
  - `RealWorldServer`: the routing and the handlers.
  - `NetUrl`: query lookups.
- **DB explorer (6-db-web-explorer).** `DbExplorer`: query defaults, column classification, body checks and the table and column middlewares.
- **Directory tree (1-basics).**
  - `TreePrinter`: the stack-driven tree walk over an abstract file tree.
  - `Slices`: filter, map and copy.
- **Browser report (3-profiling).** `BrowserReport`: the FastSearch loop over a sequence of decoded lines.
- **Map-to-struct conversion (8-reflection).** `Reflection`: i2s over abstract data and type values, writing through a `Cell` that stands for the pointer.
- **Shared modules.**
  - `Outcomes`: Option and Result.
  - `GoStrings` and `GoStrconv`: the parts of Go's strings and strconv packages the exercises use, with their round trips.

Pure logic is written as functions with lemmas. Code that updates state is written as classes and methods. Each method's `ensures` ties the new state to a specification function, and the lemmas prove the source's promises about that function.

## Model

| member | source | states |
|---|---|---|
| Acl.KnownMethods | 7-microservices/acl/acl_data.go:37-65 | only the admin and business-logic services have a known method list; every other service name is skipped |
| Acl.ConsumerGrants | 7-microservices/acl/acl_data.go:29-66 | the inner loop over one consumer's allowed paths panics iff some path splits into fewer than three parts, and otherwise leaves exactly the grants of the `Grants` specification |
| Acl.NewAclData | 7-microservices/acl/acl_data.go:18-70 | a decoding error is returned unchanged; otherwise it panics iff some allowed path is too short to index at [1] and [2], and else the table holds every consumer with its grants |
| Acl.ShortPathsPanic | 7-microservices/acl/acl_data.go:33-35 | "logger" and "/main.Admin" are too short to index, so NewAclData panics on them |
| Acl.ValidateAcl | 7-microservices/acl/acl_data.go:72-99 | unknown consumer and unknown service fail with their messages; the call passes iff the consumer, the service entry and the exact full method are all present; every failure is Unauthenticated |
| Acl.KnownListsServe | 7-microservices/acl/acl_data.go:37-41 | every path of a known method list names its own service |
| Acl.FullMethodParts | 7-microservices/acl/acl_data.go:33-35 | "/service/method" splits into the service at [1] and the method at [2] |
| Acl.GrantsMeaning | 7-microservices/acl/acl_data.go:32-66 | a service gets an entry iff it is known and named by wildcard or by one of its methods; the entry is the whole known list after a wildcard, else the listed known paths |
| Acl.GrantsOrderIrrelevant | 7-microservices/acl/acl_data.go:32-66 | two path lists with the same elements grant the same services and the same sets of methods |
| Acl.SkippedPathAddsNothing | 7-microservices/acl/acl_data.go:46-64 | a path of an unknown service, or an unknown method of a known one, changes nothing |
| Acl.Authorised | 7-microservices/acl/acl_data.go:18-99 | end to end: a call is allowed iff the consumer is listed, the path is a known method, and the consumer names it or its service's wildcard |
| Acl.EveryConsumerListed | 7-microservices/acl/acl_data.go:28-30 | every consumer key gets an entry, even an empty one, and only the two known services appear in it |
| Acl.BuildTable | 7-microservices/acl/acl_data.go:18-70 | the table NewAclData builds when it does not panic: an entry for exactly the consumers of the input (what each entry holds: EveryConsumerListed and GrantsMeaning) |
| AdminService.LoggingForwardsInOrder | 7-microservices/services/admin_service.go:38-45 | Logging forwards the published events in order, each once, until the first failed send (whose error it returns) or the shutdown (nil); it stays open only if neither happened |
| AdminService.LoggingActionsShape | 7-microservices/services/admin_service.go:35-45 | a Logging stream that has not returned has only received notifications; one that has returned has removed its subscription as its last act |
| AdminService.SubscribedUntilReturn | 7-microservices/services/admin_service.go:35-36 | a stream's subscription exists exactly until it returns (NewSub, then the deferred RemoveSub) |
| AdminService.LoggingUnsubscribes | 7-microservices/services/admin_service.go:35-36 | after a Logging stream ran against a trace, its id is registered iff it has not returned |
| AdminService.ArrivalsAccumulate | 7-microservices/services/admin_service.go:61-63 | arrivals only update the counters: nothing is sent and the stream stays open |
| AdminService.TickReportsWindow | 7-microservices/services/admin_service.go:68-72 | a tick sends the counts of exactly the events that arrived since the previous tick, and counting restarts after it |
| AdminService.StatisticsStops | 7-microservices/services/admin_service.go:61-72 | a failed send ends the stream with its error and a closed queue ends it with nil, whatever arrived before |
| AdminService.SnapshotCounts | 7-microservices/services/admin_service.go:63-69 | each snapshot counts every event of its window once per method and once per consumer; both totals equal the window's length |
| AdminService.StatisticsActionsShape | 7-microservices/services/admin_service.go:52-74 | a Statistics stream that has not returned has only received notifications; one that has returned has removed its subscription last |
| AdminService.StatisticsUnsubscribes | 7-microservices/services/admin_service.go:52-53 | after a Statistics stream ran against a trace, its id is registered iff it has not returned |
| AdminService.Subscribe | 7-microservices/services/admin_service.go:35 | NewSub registers a fresh empty queue under the next id |
| AdminService.NotifyAndReceive | 7-microservices/services/admin_service.go:38 | a published call reaches every subscriber, and the stream's own receive yields exactly that event |
| AdminService.ShutdownAndReceive | 7-microservices/services/admin_service.go:38 | a shutdown closes the queue, the receive reports it closed, and the deferred RemoveSub drops the stream |
| AdminService.LogOne | 7-microservices/services/admin_service.go:38-43 | one step of the Logging loop stops iff the step is not a successfully forwarded event, and changes the registry as the trace says |
| AdminService.ForwardOne | 7-microservices/services/admin_service.go:38-45 | one iteration of the Logging loop keeps the forwarding invariant, or stops with the LoggingRun result |
| AdminService.CountOne | 7-microservices/services/admin_service.go:61-63 | an arriving call is counted and the stream keeps waiting |
| AdminService.TickOne | 7-microservices/services/admin_service.go:68-72 | a tick sends the snapshot of the pending window and resets it; a failed send ends the stream and unsubscribes it |
| AdminService.CloseOne | 7-microservices/services/admin_service.go:61-66 | a closed queue ends the stream with nil and unsubscribes it |
| AdminService.ArriveAt | 7-microservices/services/admin_service.go:61-63 | the arrival step of the Statistics loop keeps the tallying invariant |
| AdminService.TickAt | 7-microservices/services/admin_service.go:68-72 | the tick step of the Statistics loop keeps the invariant, or stops with the StatisticsRun result |
| AdminService.CloseAt | 7-microservices/services/admin_service.go:61-66 | the close step ends the loop with nil and the StatisticsRun result |
| AdminService.StatisticsOne | 7-microservices/services/admin_service.go:59-74 | one iteration of the Statistics select loop keeps the invariant or ends as StatisticsRun says |
| AdminService.AdminService.constructor | 7-microservices/services/admin_service.go:23-29 | the service shares the registry it is given |
| AdminService.AdminService.Logging | 7-microservices/services/admin_service.go:31-46 | Logging sends what LoggingRun says, returns its error, and leaves the registry as LoggingEffect says |
| AdminService.AdminService.ForwardEvents | 7-microservices/services/admin_service.go:38-45 | the Logging loop, once subscribed, meets the LoggingRun specification |
| AdminService.AdminService.Statistics | 7-microservices/services/admin_service.go:48-75 | with a positive interval Statistics sends what StatisticsRun says, returns its error, and leaves the registry as StatisticsEffect says; with an interval of zero or less time.NewTicker panics after NewSub, nothing is sent, and the deferred RemoveSub leaves the queues as they were with one more id used |
| AdminService.TickerPanic | 7-microservices/services/admin_service.go:52-56 | the panic of time.NewTicker unwinds through the deferred RemoveSub: the stream's queue is gone again and every other queue is untouched |
| AdminService.TickerPanicLeavesQueues | 7-microservices/services/admin_service.go:52-56 | NewSub followed by RemoveSub of the id it handed out leaves every queue as it was and only advances the id counter |
| AdminService.AdminService.ForwardStats | 7-microservices/services/admin_service.go:59-74 | the Statistics loop, once subscribed, meets the StatisticsRun specification |
| EventBus.Channel.constructor | 7-microservices/events/event_publisher.go:35 | `make(chan)`: an open channel with nothing sent |
| EventBus.Channel.Send | 7-microservices/events/event_publisher.go:26 | a send appends the event to the channel |
| EventBus.Channel.Close | 7-microservices/events/event_publisher.go:44 | close marks the channel closed |
| EventBus.Channel.Receive | 7-microservices/events/event_publisher.go:26 | a receive yields the oldest pending event, or reports the closed channel once nothing is pending |
| EventBus.Initial | 7-microservices/events/event_publisher.go:14-19 | a new registry has no subscribers |
| EventBus.Subscribed | 7-microservices/events/event_publisher.go:30-37 | NewSub hands out the next id, which is not in use, with an empty queue |
| EventBus.Unsubscribed | 7-microservices/events/event_publisher.go:39-47 | RemoveSub forgets the id and nothing else; an unknown id changes nothing |
| EventBus.Cleared | 7-microservices/events/event_publisher.go:49-53 | RemoveAll leaves no subscriber and keeps the counter |
| EventBus.Published | 7-microservices/events/event_publisher.go:21-28 | Notify appends the event once to every subscribed queue and changes no subscription |
| EventBus.IssuedConsecutively | 7-microservices/events/event_publisher.go:34 | the i-th NewSub of any sequence of operations returns the last id plus i + 1 |
| EventBus.IdsFromOne | 7-microservices/events/event_publisher.go:14-19 | from a new registry the ids handed out are 1, 2, 3, ... |
| EventBus.RunAppend | 7-microservices/events/event_publisher.go:21-53 | running two sequences of operations one after the other is running their concatenation |
| EventBus.NotifiesKeepKeys | 7-microservices/events/event_publisher.go:21-28 | notifications never add or remove a subscription |
| EventBus.LastIdGrows | 7-microservices/events/event_publisher.go:34 | the counter never decreases |
| EventBus.RemovedStaysRemoved | 7-microservices/events/event_publisher.go:34-45 | an id handed out and then removed is never subscribed again |
| EventBus.RemovedUntilEnd | 7-microservices/events/event_publisher.go:34-45 | once removed at some point, an id stays removed to the end of any sequence |
| EventBus.NothingBeforeIssue | 7-microservices/events/event_publisher.go:21-37 | no event is delivered to an id before it is handed out |
| EventBus.Delivery | 7-microservices/events/event_publisher.go:21-37 | a subscribed id's queue holds exactly the events notified while it was subscribed, in order |
| EventBus.EventSubscribersManager.constructor | 7-microservices/events/event_publisher.go:14-19 | the new registry is the initial one |
| EventBus.EventSubscribersManager.NewSub | 7-microservices/events/event_publisher.go:30-37 | NewSub registers a fresh open channel under the next id and returns both, as Subscribed says |
| EventBus.EventSubscribersManager.RemoveSub | 7-microservices/events/event_publisher.go:39-47 | a registered channel is closed and deleted; an unknown id is a no-op |
| EventBus.EventSubscribersManager.Unsubscribe | 7-microservices/events/event_publisher.go:43-46 | the registered branch of RemoveSub closes exactly that channel and deletes its id |
| EventBus.EventSubscribersManager.RemoveAll | 7-microservices/events/event_publisher.go:49-53 | every registered channel is closed, none is left, and nothing pending is lost |
| EventBus.EventSubscribersManager.Notify | 7-microservices/events/event_publisher.go:21-28 | every registered channel gets the event once, and the registry becomes Published |
| EventBus.Step | 7-microservices/events/event_publisher.go:21-53 | one registry operation keeps the registry well formed; only NewSub advances the counter, by one |
| EventBus.Run | 7-microservices/events/event_publisher.go:21-53 | any sequence of operations keeps the registry well formed |
| StatCollector.TallyCounts | 7-microservices/events/stat_collector.go:37-40 | after a run of updates a counter holds exactly the keys seen, each with its number of occurrences |
| StatCollector.SumOfTally | 7-microservices/events/stat_collector.go:37-40 | every update adds exactly one to a counter's total |
| StatCollector.SumsAgree | 7-microservices/events/stat_collector.go:37-40 | between two resets the per-method and per-consumer totals both equal the number of updates |
| StatCollector.MethodKeys | 7-microservices/events/stat_collector.go:39 | the per-method counter has a key for exactly the methods called |
| StatCollector.ConsumerKeys | 7-microservices/events/stat_collector.go:38 | the per-consumer counter has a key for exactly the consumers seen |
| StatCollector.StatCollector.constructor | 7-microservices/events/stat_collector.go:12-17 | a new collector starts from a reset: both counters empty |
| StatCollector.StatCollector.Reset | 7-microservices/events/stat_collector.go:19-24 | Reset installs fresh empty counters |
| StatCollector.StatCollector.Update | 7-microservices/events/stat_collector.go:37-40 | Update adds one to the event's consumer and to its method, a missing key reading as zero |
| StatCollector.StatCollector.Collect | 7-microservices/events/stat_collector.go:26-35 | Collect returns the counts of every update since the last reset, stamped with the time, and then resets |
| StatCollector.CollectTwice | 7-microservices/events/stat_collector.go:26-35 | of two reads with no update between, the first gets every count (keys, multiplicities, totals) and the second empty counters |
| StatCollector.Counted | 7-microservices/events/stat_collector.go:37-40 | a new collector fed the events one Update at a time is valid and has seen exactly those events, in order |
| Middleware.HostOf | 7-microservices/middleware/middleware.go:52-55 | the logged host is the peer's address, or empty when the call has no peer |
| Middleware.CallEvent | 7-microservices/middleware/middleware.go:50-62 | the logged event carries the first consumer value, the full method, the host and the time |
| Middleware.Logged | 7-microservices/middleware/middleware.go:46-62 | a call without a consumer leaves the bus unchanged; any other call is published to every subscriber |
| Middleware.AdmissionMeaning | 7-microservices/middleware/middleware.go:39-70 | a call passes iff it names a consumer and the ACL admits that consumer for the method; every refusal is Unauthenticated, "consumer is empty" when no consumer is named |
| Middleware.AdmissionOnRawAcl | 7-microservices/middleware/middleware.go:39-70 | the same verdict stated on the raw ACL the server was started with |
| Middleware.ServiceMiddleware.constructor | 7-microservices/middleware/middleware.go:22-37 | both interceptors share the given ACL and registry |
| Middleware.ServiceMiddleware.Intercept | 7-microservices/middleware/middleware.go:39-70 | intercept returns the admission verdict and publishes the call iff it names a consumer, even when the ACL then refuses it |
| Middleware.ServiceMiddleware.UnaryInterceptor | 7-microservices/middleware/middleware.go:72-83 | the handler runs iff the call is admitted, and its answer is returned; otherwise nil and the refusal |
| Middleware.ServiceMiddleware.StreamInterceptor | 7-microservices/middleware/middleware.go:85-96 | the stream handler runs iff the call is admitted; otherwise the refusal is returned |
| SearchApi.Get | 4-networking/search_server.go:165-193 | a query parameter reads as its value, or as "" when absent (url.Values.Get) |
| SearchServer.ParseDefaults | 4-networking/search_server.go:160-202 | absent or empty limit, offset and order_by read as 0; query and order_field are taken as given |
| SearchServer.ParseRejectsLimit | 4-networking/search_server.go:165-172 | a limit that is present and not an integer is refused, whatever follows, with "cant convert limit value to int " and the text of Atoi's error |
| SearchServer.ParseRejectsWord | 4-networking/search_server.go:165-172 | limit=abc is refused with "cant convert limit value to int " followed by `strconv.Atoi: parsing "abc": invalid syntax` |
| GoStrconv.AtoiRange | 4-networking/search_server.go:168-171 | digits beyond the 64-bit range are refused by Atoi, whose error quotes them and says "value out of range" |
| GoStrconv.ParseIntDigits | 4-networking/search_server.go:168-171 | on a sign and digits, Atoi's scan gives the signed value of the digits if it fits in 64 bits, and otherwise a range error with the bound on the side of the sign |
| GoStrconv.ParseIntStops | 4-networking/search_server.go:168-171 | on digits followed by a non-digit, the scan is a range error if those digits already exceed 2^64-1, and otherwise a syntax error |
| GoStrconv.OverflowBeforeJunk | 10-tgbot/tgbot/message_handler.go:22-33 | more than 2^64-1 in digits, then junk: Atoi reports a range error and its value is MaxInt64, or MinInt64 after a minus |
| GoStrconv.AtoiItoa | 10-tgbot/tgbot/tasks_handler.go:23-28 | printing a 64-bit integer with %d and reading it back with Atoi gives the integer |
| GoStrconv.AtoiRejects | 4-networking/search_server.go:168-171 | a non-digit after the optional sign makes Atoi fail |
| GoStrconv.AtoiValueRejects | 10-tgbot/tgbot/message_handler.go:22-33 | a non-digit within the first 20 characters is a syntax error, so the ignored-error value is 0 |
| SearchServer.ParseRejectsOverflow | 4-networking/search_server.go:165-172 | limit set to more than 2^64-1 in digits followed by junk is refused with Atoi's "value out of range" text |
| SearchServer.ParseEncoded | 4-networking/search_server.go:160-202 | parsing the parameters the client encodes from a request gives that request back |
| SearchServer.Encoded | 4-test-coverage/client.go:103-107 | the client's URL carries exactly the five parameters limit, offset, query, order_field and order_by |
| SearchServer.OrderFieldCheckInverted | 4-networking/search_server.go:89-92 | as written, the documented field "Name" is refused while an unknown field passes, and the comparator then calls any two users "less" both ways |
| SearchServer.OrderFieldCheckCorrected | 4-networking/search_server.go:89-92 | with the check corrected, a field passes iff the comparator knows it ("", "Id", "Age", "Name") |
| SearchServer.StrCmp | 4-networking/search_server.go:210 | the string comparison is -1, 0 or 1 |
| SearchServer.IntCmp | 4-networking/search_server.go:214-218 | the integer comparison is negative, zero or positive exactly as x < y, x == y, x > y |
| SearchServer.StrCmpAntisymmetric | 4-networking/search_server.go:210 | swapping the arguments negates the string comparison |
| SearchServer.StrCmpZero | 4-networking/search_server.go:210 | two strings compare equal iff they are equal |
| SearchServer.StrCmpTransitive | 4-networking/search_server.go:210 | "not after" is transitive on strings |
| SearchServer.FieldCompare | 4-networking/search_server.go:209-219 | the field comparison is -1, 0 or 1 |
| SearchServer.FieldCompareAntisymmetric | 4-networking/search_server.go:209-219 | swapping two users negates the field comparison |
| SearchServer.LeTotal | 4-networking/search_server.go:207-224 | for a known field and direction any two users can be put in some order |
| SearchServer.LeTransitive | 4-networking/search_server.go:207-224 | the comparator's "may stand before" is transitive |
| SearchServer.DescendingIsReversedAscending | 4-networking/search_server.go:207-224 | sorting by direction -1 is sorting by direction 1 read backwards |
| SearchServer.Reversed | 4-networking/search_server.go:207-224 | the reversed list holds the same users from the back |
| SearchServer.PerformSort | 4-networking/search_server.go:204-226 | performSort leaves the users sorted by the comparator and rearranged, nothing added or lost |
| SearchServer.InsertAt | 4-networking/search_server.go:204-226 | one insertion step extends the sorted prefix by one and keeps the elements |
| SearchServer.FilterCounts | 4-networking/search_server.go:110-116 | the filter keeps each matching user as often as it occurs, in database order, and drops the rest |
| SearchServer.MatchingMeaning | 4-networking/search_server.go:107-116 | an empty query keeps every user in database order; any other query keeps exactly the users whose name or about contains it |
| SearchServer.FilterUsers | 4-networking/search_server.go:104-116 | the collecting loop produces exactly the Matching users |
| SearchServer.PageMeaning | 4-networking/search_server.go:122-133 | a page holds min(limit, users left after the offset) users, each at its offset position, and none past the end |
| SearchServer.PagesTile | 4-networking/search_server.go:122-133 | consecutive windows tile the list: a window of a + b users is the window of a followed by the window of b |
| SearchServer.RefusalMeaning | 4-networking/search_server.go:72-96 | a refusal is 401 for a wrong token and 400 otherwise; a request is served iff the token is right, it parses, its field is known and its direction is in -1..1. The field check is the corrected one (see Findings): as written, line 89 refuses the known fields instead |
| SearchServer.ServedMeaning | 4-networking/search_server.go:104-145 | every user served is a matching user of the database; there are min(limit, matches after the offset) of them, in the requested order |
| SearchServer.Search | 4-networking/search_server.go:72-146 | SearchServer returns the refusal if there is one, else a 200 with the window of the matching users rearranged into the requested order (database order for order_by 0). A parse error carries Atoi's error text. The order-field check is the corrected one (see Findings) |
| SearchServer.ParseSearchRequest | 4-networking/search_server.go:160-202 | a request that parses carries the query and the order field as given ("" when absent) |
| SearchServer.Refusal | 4-networking/search_server.go:72-96 | a wrong token is a 401 "Unauthorized" whatever the parameters, so it is checked first |
| SearchClient.ChecksBeforeSending | 4-test-coverage/client.go:90-98 | a negative limit, then a negative offset, is refused before anything is sent, with its message |
| SearchClient.SentRequest | 4-test-coverage/client.go:93-107 | a request that passes asks for min(limit, 25) + 1 users, and the server parses exactly that request back from the URL |
| SearchClient.StatusErrors | 4-test-coverage/client.go:130-147 | 401 and 500 give their fixed errors whatever the body; a 400 saying "OrderField invalid" names the requested field |
| SearchClient.PageBound | 4-test-coverage/client.go:149-163 | when the server honours the limit, the extra user only signals NextPage: at most the asked-for number of users is returned, a prefix of what came |
| SearchClient.AgainstServer | 4-test-coverage/client.go:86-164 | when the search server serves the request the client sends with the right token, FindUsers returns the first min(limit, 25) users of the server's window at the offset, with NextPage iff more matching users follow. The server is the one with the corrected order-field check (see Findings) |
| SearchClient.ServerAccepts | 4-networking/search_server.go:73-96 | with the right token, the server with the corrected order-field check (see Findings) refuses no request the client builds from a known order field and a direction in -1..1; as written, it refuses every non-empty known field |
| SearchClient.TimeoutNamesQuery | 4-test-coverage/client.go:103-124 | a timeout's error names url.Values.Encode of the sent parameters: keys in sorted order, values query-escaped, so the query "a b&c" appears as "query=a+b%26c" |
| SearchClient.ItoaUnreserved | 4-test-coverage/client.go:103-107 | the decimal text of a number passes query escaping unchanged |
| SearchClient.FindUsers | 4-test-coverage/client.go:86-164 | a page comes back only for a request with a non-negative limit and offset |
| SearchClient.SampleQuery | 4-test-coverage/client.go:103-107 | with offset 0, order_by 0, no order field and the query "a b&c", Encode gives "limit=<n>&offset=0&order_by=0&order_field=&query=a+b%26c" |
| ShopData.CartOf | 11-graphql/graph/resolvers/mutation_resolver.go:46 | a user without a cart reads the nil, empty cart |
| ShopData.ParseId | 11-graphql/graph/resolvers/item_resolver.go:77-80 | an id argument parses iff strconv.Atoi accepts it, to Atoi's value |
| ShopData.FirstItem | 11-graphql/graph/resolvers/mutation_resolver.go:19-31 | the item found has the id and is in the data; nothing is found iff no item has the id |
| ShopData.FindItem | 11-graphql/graph/resolvers/mutation_resolver.go:19-27 | the search loop stops at the first item with the id, and finds one iff one exists |
| ShopData.FirstEntry | 11-graphql/graph/resolvers/item_resolver.go:82-90 | the first cart entry whose id parses to the item's id; no earlier entry refers to the item |
| ShopData.FindQuantity | 11-graphql/graph/resolvers/mutation_resolver.go:45-55 | the loop reads the quantity of the first entry for the item, or 0 |
| ShopData.FirstEntryAt | 11-graphql/graph/resolvers/mutation_resolver.go:47-55 | an entry for the item with none before it is the first entry |
| ShopData.CartTotalAppend | 11-graphql/graph/resolvers/mutation_resolver.go:35-42 | the item's quantity over two parts of a cart is the sum over each |
| ShopData.TotalRemove | 11-graphql/graph/resolvers/mutation_resolver.go:33-43 | the total over all carts does not depend on the map's iteration order: any cart can be counted first |
| ShopData.TotalUpdate | 11-graphql/graph/resolvers/mutation_resolver.go:84 | replacing one cart changes the total by that cart's difference |
| ShopData.SumInCarts | 11-graphql/graph/resolvers/mutation_resolver.go:33-43 | the nested loops add up the item's quantity over every entry of every cart |
| ShopData.WindowMeaning | 11-graphql/graph/resolvers/catalog_resolvers.go:83-100 | a window holds at most `limit` elements, all from the offset on, each at its place; without a limit it is the rest of the list |
| ShopData.WindowWhole | 11-graphql/graph/resolvers/catalog_resolvers.go:83-100 | without offset and limit the window is the whole list |
| ShopData.WindowsTile | 11-graphql/graph/resolvers/catalog_resolvers.go:83-100 | consecutive windows tile the list |
| ShopResolver.PutInCartTotals | 11-graphql/graph/resolvers/mutation_resolver.go:57-82 | adding to a cart raises the item's total by the quantity, leaves every other item's total alone, and raises the first entry by the quantity |
| ShopResolver.AddedToCartRefusals | 11-graphql/graph/resolvers/mutation_resolver.go:13-60 | AddToCart is refused iff there is no user, the item is unknown, or the carts would then hold more than the stock, each with its error |
| ShopResolver.AddedToCartMeaning | 11-graphql/graph/resolvers/mutation_resolver.go:57-84 | on success only the caller's cart changes, the item's total grows by the quantity, other items' totals stay, and the first entry grows by the quantity |
| ShopResolver.AddKeepsStock | 11-graphql/graph/resolvers/mutation_resolver.go:57-60 | a successful AddToCart keeps every item within its stock |
| ShopResolver.AddKeepsPositive | 11-graphql/graph/resolvers/mutation_resolver.go:62-82 | with a positive quantity, AddToCart keeps every cart entry positive |
| ShopResolver.CartTotalAt | 11-graphql/graph/resolvers/mutation_resolver.go:67 | changing one entry's quantity changes the cart's totals by the difference, for that entry's item only |
| ShopResolver.RemovedTotals | 11-graphql/graph/resolvers/mutation_resolver.go:107-122 | removal never raises the item's quantity when the entries are positive, and leaves other items alone |
| ShopResolver.RemovedPositive | 11-graphql/graph/resolvers/mutation_resolver.go:112-117 | removal keeps only positive entries: an entry that would drop to zero or below is dropped |
| ShopResolver.RemoveKeepsStock | 11-graphql/graph/resolvers/mutation_resolver.go:98-124 | with positive entries and a non-negative quantity, RemoveFromCart keeps every item within its stock and every entry positive |
| ShopResolver.NegativeEntryRemoval | 11-graphql/graph/resolvers/mutation_resolver.go:57-60 | the stock check has no lower bound, so a non-positive entry can exist; removing zero then drops it and changes the total |
| ShopResolver.DigitsAfterUnderscore | 11-graphql/graph/resolvers/master_resolver.go:63 | only digits follow the "_" before a token's number |
| ShopResolver.UnderscoreSplit | 11-graphql/graph/resolvers/master_resolver.go:63 | a text ending in "_" and digits splits there in only one way |
| ShopResolver.TokenInjective | 11-graphql/graph/resolvers/master_resolver.go:63 | a token "token_<user>_<n>" determines its user and its number |
| ShopResolver.TokenIsNew | 11-graphql/graph/resolvers/master_resolver.go:63-64 | the token issued next is not in the table yet, so registration never overwrites another user's token |
| ShopResolver.AuthenticateMeaning | 11-graphql/graph/resolvers/master_resolver.go:74-86 | a "Token <t>" header names t's user iff t is known; a header without that prefix names nobody |
| ShopResolver.RegisteredAuthenticates | 11-graphql/graph/resolvers/master_resolver.go:56-86 | after a registration its token authenticates the new user and every earlier token still authenticates its user |
| ShopResolver.Resolver.constructor | 11-graphql/graph/resolvers/master_resolver.go:50-54 | the resolver starts with the loaded data, no carts and no tokens |
| ShopResolver.Resolver.AddToCart | 11-graphql/graph/resolvers/mutation_resolver.go:13-95 | AddToCart changes the carts as AddedToCart says, changes nothing on an error, and returns the caller's new cart |
| ShopResolver.Resolver.RemoveFromCart | 11-graphql/graph/resolvers/mutation_resolver.go:98-135 | RemoveFromCart changes the carts as RemovedFromCart says and returns the caller's new cart |
| ShopResolver.Resolver.RegisterHandler | 11-graphql/graph/resolvers/master_resolver.go:56-72 | an undecodable body is a 400 with no change; otherwise a new token "token_<username>_<n>", n the number of tokens so far, is bound to the user and returned |
| ShopResolver.Put | 11-graphql/graph/resolvers/mutation_resolver.go:62-82 | the end of AddToCart yields the cart PutInCart describes |
| ShopResolver.SetQuantity | 11-graphql/graph/resolvers/mutation_resolver.go:62-72 | the update loop sets the quantity of the first entry for the item, and reports whether there was one |
| ShopResolver.RemoveFrom | 11-graphql/graph/resolvers/mutation_resolver.go:104-122 | the loop builds exactly the cart Removed describes |
| ShopQueries.Mapped | 11-graphql/graph/resolvers/query_resolver.go:97-102 | each element is mapped, in order |
| ShopQueries.Collect | 11-graphql/graph/resolvers/query_resolver.go:49-58 | the append loop keeps the elements that pass, in order, each shown |
| ShopQueries.Slice | 11-graphql/graph/resolvers/catalog_resolvers.go:83-100 | the start/end arithmetic yields the Window |
| ShopQueries.FirstCatalog | 11-graphql/graph/resolvers/query_resolver.go:23-33 | the catalog found has the id; none is found iff no catalog has it |
| ShopQueries.FirstSeller | 11-graphql/graph/resolvers/query_resolver.go:74-84 | the seller found has the id; none is found iff no seller has it |
| ShopQueries.CatalogQueryMeaning | 11-graphql/graph/resolvers/query_resolver.go:13-34 | Query.Catalog refuses a missing id, a non-number and an unknown id with their errors, and otherwise answers the first catalog with that id |
| ShopQueries.SellerQueryMeaning | 11-graphql/graph/resolvers/query_resolver.go:64-85 | Query.Seller refuses a missing id, a non-number and an unknown id with their errors, and otherwise answers the first seller with that id |
| ShopQueries.Shop | 11-graphql/graph/resolvers/query_resolver.go:37-61 | without an argument the root catalogs, with a number the catalogs under it, in data order; a non-number is refused |
| ShopQueries.UnderMeaning | 11-graphql/graph/resolvers/query_resolver.go:49-58 | the catalogs listed are exactly those whose parent id is the one asked for |
| ShopQueries.MyCart | 11-graphql/graph/resolvers/query_resolver.go:88-105 | the caller's cart entry by entry; no user is an error |
| ShopQueries.ParentOfItemMeaning | 11-graphql/graph/resolvers/item_resolver.go:22-35 | the parent found is the catalog of an item with that id; with unique item ids it is the item's own catalog |
| ShopQueries.SellerOfItemMeaning | 11-graphql/graph/resolvers/item_resolver.go:49-63 | the seller found is the seller of an item with that id; with unique item ids it is the item's own seller |
| ShopQueries.ItemFieldsMeaning | 11-graphql/graph/resolvers/item_resolver.go:12-93 | an item without an id gets nothing, a non-number id is an error, InCart needs a user and reports the first entry's quantity |
| ShopQueries.StockText | 11-graphql/graph/resolvers/item_resolver.go:134-140 | "мало" iff at most 1 is left, "хватает" iff 2 or 3, "много" iff more than 3 |
| ShopQueries.InStockText | 11-graphql/graph/resolvers/item_resolver.go:96-141 | the loops compute InStockTextOf: empty for an item without an id or not in the data, else the level of stock minus everything in carts |
| ShopQueries.InStockTextLevels | 11-graphql/graph/resolvers/item_resolver.go:132-140 | with every item within its stock, a known item's level reflects a non-negative remainder |
| ShopQueries.ParentOfCatalogMeaning | 11-graphql/graph/resolvers/catalog_resolvers.go:22-35 | the parent found is a catalog whose id is the parent id of a catalog with that id; a catalog without a parent id has none |
| ShopQueries.Childs | 11-graphql/graph/resolvers/catalog_resolvers.go:39-60 | Catalog.childs lists, in data order, the catalogs whose parent id is this catalog's id; no id gives nothing, a non-number is an error |
| ShopQueries.ItemsOf | 11-graphql/graph/resolvers/catalog_resolvers.go:63-101 | the shared Items body: no id gives nothing, a non-number is an error, otherwise the window of the matching items |
| ShopQueries.CatalogItems | 11-graphql/graph/resolvers/catalog_resolvers.go:63-101 | Catalog.items: the window of the catalog's items in data order |
| ShopQueries.SellerItems | 11-graphql/graph/resolvers/seller_resolver.go:12-50 | Seller.items: the window of the seller's items in data order |
| ShopQueries.ItemsWhereMeaning | 11-graphql/graph/resolvers/catalog_resolvers.go:73-81 | an Items field lists exactly the matching items, each shown once per occurrence, and splits over a split list |
| Slices.FilterAppend | 1-basics/utils.go:3-11 | filtering a concatenation is the concatenation of the filtered parts |
| Slices.FilterMeaning | 1-basics/utils.go:3-11 | an element is kept iff it is in the list and passes; the result is never longer |
| Slices.FilterAll | 1-basics/utils.go:3-11 | when every element passes, the list is kept whole |
| Slices.FilterNone | 1-basics/utils.go:3-11 | when no element passes, nothing is kept |
| Slices.FilterSlice | 1-basics/utils.go:3-11 | the append loop yields exactly Filter of the input |
| Slices.MapSlice | 1-basics/utils.go:13-19 | same length, element i is the mapper applied to i and the input's element i |
| Slices.CopySlice | 1-basics/utils.go:21-25 | same length and equal element by element |
| TreePrinter.TotalSizeAppend | 1-basics/main.go:91 | the nodes under two stacks joined are those under each |
| TreePrinter.TotalSizeFilter | 1-basics/main.go:65-67 | filtering the children never adds nodes to visit |
| TreePrinter.NameTotal | 1-basics/main.go:69-74 | Go's byte-wise `<` on names orders any two names one way or the other |
| TreePrinter.NameIrreflexive | 1-basics/main.go:69-74 | no name comes before itself |
| TreePrinter.Insert | 1-basics/main.go:69-74 | inserting into a sorted list keeps it sorted by name and adds exactly the element |
| TreePrinter.SortByName | 1-basics/main.go:69-74 | the children come out sorted by name and are a permutation of the input |
| TreePrinter.TotalSizeInsert | 1-basics/main.go:69-74 | insertion keeps the number of nodes to visit |
| TreePrinter.TotalSizeSort | 1-basics/main.go:69-74 | sorting keeps the number of nodes to visit |
| TreePrinter.ConcatAppend | 1-basics/main.go:44 | joining two lists of pieces is joining each |
| TreePrinter.JoinNoSeparator | 1-basics/main.go:44 | strings.Join with "" concatenates the pieces |
| TreePrinter.ConcatBlanks | 1-basics/main.go:33 | the depth - 1 empty strings `make` puts first add nothing to the prefix |
| TreePrinter.GetTreePrefix | 1-basics/main.go:25-49 | the prefix is "│\t" or "\t" for each level above the entry, then the symbol and "───" |
| TreePrinter.SizeText | 1-basics/main.go:114-120 | "empty" for a file of no bytes, otherwise the byte count and "b" |
| TreePrinter.HandleRegularFile | 1-basics/main.go:108-136 | the root prints nothing; any other file prints its prefix, name and size in brackets |
| TreePrinter.Kids | 1-basics/main.go:64-74 | the listed children are sorted by name, a permutation of the kept children, and fewer nodes than their directory |
| TreePrinter.EntriesSizeAppend | 1-basics/main.go:91 | the nodes still to visit under a joined stack add up |
| TreePrinter.EntriesSizeOfNodes | 1-basics/main.go:76-89 | entries built from nodes hold those nodes |
| TreePrinter.ChildEntriesSmaller | 1-basics/main.go:91 | a directory's pushed entries hold fewer nodes than it, so the loop ends |
| TreePrinter.ChildEntriesMeaning | 1-basics/main.go:64-89 | the pushed entries are sorted by name, are exactly the kept children, one level deeper, under the parent's path, with the parent's flags and a vertical line for all but the last |
| TreePrinter.ListedChildren | 1-basics/main.go:65-67 | a child is listed iff it is a directory or files are printed |
| TreePrinter.ThenAssociative | 1-basics/main.go:189-194 | writing output in sequence does not depend on grouping |
| TreePrinter.ThenText | 1-basics/main.go:189-194 | two successful writes in a row are one write of both texts |
| TreePrinter.ChildEntriesOk | 1-basics/main.go:76-91 | the pushed entries are well formed, one level deeper than their parent, so the stack stays well formed |
| TreePrinter.RunPop | 1-basics/main.go:148-197 | one turn of the loop: a missing path stops with its error, a directory pushes its children or stops, a listed file prints its line, anything else prints nothing |
| TreePrinter.MappedChildren | 1-basics/main.go:76-89 | the entries `mapped` builds are the children's entries |
| TreePrinter.HandleDir | 1-basics/main.go:51-106 | an unreadable directory is an open error with the stack unchanged; otherwise the sorted listed children go in front of the stack and the directory's line is printed unless it is the root |
| TreePrinter.VisitEntry | 1-basics/main.go:149-196 | one turn of dirTree's loop continues the walk exactly as the stack loop Run describes |
| TreePrinter.DirTree | 1-basics/main.go:138-200 | dirTree writes what Run of the one-entry stack describes and ends with its error |
| TreePrinter.ThenFour | 1-basics/main.go:189-194 | four outputs in sequence do not depend on grouping |
| TreePrinter.RunHead | 1-basics/main.go:161-164 | an entry followed by one of its depth gets "├", the last of its depth gets "└", and its subtree is drawn before its next sibling |
| TreePrinter.RunSiblings | 1-basics/main.go:148-197 | popping siblings off the stack draws each one's subtree in order, as a recursive tree drawing would |
| TreePrinter.DirTreeDraws | 1-basics/main.go:138-200 | dirTree writes nothing for the root, then the recursive drawing of its listed children; a missing root and an unreadable one are their errors |
| TreePrinter.RunReachable | 1-basics/main.go:148-197 | a walk that ends without an error met no missing entry and no unreadable directory on its stack |
| TreePrinter.RunNext | 1-basics/main.go:148-197 | a walk that gets past its top entry found it reachable and goes on with its children, then the rest, on a smaller stack |
| TreePrinter.Run | 1-basics/main.go:148-197 | the stack loop of dirTree as a function of the stack; what it writes and when it stops is stated by VisitEntry, DirTree, RunReachable and RunNext |
| GameRules.EnqueueMeaning | 12-dialog-game/entities/player.go:31-36 | a send keeps the queue within its 10 places, keeps the earlier messages, adds the message iff there is room and otherwise drops it |
| GameRules.WithoutMeaning | 12-dialog-game/game_handlers/command_handler.go:109-117 | removeItem keeps exactly the elements other than the item, in order, and leaves a list without the item as it is |
| GameRules.SameOnce | 12-dialog-game/game_handlers/command_handler.go:79-85 | an item that occurs once is the only one of its kind that goes to the chair |
| GameRules.RoomTextTable | 12-dialog-game/game_handlers/command_handler.go:71-96 | without the backpack the room's text lists every item on the table |
| GameRules.RoomTextChair | 12-dialog-game/game_handlers/command_handler.go:71-96 | with the backpack once, the other items are on the table and the backpack on the chair, after them |
| GameRules.SplitOnce | 12-dialog-game/game_handlers/command_handler.go:79-85 | an item that occurs once splits the list into it and one fewer of the rest |
| GameRules.JoinTwo | 12-dialog-game/game_handlers/command_handler.go:95 | two parts are joined with the separator between them |
| GameRules.LookMeaning | 12-dialog-game/game_handlers/look_handler.go:8-50 | in the kitchen the text says the player is ready iff they carry the keys and the notes; nobody else is named iff nobody shares the location; only the caller's queue changes |
| GameRules.MoveMeaning | 12-dialog-game/game_handlers/move_handler.go:8-31 | the caller ends up at the direction iff it is an exit (the street only through an open door); nothing but the caller changes |
| GameRules.HomeIsUndefined | 12-dialog-game/game_handlers/game_handler.go:36-39 | the street's one exit "домой" names no location of the game |
| GameRules.TakeConserves | 12-dialog-game/game_handlers/take_handler.go:5-25 | a take moves the item from the location to the inventory iff the backpack is worn and the item lies here; location and inventory together keep their items; nobody else changes |
| GameRules.WearConserves | 12-dialog-game/game_handlers/wear_handler.go:5-20 | a wear moves the item from the location to what is worn iff it lies here; the two together keep their items; nobody else changes |
| GameRules.WithoutOnce | 12-dialog-game/game_handlers/command_handler.go:109-117 | removing an item that occurs once takes exactly one copy away |
| GameRules.AnnounceNone | 12-dialog-game/game_handlers/say_handler.go:8-12 | before the loop has reached anybody the game is unchanged |
| GameRules.AnnounceStep | 12-dialog-game/game_handlers/say_handler.go:8-12 | each turn of the loop over players tells the line to that player iff they stand in the speaker's location |
| GameRules.SayMeaning | 12-dialog-game/game_handlers/say_handler.go:5-13 | a player hears "<name> говорит: <message>" iff they share the speaker's location, the speaker included; nothing else changes for them |
| GameRules.SayToMeaning | 12-dialog-game/game_handlers/say_handler.go:15-35 | a private message reaches only its target in the same location, silence as its own line; otherwise the speaker hears "тут нет такого игрока" |
| GameRules.ParseUnknown | 12-dialog-game/game_handlers/command_handler.go:8-68 | a blank command and a verb without its arguments are unknown |
| GameRules.ParseSay | 12-dialog-game/game_handlers/command_handler.go:51-64 | "сказать" passes the rest of the words joined by single spaces, however they were typed; "сказать_игроку" with a name alone says nothing |
| GameRules.TellKeeps | 12-dialog-game/entities/player.go:31-36 | a message keeps the game valid and the door as it is |
| GameRules.MoveKeeps | 12-dialog-game/game_handlers/move_handler.go:8-31 | a move keeps the game valid and the door as it is |
| GameRules.TakeKeeps | 12-dialog-game/game_handlers/take_handler.go:5-25 | a take keeps the game valid and the door as it is |
| GameRules.WearKeeps | 12-dialog-game/game_handlers/wear_handler.go:5-20 | a wear keeps the game valid and the door as it is |
| GameRules.UseKeeps | 12-dialog-game/game_handlers/use_handler.go:5-18 | a use keeps the game valid, and opens the door only as the keys, carried, applied to the door |
| GameRules.SayKeeps | 12-dialog-game/game_handlers/say_handler.go:5-13 | a say keeps the game valid and the door as it is |
| GameRules.SayToKeeps | 12-dialog-game/game_handlers/say_handler.go:15-35 | a private message keeps the game valid and the door as it is |
| GameRules.StepInvariants | 12-dialog-game/game_handlers/command_handler.go:8-68 | every command keeps the players, the locations and a valid game, never closes the door, and opens it only as the keys applied to the door by a player who carries them |
| DialogGame.Player.constructor | 12-dialog-game/entities/player.go:12-21 | a new player is in the kitchen, wearing and carrying nothing, with no pending messages |
| DialogGame.Player.SendMessage | 12-dialog-game/entities/player.go:31-36 | the message is queued while there is room and dropped otherwise, never waiting |
| DialogGame.Player.ReceiveOutput | 12-dialog-game/entities/player.go:23-25 | a receive takes the oldest pending message, or nothing from an empty queue |
| DialogGame.HasItem | 12-dialog-game/game_handlers/command_handler.go:99-106 | true iff the item is in the list |
| DialogGame.RemoveItem | 12-dialog-game/game_handlers/command_handler.go:109-117 | the loop builds removeItem's list |
| DialogGame.FormatRoomItems | 12-dialog-game/game_handlers/command_handler.go:71-96 | the loop builds the room text: table items, then the backpacks on the chair, or "пустая комната" |
| DialogGame.GameHandler.constructor | 12-dialog-game/game_handlers/game_handler.go:14-44 | a new game: the door closed, the four locations with their exits and items, no players |
| DialogGame.GameHandler.AddPlayer | 12-dialog-game/game_handlers/game_handler.go:46-52 | the player is filed under their name, replacing an earlier one of that name |
| DialogGame.GameHandler.GetOtherPlayersInLocation | 12-dialog-game/game_handlers/look_handler.go:42-50 | the names of the other players in the caller's location, each once, in the map's order |
| DialogGame.GameHandler.DescribeLocation | 12-dialog-game/game_handlers/look_handler.go:13-30 | the kitchen's text by what is carried, the room's by its items, otherwise the fixed description |
| DialogGame.GameHandler.HandleLook | 12-dialog-game/game_handlers/look_handler.go:8-40 | handleLook changes the game as the Look rule says |
| DialogGame.GameHandler.HandleMove | 12-dialog-game/game_handlers/move_handler.go:8-31 | handleMove changes the game as the Move rule says |
| DialogGame.GameHandler.HandleTake | 12-dialog-game/game_handlers/take_handler.go:5-25 | handleTake changes the game as the Take rule says |
| DialogGame.GameHandler.HandleWear | 12-dialog-game/game_handlers/wear_handler.go:5-20 | handleWear changes the game as the Wear rule says |
| DialogGame.GameHandler.HandleUse | 12-dialog-game/game_handlers/use_handler.go:5-18 | handleUse changes the game as the Use rule says |
| DialogGame.GameHandler.HandleSay | 12-dialog-game/game_handlers/say_handler.go:5-13 | the loop over the players changes the game as the Say rule says |
| DialogGame.GameHandler.HandleSayToPlayer | 12-dialog-game/game_handlers/say_handler.go:15-35 | handleSayToPlayer changes the game as the SayTo rule says |
| DialogGame.GameHandler.HandleCommand | 12-dialog-game/game_handlers/command_handler.go:8-68 | the command's words pick the handler; the game changes as Step of the parsed command says |
| GoStrings.Fields | 12-dialog-game/game_handlers/command_handler.go:12 | strings.Fields yields non-empty words free of white space |
| GoStrings.FieldsEmpty | 12-dialog-game/game_handlers/command_handler.go:12 | a command has no words exactly when it is all white space |
| GoStrings.FieldsJoin | 12-dialog-game/game_handlers/command_handler.go:12 | words joined by single spaces split back into the same words |
| GoStrings.FieldsTrailingNoBreakSpace | 12-dialog-game/game_handlers/command_handler.go:12 | unicode.IsSpace counts U+00A0, so "осмотреться" followed by a no-break space is the one word "осмотреться" |
| GameRules.Look | 12-dialog-game/game_handlers/look_handler.go:8-50 | a look only queues a text for the caller: no location, door, player set or position changes |
| GameRules.Move | 12-dialog-game/game_handlers/move_handler.go:8-31 | a move changes no location, door or player set, and leaves the caller in a location the game defines |
| GameRules.Take | 12-dialog-game/game_handlers/take_handler.go:5-25 | a take keeps the door, the players, the set of locations and the caller's position |
| GameRules.Wear | 12-dialog-game/game_handlers/wear_handler.go:5-20 | a wear keeps the door, the players, the set of locations and the caller's position |
| GameRules.Use | 12-dialog-game/game_handlers/use_handler.go:5-18 | after a use the door is open iff it was, or the caller carries the keys and applies them to the door; locations and players stay |
| GameRules.Say | 12-dialog-game/game_handlers/say_handler.go:5-13 | a say changes no location, door or player set |
| GameRules.SayTo | 12-dialog-game/game_handlers/say_handler.go:15-35 | a private message changes no location, door or player set, and nobody but the speaker and the target |
| GameRules.Step | 12-dialog-game/game_handlers/command_handler.go:8-68 | any command keeps the players and the locations, and never closes an open door |
| TaskRules.EntryStartsNumeric | 10-tgbot/tgbot/tasks_handler.go:19 | every entry starts with its task's id |
| TaskRules.LinesCount | 10-tgbot/tgbot/tasks_handler.go:8-78 | a listing has no entries iff no visited task is shown, one per task in the full listing, and each starts with an id |
| TaskRules.EntryShape | 10-tgbot/tgbot/tasks_handler.go:19-29 | each entry is the heading "<id>. <title> by @<author>", then for the full listing "assignee: я" and the unassign and resolve commands, "assignee: @<name>", or the assign command |
| TaskRules.LinesMeaning | 10-tgbot/tgbot/tasks_handler.go:8-78 | the entries of a listing are exactly those of the tasks the view shows, in visiting order |
| TaskRules.ListingEmpty | 10-tgbot/tgbot/tasks_handler.go:12-15 | a listing says "Нет задач" iff no task is shown |
| TaskRules.NewTaskFresh | 10-tgbot/tgbot/new_task_handler.go:9-23 | a new task gets a fresh id (1 for the first), the sender as author and nobody assigned; earlier tasks are untouched |
| TaskRules.ChangesKeep | 10-tgbot/tgbot/task_assign_handler.go:8-56 | assigning, giving up and resolving keep the tracker valid and the next id, and change only the task named |
| TaskRules.UnknownIdIgnored | 10-tgbot/tgbot/task_assign_handler.go:12-15 | an id that names no task changes nothing and sends nothing; a valid tracker has no task 0 |
| TaskRules.AssignThenUnassign | 10-tgbot/tgbot/task_assign_handler.go:8-56 | taking a task and giving it up leaves it unassigned, the author told each time unless they took it |
| TaskRules.UnassignByOther | 10-tgbot/tgbot/task_assign_handler.go:42-45 | anyone but the assignee is told "Задача не на вас" and nothing changes |
| TaskRules.ResolveByAnyone | 10-tgbot/tgbot/task_resolve_handler.go:8-25 | anyone may resolve a task; who does changes only the author's notice; the task is gone afterwards |
| TaskRules.AssignNotices | 10-tgbot/tgbot/task_assign_handler.go:17-30 | the sender hears they took the task; a previous assignee and the author are told only when they are someone else |
| TaskRules.ParsePrefixes | 10-tgbot/tgbot/message_handler.go:18-38 | each prefix picks its command, whatever follows; the rest after "/assign_", "/unassign_", "/resolve_" is read by Atoi |
| TaskRules.ParseTasks | 10-tgbot/tgbot/message_handler.go:18-19 | "/tasks…" lists every task |
| TaskRules.ParseNew | 10-tgbot/tgbot/message_handler.go:20-21 | "/new <title>" creates a task with the title |
| TaskRules.ParseAssign | 10-tgbot/tgbot/message_handler.go:22-25 | "/assign_<n>" assigns task Atoi(n) |
| TaskRules.ParseUnassign | 10-tgbot/tgbot/message_handler.go:26-29 | "/unassign_<n>" gives task Atoi(n) up |
| TaskRules.ParseResolve | 10-tgbot/tgbot/message_handler.go:30-33 | "/resolve_<n>" resolves task Atoi(n) |
| TaskRules.ParseMy | 10-tgbot/tgbot/message_handler.go:34-35 | "/my…" lists the sender's assignments |
| TaskRules.ParseOwner | 10-tgbot/tgbot/message_handler.go:36-37 | "/owner…" lists the sender's tasks |
| TaskRules.ParseOffered | 10-tgbot/tgbot/tasks_handler.go:23-28 | the commands a listing offers parse back to the command for that task |
| TaskRules.MalformedIdIgnored | 10-tgbot/tgbot/message_handler.go:22-33 | an id that reads as 0 names no task: on a valid tracker the command does nothing |
| TaskRules.OverflowingIdClamps | 10-tgbot/tgbot/message_handler.go:22-33 | an id of more than 2^64-1 in digits followed by junk reads as MaxInt64, the value Atoi returns beside its range error |
| TaskRules.ListingsReadOnly | 10-tgbot/tgbot/tasks_handler.go:8-78 | listings leave the tracker as it is; an unknown text sends nothing |
| TaskRules.RespondKeeps | 10-tgbot/tgbot/message_handler.go:9-39 | every command keeps the tracker valid |
| TaskBotServer.TaskBot.constructor | 10-tgbot/tgbot/tgbot_impl.go:16-23 | a new bot has no tasks, the first id 1 and nothing sent |
| TaskBotServer.TaskBot.SendMessage | 10-tgbot/tgbot/message_handler.go:41-44 | the message goes out to the chat after those already sent |
| TaskBotServer.TaskBot.HandleNew | 10-tgbot/tgbot/new_task_handler.go:9-23 | the tracker and the outbox change as New says |
| TaskBotServer.TaskBot.HandleAssign | 10-tgbot/tgbot/task_assign_handler.go:8-31 | the tracker and the outbox change as Assign says |
| TaskBotServer.TaskBot.HandleUnassign | 10-tgbot/tgbot/task_assign_handler.go:33-56 | the tracker and the outbox change as Unassign says |
| TaskBotServer.TaskBot.HandleResolve | 10-tgbot/tgbot/task_resolve_handler.go:8-25 | the tracker and the outbox change as Resolve says |
| TaskBotServer.TaskBot.HandleTasks | 10-tgbot/tgbot/tasks_handler.go:8-34 | one message: the full listing of the tasks in the map's order |
| TaskBotServer.TaskBot.HandleMy | 10-tgbot/tgbot/tasks_handler.go:36-55 | one message: the listing of the sender's assignments |
| TaskBotServer.TaskBot.HandleOwner | 10-tgbot/tgbot/tasks_handler.go:57-78 | one message: the listing of the sender's tasks |
| TaskBotServer.TaskBot.HandleMessage | 10-tgbot/tgbot/message_handler.go:9-39 | an update without a message changes nothing; otherwise the tracker and outbox change as Respond of the parsed text says |
| MapIteration.Pick | 10-tgbot/tgbot/tasks_handler.go:18 | the next key a range loop visits is one of the map's keys |
| MapIteration.Visit | 10-tgbot/tgbot/tasks_handler.go:18 | visiting a key moves it from the keys left to the keys seen, and fewer keys are left |
| MapIteration.Enumerable | 10-tgbot/tgbot/tasks_handler.go:18 | every finite map has an order a range loop can visit it in |
| MapIteration.StopEarly | 12-dialog-game/game_handlers/say_handler.go:7-12 | a loop that stops early is the prefix of some full visiting order |
| ApiGenParser.ParsedFile.constructor | 5-code-generator/handlers_gen/codegen.go:267-271 | a new file model holds the package name and empty tables |
| ApiGenParser.ParseFieldTag | 5-code-generator/handlers_gen/codegen.go:373-398 | the tag loop yields the rules ApplyEntries gives, and panics exactly when ApplyEntries does |
| ApiGenParser.CodeParser.NewParser | 5-code-generator/handlers_gen/codegen.go:250-258 | the parser keeps the API comment prefix it is given |
| ApiGenParser.CodeParser.GetFunctionReceiver | 5-code-generator/handlers_gen/codegen.go:335-350 | the receiver name is T for the first receiver T or *T, else "" |
| ApiGenParser.CodeParser.ParseFunc | 5-code-generator/handlers_gen/codegen.go:291-333 | ParseFunc changes the API table as FuncStep says, panics when FuncStep does, and leaves the rest alone |
| ApiGenParser.CodeParser.ParseStruct | 5-code-generator/handlers_gen/codegen.go:352-411 | ParseStruct changes the params table as StructFields says, panics when it does, and leaves the rest alone |
| ApiGenParser.CodeParser.AddField | 5-code-generator/handlers_gen/codegen.go:358-409 | one field of ParseStruct changes the params table as FieldStep says |
| ApiGenParser.CodeParser.Parse | 5-code-generator/handlers_gen/codegen.go:260-289 | Parse builds the file model ParseDecls gives from an empty one, and panics exactly when ParseDecls does |
| ApiGenParser.CodeParser.ParseSpecs | 5-code-generator/handlers_gen/codegen.go:278-285 | the specs of a general declaration change the file as SpecsStep says |
| ApiGenParser.StructFieldsPanicSticks | 5-code-generator/handlers_gen/codegen.go:357-410 | a panic on one field ends ParseStruct |
| ApiGenParser.SpecsPanicSticks | 5-code-generator/handlers_gen/codegen.go:279-285 | a panic on one spec ends the declaration |
| ApiGenParser.ParsePanicSticks | 5-code-generator/handlers_gen/codegen.go:273-287 | a panic on one declaration ends Parse |
| ApiGenRules.ValidatorSpecRoundTrip | 5-code-generator/handlers_gen/codegen.go:233 | a raw tag apivalidator:"<spec>" yields the spec back, and only such a tag yields it |
| ApiGenRules.EntriesPanic | 5-code-generator/handlers_gen/codegen.go:380-397 | the tag loop panics iff some entry names min, max, paramname, enum or default without "=" |
| ApiGenRules.EntriesNames | 5-code-generator/handlers_gen/codegen.go:382-396 | "required" anywhere sets the flag; the last paramname, default and enum win, the enum split on "\|" |
| ApiGenRules.EntriesBounds | 5-code-generator/handlers_gen/codegen.go:385-390 | the last min and max win and set their flags, with the value Atoi returns even beside an error: 0 for bad syntax, the 64-bit bound for a number out of range |
| ApiGenRules.StructFieldsOthers | 5-code-generator/handlers_gen/codegen.go:352-411 | ParseStruct touches only its own struct |
| ApiGenRules.StructFieldsMeaning | 5-code-generator/handlers_gen/codegen.go:357-410 | the struct is registered iff some field matches the validator pattern or it already was, and gains one field per matching field, after the earlier ones |
| ApiGenRules.DocMetaStops | 5-code-generator/handlers_gen/codegen.go:298-306 | an API comment whose decoding fails ends the scan: later comments do not count |
| ApiGenRules.PartialDecodeRegisters | 5-code-generator/handlers_gen/codegen.go:298-330 | a comment whose "auth" has the wrong type still sets its url and method, so the method is registered without auth |
| ApiGenRules.FuncStepMeaning | 5-code-generator/handlers_gen/codegen.go:291-333 | only an API method changes the table, only under its receiver, adding one method with its name, parameter type and non-empty URL; one without a second parameter panics |
| ApiGenRules.ParseKeeps | 5-code-generator/handlers_gen/codegen.go:260-289 | every declaration keeps each table entry under its own name and the package name unchanged |
| ApiGenRules.SpecsKeep | 5-code-generator/handlers_gen/codegen.go:278-285 | struct types keep the params table keyed and the API table as it is |
| ApiGenRuntime.CheckFieldPasses | 5-code-generator/handlers_gen/codegen.go:89-168 | a field passes iff it breaks none of its rules (a string's min and max measured in UTF-8 bytes, as len does), and then holds the parsed number or the string with its default applied |
| ApiGenRuntime.CheckFieldFirstBroken | 5-code-generator/handlers_gen/codegen.go:94-164 | a failing field answers 400 with the message of the first rule it breaks, in the template's order; "len must be >= / <=" is decided on the UTF-8 byte length |
| ApiGenRuntime.ValidatePasses | 5-code-generator/handlers_gen/codegen.go:89-168 | a params struct validates iff every field passes its checks, string lengths counted in bytes |
| ApiGenRuntime.ValidateValues | 5-code-generator/handlers_gen/codegen.go:89-168 | a struct that validates holds each field's value, in order |
| ApiGenRuntime.ValidateFirstFailure | 5-code-generator/handlers_gen/codegen.go:89-168 | a struct that fails returns the error of its first failing field, string lengths counted in bytes |
| ApiGenRuntime.ValidateBadRequest | 5-code-generator/handlers_gen/codegen.go:89-168 | validation errors are all 400s |
| ApiGenRuntime.Route | 5-code-generator/handlers_gen/codegen.go:25-30 | the method found is one of the struct's with the path; none is found iff no method has it |
| ApiGenRuntime.ServeUnknown | 5-code-generator/handlers_gen/codegen.go:28-29 | an unknown path is a 404 "unknown endpoint" |
| ApiGenRuntime.ServeUnauthorized | 5-code-generator/handlers_gen/codegen.go:58-61 | on an authenticated method, a request without X-Auth 100500 is a 403 "unauthorized" |
| ApiGenRuntime.ServeBadMethod | 5-code-generator/handlers_gen/codegen.go:65-68 | past auth, a request with another HTTP method than the one declared is a 406 "bad method" |
| ApiGenRuntime.ServeAccepted | 5-code-generator/handlers_gen/codegen.go:19-86 | past auth and method, invalid params are a 400 with the validator's message; otherwise the handler's data with 200, an ApiError's status, or 500 |
| ApiGenRuntime.RouteFirst | 5-code-generator/handlers_gen/codegen.go:25-30 | the route is the first method with the path |
| ApiGenCases.AgeNotInt | 5-code-generator/main_test.go:188 | age=ten answers "age must be int" |
| ApiGenCases.AgeTooSmall | 5-code-generator/main_test.go:198 | age=-1 answers "age must be >= 0" |
| ApiGenCases.AgeTooLarge | 5-code-generator/main_test.go:208 | age=256 answers "age must be <= 128" |
| ApiGenCases.LoginTooShort | 5-code-generator/main_test.go:178 | a login of 5 characters answers "login len must be >= 10" |
| ApiGenCases.CyrillicLoginPasses | 5-code-generator/handlers_gen/codegen.go:127-131 | len counts bytes: a login of eight Cyrillic letters is sixteen bytes and meets min=10 |
| GoStrings.ByteLenAscii | 5-code-generator/handlers_gen/codegen.go:128 | a string's byte length equals its number of characters iff it is ASCII |
| ApiGenCases.LoginEmpty | 5-code-generator/main_test.go:168 | no login answers "login must be not empty" |
| ApiGenCases.JoinStatuses | 5-code-generator/handlers_gen/codegen.go:161 | the enum is listed joined with ", " |
| ApiGenCases.StatusMessage | 5-code-generator/handlers_gen/codegen.go:161 | the enum message of status is "status must be one of [user, moderator, admin]" |
| ApiGenCases.StatusNotInEnum | 5-code-generator/main_test.go:218 | status=adm answers "status must be one of [user, moderator, admin]" |
| ApiGenCases.StatusDefault | 5-code-generator/handlers_gen/codegen.go:107-111 | no status takes the default "user", which passes |
| ApiGenRuntime.CheckField | 5-code-generator/handlers_gen/codegen.go:89-168 | a field's check fails only with a 400; a passing int field yields an int value and a string field a string value |
| ApiGenRuntime.Validate | 5-code-generator/handlers_gen/codegen.go:89-168 | a struct that validates yields one value per field |
| ApiGenRuntime.Serve | 5-code-generator/handlers_gen/codegen.go:19-86 | a response carries data only with status 200 and no error |
| NetUrl.Get | 9-architecture/handlers/articles_handler.go:69-71 | the first value of the key, "" for a key that is absent |
| RealWorldText.KeepSlugChars | 9-architecture/repositories/articles_db_repository.go:87 | replacing [^a-z0-9\s-] with "" leaves only slug characters and white space |
| RealWorldText.KeepSlugCharsIdentity | 9-architecture/repositories/articles_db_repository.go:87 | text made only of kept characters is left as it is |
| RealWorldText.DashSpaces | 9-architecture/repositories/articles_db_repository.go:88 | replacing \s+ with "-" leaves no white space, and slug characters with white space become slug characters only |
| RealWorldText.DashSpacesIdentity | 9-architecture/repositories/articles_db_repository.go:88 | text without white space is left as it is |
| RealWorldText.DashSpacesRun | 9-architecture/repositories/articles_db_repository.go:88 | a whole run of white space between words becomes one dash |
| RealWorldText.TrimLeftDashes | 9-architecture/repositories/articles_db_repository.go:89 | strings.Trim cuts only leading dashes, all of them |
| RealWorldText.TrimRightDashes | 9-architecture/repositories/articles_db_repository.go:89 | strings.Trim cuts only trailing dashes, all of them |
| RealWorldText.TrimDashesMeaning | 9-architecture/repositories/articles_db_repository.go:89 | the trimmed text is a middle part of the text, everything cut off is a dash, and it neither starts nor ends with one |
| NetUrl.EscapeChar | 9-architecture/repositories/articles_db_repository.go:90 | url.QueryEscape keeps a character iff it is unreserved; a space becomes "+", any other character the "%XX" of each byte of its UTF-8 encoding |
| NetUrl.QueryEscapeEscaped | 9-architecture/repositories/articles_db_repository.go:90 | escaped text holds only unreserved characters, "+" and "%", so no "&", "=" or space survives |
| NetUrl.QueryEscapeSample | 9-architecture/repositories/articles_db_repository.go:90 | "a b&c" escapes to "a+b%26c" |
| NetUrl.QueryEscapeTwoByte | 9-architecture/repositories/articles_db_repository.go:90 | the two-byte "я" escapes to "%D1%8F", one escape per UTF-8 byte |
| GoStrings.ToLowerIdempotent | 9-architecture/repositories/articles_db_repository.go:86 | lower-casing a lowered title changes nothing |
| GoStrings.ToLowerSample | 9-architecture/repositories/articles_db_repository.go:86 | Cyrillic capitals and the Kelvin sign are lowered ("Имя" to "имя", U+212A to "k") |
| NetUrl.QueryEscapeUnreserved | 9-architecture/repositories/articles_db_repository.go:90 | escaping text of unreserved characters changes nothing |
| RealWorldText.SlugShape | 9-architecture/repositories/articles_db_repository.go:85-91 | the slug is made of a-z, 0-9 and "-", neither starts nor ends with a dash, and the final escape leaves it unchanged |
| RealWorldText.EncodeToString | 9-architecture/repositories/session_manager.go:54 | hex text has two lower-case hex digits per byte |
| RealWorldText.DecodeEncode | 9-architecture/repositories/session_manager.go:54 | decoding the hex text of bytes gives the bytes back, so distinct random bytes give distinct tokens |
| RealWorldText.Token | 9-architecture/repositories/session_manager.go:51-55 | a token is 64 lower-case hex digits |
| RealWorldRepos.User.constructor | 9-architecture/handlers/entities/user.go:5-16 | a user record holds the field values it is made with |
| RealWorldRepos.Lookup | 9-architecture/repositories/user_db_repository.go:45-55 | the user under the key, found iff the key is present |
| RealWorldRepos.ReindexMeaning | 9-architecture/repositories/user_db_repository.go:65-77 | after UpdateUser the new key holds the new user, the old key is gone unless it is the new key too, every other key untouched |
| RealWorldRepos.UserDbRepository.constructor | 9-architecture/repositories/user_db_repository.go:17-23 | both indexes start empty |
| RealWorldRepos.UserDbRepository.AddUser | 9-architecture/repositories/user_db_repository.go:25-43 | a new user with the given fields, id and clock readings is filed under its email and its id |
| RealWorldRepos.UserDbRepository.GetUserByEmail | 9-architecture/repositories/user_db_repository.go:45-49 | the user filed under the email, or nil |
| RealWorldRepos.UserDbRepository.GetUserById | 9-architecture/repositories/user_db_repository.go:51-55 | the user filed under the id, or nil |
| RealWorldRepos.UserDbRepository.IsUserExists | 9-architecture/repositories/user_db_repository.go:57-63 | true iff a user is filed under the email |
| RealWorldRepos.UserDbRepository.UpdateUser | 9-architecture/repositories/user_db_repository.go:65-77 | both indexes drop the old user's key and file the new user under its own |
| RealWorldRepos.SessionUser | 9-architecture/repositories/session_manager.go:31-35 | the user id bound to the token, "" for an unknown token |
| RealWorldRepos.SessionManager.constructor | 9-architecture/repositories/session_manager.go:14-19 | no sessions |
| RealWorldRepos.SessionManager.AddSession | 9-architecture/repositories/session_manager.go:21-29 | the token made of the random bytes is bound to the user id and returned |
| RealWorldRepos.SessionManager.GetAuthenticatedUser | 9-architecture/repositories/session_manager.go:31-35 | the user id bound to the token |
| RealWorldRepos.SessionManager.UpdateSession | 9-architecture/repositories/session_manager.go:37-42 | the token is bound to the user id |
| RealWorldRepos.SessionManager.DeleteSession | 9-architecture/repositories/session_manager.go:44-49 | the token's binding goes |
| RealWorldRepos.SessionsAddDelete | 9-architecture/repositories/session_manager.go:21-49 | binding a token changes only that token's user; deleting it unbinds only it |
| RealWorldRepos.NewArticle | 9-architecture/repositories/articles_db_repository.go:24-46 | the article has the slug of its title, the given fields, both times set to now, and only the author's username and bio |
| RealWorldRepos.SelectedMeaning | 9-architecture/repositories/articles_db_repository.go:55-83 | an article is listed iff it is stored and matches the author and tag filters |
| RealWorldRepos.SelectedAll | 9-architecture/repositories/articles_db_repository.go:55-83 | with both filters empty every article is listed, in the visiting order |
| RealWorldRepos.ArticlesDbRepository.constructor | 9-architecture/repositories/articles_db_repository.go:17-22 | no articles |
| RealWorldRepos.ArticlesDbRepository.AddArticle | 9-architecture/repositories/articles_db_repository.go:24-53 | the new article is stored under its slug, replacing any article there |
| RealWorldRepos.ArticlesDbRepository.GetArticles | 9-architecture/repositories/articles_db_repository.go:55-83 | the loop lists the matching articles in the map's order |
| RealWorldRepos.ArticlesDbRepository.TagListed | 9-architecture/repositories/articles_db_repository.go:68-78 | the scan of an article's tags finds the requested tag exactly when the tag list holds it |
| RealWorldServer.Route | 9-architecture/handlers/realworld_api.go:33-49 | a path is unknown iff it is none of the five endpoints |
| RealWorldServer.Write | 9-architecture/handlers/realworld_api.go:51-88 | an ApiError is written with its code as {"error"}, any other error as 500, an output with its code as JSON, no output as a 500 text |
| RealWorldServer.AuthenticatedMeaning | 9-architecture/handlers/user_handler.go:97-111 | a caller is authenticated iff the header is "Token <t>" and t is bound to a user's id, and then it is that user |
| RealWorldServer.SortByCreation | 9-architecture/handlers/articles_handler.go:75-87 | the articles end up sorted by creation time and a permutation of the input |
| RealWorldServer.SwapDown | 9-architecture/handlers/articles_handler.go:75-87 | one swap of the insertion keeps the elements and moves the newer one right |
| RealWorldServer.InsertByCreation | 9-architecture/handlers/articles_handler.go:75-87 | one insertion step sorts one more element, keeping the elements |
| RealWorldServer.RealWorldApi.constructor | 9-architecture/handlers/realworld_api.go:19-25 | fresh, empty repositories |
| RealWorldServer.RealWorldApi.GetAuthenticatedUser | 9-architecture/handlers/user_handler.go:97-111 | the user the Authorization header names, if any |
| RealWorldServer.RealWorldApi.HandleUsersRequest | 9-architecture/handlers/users_handler.go:10-62 | POST only; an undecodable body is a 400 and a taken email a 409, changing nothing; otherwise a new user with a session whose token it carries, answered with 201 |
| RealWorldServer.RealWorldApi.HandleLoginRequest | 9-architecture/handlers/login_handler.go:9-54 | POST only; a wrong email or password is 401 "forbidden" with no change; otherwise a new session whose token is written on the user, answered with 200 |
| RealWorldServer.RealWorldApi.HandleLogoutRequest | 9-architecture/handlers/logout_handler.go:8-35 | POST only; an unauthenticated caller is 401; otherwise the session of the token stored on the caller's record goes |
| RealWorldServer.RealWorldApi.HandleUserRequest | 9-architecture/handlers/user_handler.go:13-95 | GET answers the caller; PUT replaces the caller by a copy with the new email, bio and update time under both indexes and rebinds its token; other methods are 400 |
| RealWorldServer.RealWorldApi.HandleArticlesRequest | 9-architecture/handlers/articles_handler.go:11-98 | POST stores an article by the authenticated caller with 201; GET lists the matching articles, oldest first, with their count; other methods are 400 |
| RealWorldServer.RealWorldApi.ServeHTTP | 9-architecture/handlers/realworld_api.go:27-66 | an unknown path is 404 "unknown endpoint", a method the endpoint does not take 400 "bad method" with nothing changed, and the reply is what Write gives |
| DbExplorer.QueryParams | 6-db-web-explorer/explorer/parse.go:12-29 | the parameters are exactly limit and offset |
| DbExplorer.QueryParamsMeaning | 6-db-web-explorer/explorer/parse.go:12-29 | a missing or non-integer limit is 5 and offset 0; an integer in the 64-bit range, negative included, is taken as it is |
| DbExplorer.QueryParamsFallback | 6-db-web-explorer/explorer/parse.go:15-18 | "limit=1'" falls back to 5 |
| DbExplorer.HttpRequest.constructor | 6-db-web-explorer/explorer/parse.go:31-64 | a request holds its path, method and body |
| DbExplorer.BodyObjectMeaning | 6-db-web-explorer/explorer/parse.go:31-64 | a body is accepted iff it decodes to an object, giving its fields; valid JSON of another kind is a 400 and undecodable text a 500 |
| DbExplorer.ParseBody | 6-db-web-explorer/explorer/parse.go:31-64 | parseBody answers BodyObject of the decoded body and puts the body back only on success |
| DbExplorer.ParseRow | 6-db-web-explorer/explorer/select_table_columns.go:74-107 | a row describes the column of its name; varchar and text read as string; nullable iff "YES", primary key iff "PRI", auto increment iff "auto_increment" |
| DbExplorer.ColumnsMapKeys | 6-db-web-explorer/explorer/select_table_columns.go:32-40 | a name is a key of the column map iff some row has it |
| DbExplorer.ColumnsMapLast | 6-db-web-explorer/explorer/select_table_columns.go:32-40 | a name holds the column of its last row |
| DbExplorer.GetTableColumnsMap | 6-db-web-explorer/explorer/select_table_columns.go:19-43 | a query error is a 500; otherwise the map of the rows' columns |
| DbExplorer.GetTableColumnsList | 6-db-web-explorer/explorer/select_table_columns.go:45-72 | a query error is a 500; otherwise one column per row, in row order |
| DbExplorer.ColumnsListInMap | 6-db-web-explorer/explorer/select_table_columns.go:19-72 | the list and the map agree on every column not shadowed by a later row of the same name |
| DbExplorer.FirstPrimaryKeyMeaning | 6-db-web-explorer/explorer/select_table_columns.go:109-118 | whatever the map's order, the result names a primary-key column when there is one, and "" otherwise |
| DbExplorer.FirstPrimaryKeyFound | 6-db-web-explorer/explorer/select_table_columns.go:111-116 | the first primary-key column met in the order is named, "" when none is met |
| DbExplorer.FirstPrimaryKeySkip | 6-db-web-explorer/explorer/select_table_columns.go:111-116 | keys that are not primary keys can be skipped |
| DbExplorer.FirstPrimaryKeyStop | 6-db-web-explorer/explorer/select_table_columns.go:112-115 | the loop's break at a primary key gives that key's name |
| DbExplorer.FindPrimaryKeyColumn | 6-db-web-explorer/explorer/select_table_columns.go:109-118 | the range loop yields FirstPrimaryKey for the order it visited |
| DbExplorer.TableOfPath | 6-db-web-explorer/explorer/middlewares.go:14-16 | "/<table>" and "/<table>/<rest>" name the table |
| DbExplorer.ValidateTable | 6-db-web-explorer/explorer/middlewares.go:11-31 | the root passes; another path passes iff its table exists, fails 404 "unknown_table" when it does not, and passes the listing error on |
| DbExplorer.ValidateTableKnown | 6-db-web-explorer/explorer/middlewares.go:11-31 | a request under "/<table>" passes iff the table exists |
| DbExplorer.CheckField | 6-db-web-explorer/explorer/middlewares.go:50-76 | a field that is not a column goes on; a rejection is a 400 on a column |
| DbExplorer.CheckFieldMeaning | 6-db-web-explorer/explorer/middlewares.go:50-76 | a field is rejected iff it is a column and either a primary key in a POST or a value neither fitting as a number, nor a null for a nullable column, nor of the column's type; a fitting number or null accepts the body |
| DbExplorer.ColumnsVerdictMeaning | 6-db-web-explorer/explorer/middlewares.go:50-77 | the loop never panics; a failure names a column field found invalid; with no invalid field the body passes in any order |
| DbExplorer.ColumnsVerdictOrderMatters | 6-db-web-explorer/explorer/middlewares.go:63-70 | since a fitting number ends the loop with success, the same body passes in one order and fails in another |
| DbExplorer.ValidateColumnTables | 6-db-web-explorer/explorer/middlewares.go:33-80 | only POST and PUT outside the root are checked; a body error or a column query error is returned; otherwise the verdict of the fields in the order the loop visits them |
| DbExplorer.CheckFields | 6-db-web-explorer/explorer/middlewares.go:50-77 | the range loop yields ColumnsVerdict for the order it visited |
| DbExplorer.ColumnsVerdictStop | 6-db-web-explorer/explorer/middlewares.go:50-77 | the first field that does not go on decides |
| DbExplorer.ColumnsVerdictSkip | 6-db-web-explorer/explorer/middlewares.go:50-77 | fields that all go on can be skipped |
| BrowserReport.Scanned | 3-profiling/fast_search.go:20-24 | the scanner yields the lines up to the first one that does not fit the 100 KiB buffer with its newline, and no further |
| BrowserReport.HitsInMeaning | 3-profiling/fast_search.go:57-61 | a target is hit iff the browser string contains it |
| BrowserReport.HitsMeaning | 3-profiling/fast_search.go:57-61 | a browser string hits some target iff it is one the report counts |
| BrowserReport.MatchedMeaning | 3-profiling/fast_search.go:48-63 | a target is matched iff some string entry of the list contains it |
| BrowserReport.SeenInMeaning | 3-profiling/fast_search.go:50-63 | a browser is seen iff it is a string entry containing a target |
| BrowserReport.MatchedBoth | 3-profiling/fast_search.go:65-67 | the length check passes iff both "Android" and "MSIE" are matched |
| BrowserReport.VisitListed | 3-profiling/fast_search.go:37-72 | a user is listed iff its browsers array has a string with "Android" and one with "MSIE" and its e-mail is a string, with its own line index; an undecodable line or a non-string e-mail of a matching user panics |
| BrowserReport.RenderSnoc | 3-profiling/fast_search.go:72 | one more listed user adds its line at the end |
| BrowserReport.LineTextMeaning | 3-profiling/fast_search.go:72 | a line starts "[<index>] ", ends the line, and the written e-mail has no "@" |
| BrowserReport.DisguiseAround | 3-profiling/fast_search.go:70 | each "@" becomes " [at] " and the text around it is kept |
| BrowserReport.ScanNext | 3-profiling/fast_search.go:33-73 | one more record after a scan without a panic adds its listing, if any, and its browsers |
| BrowserReport.ScanCrash | 3-profiling/fast_search.go:37-40 | a record that panics ends the scan with the users listed before it |
| BrowserReport.CrashIsFinal | 3-profiling/fast_search.go:37-40 | after a panic nothing more is read |
| BrowserReport.ListedIndex | 3-profiling/fast_search.go:33-72 | every listing is that of the record at its index |
| BrowserReport.ScanSeen | 3-profiling/fast_search.go:27-61 | a scan without a panic has seen what every record adds |
| BrowserReport.SeenByMeaning | 3-profiling/fast_search.go:50-61 | a record adds exactly its string entries that contain a target |
| BrowserReport.SeenAllMeaning | 3-profiling/fast_search.go:27-61 | the records together add exactly the target-containing strings some record lists |
| BrowserReport.SeenMeaning | 3-profiling/fast_search.go:75 | the total counts exactly the distinct browser strings, of any record, that contain a target |
| BrowserReport.ScannerStops | 3-profiling/fast_search.go:33 | nothing after the first too-long line is read |
| BrowserReport.ScannedPrefix | 3-profiling/fast_search.go:33 | lines that fit, followed by one that does not, are exactly those scanned |
| BrowserReport.ScannedAll | 3-profiling/fast_search.go:33 | when every line fits, every line is scanned |
| BrowserReport.ScannedOn | 3-profiling/fast_search.go:33 | a line reached by the scan that fits is scanned |
| BrowserReport.MatchBrowsers | 3-profiling/fast_search.go:48-63 | the nested loops compute the matched targets and add the seen browsers |
| BrowserReport.VisitRecord | 3-profiling/fast_search.go:34-72 | the loop body panics iff the record does, adds the record's browsers, and writes its line iff it is listed |
| BrowserReport.WriteNext | 3-profiling/fast_search.go:33-73 | after a record that does not panic, the text written is the header and the lines of the users listed so far |
| BrowserReport.CrashAt | 3-profiling/fast_search.go:37-40 | a record that panics ends the scan of all the lines after it |
| BrowserReport.CrashScan | 3-profiling/fast_search.go:33-40 | the same, for the lines the scanner reads |
| BrowserReport.PanicReport | 3-profiling/fast_search.go:31-73 | a panic leaves the header and the lines of the users listed before it, and no total |
| BrowserReport.FinalReport | 3-profiling/fast_search.go:75 | once every scanned record is through, the total completes the report |
| BrowserReport.FastSearch | 3-profiling/fast_search.go:14-76 | the report is the header, the listed users' lines in order and the number of distinct matching browsers; a panic cuts it after the last listed user |
| BrowserReport.Visit | 3-profiling/fast_search.go:37-72 | a record is listed only with its own index, a decoded user and a string e-mail (the full condition: VisitListed) |
| BrowserReport.ScanUsers | 3-profiling/fast_search.go:33-73 | the scan loop as a function of the records read; its meaning is stated by ScanNext, ScanCrash, CrashIsFinal, ListedIndex and SeenMeaning |
| Reflection.Zero | 8-reflection/i2s.go:53 | the zero value reflect.New allocates is a value of its type |
| Reflection.Convert | 8-reflection/i2s.go:17-91 | whatever i2s writes into a target of a type is a value of that type |
| Reflection.FillFields | 8-reflection/i2s.go:24-44 | the struct loop keeps the struct a value of its type |
| Reflection.AppendItems | 8-reflection/i2s.go:52-61 | the slice loop keeps the slice a value of its type |
| Reflection.ConvertSucceeds | 8-reflection/i2s.go:17-91 | i2s returns nil iff the data has the shape the type asks for: a number for an int, a string, a bool, a list of matching elements, a map holding a matching entry for every field; never for another kind |
| Reflection.FillFieldsSucceed | 8-reflection/i2s.go:24-44 | the struct loop from a field on succeeds iff every later field has a matching entry |
| Reflection.AppendItemsSucceed | 8-reflection/i2s.go:52-61 | the slice loop from an element on succeeds iff every later element matches |
| Reflection.FirstUnmatched | 8-reflection/i2s.go:24-44 | the first field the map does not match: every earlier one matches |
| Reflection.FirstMismatch | 8-reflection/i2s.go:52-61 | the first element that does not match: every earlier one matches |
| Reflection.FieldsInOrder | 8-reflection/i2s.go:24-44 | fields are filled in order up to the first unmatched one, which fails with "field not found" (untouched) or its own error wrapped (with what it wrote); later fields are untouched |
| Reflection.FillFieldsInOrder | 8-reflection/i2s.go:24-44 | the same for the loop from any field on |
| Reflection.SliceAppends | 8-reflection/i2s.go:46-61 | a slice keeps its old elements and gets the converted elements up to the first mismatch appended; that one's error comes back with its index and nothing of it is appended |
| Reflection.AppendItemsStop | 8-reflection/i2s.go:52-58 | the slice loop fails iff some element mismatches, with the first one's index and error |
| Reflection.AppendItemsShape | 8-reflection/i2s.go:52-61 | the slice loop keeps the old elements and appends each converted element before the first mismatch |
| Reflection.ExtraKeysIgnored | 8-reflection/i2s.go:24-44 | map entries that are not field names make no difference |
| Reflection.SameFields | 8-reflection/i2s.go:24-44 | maps that agree on the field names fill the same way |
| Reflection.Cell.constructor | 8-reflection/i2s.go:53 | a new variable holds its type's zero value |
| Reflection.I2s | 8-reflection/i2s.go:8-92 | a value that is not a pointer is refused with "out is not a pointer"; otherwise the variable pointed to holds what Convert writes and the error is Convert's |
| Reflection.Fill | 8-reflection/i2s.go:17-91 | the recursive body returns what Convert gives for the target's old value |

## Left out

- I/O and transport are not modelled: HTTP request and response writing, `httpClient.Do`, gRPC listeners and server start/stop, Telegram sends, file reading, and the `main` functions.
  - A handler's reply is a returned value.
  - What is sent to a Telegram chat or a player is appended to a sequence.
- Decoded JSON is an input.
  - JSON and gRPC metadata decoding become parameters: an undecodable body is `None` or an error case. The API comments of the code generator are decoded to the keys json.Unmarshal sets and a failed flag, since it keeps the keys it set before a type error.
  - Encoding failures cannot happen in the model.
- Concurrency is not modelled: goroutines, mutexes, `select` with a ticker, and blocking on unbuffered channels.
  - Channels are queues with a closed flag.
  - The admin streams read an explicit trace of events, ticks, closes and send outcomes.
  - The dialog game's input loop (`HandlePlayer` and its goroutine) is not part of this model.
- Clocks, random tokens and time-based ids are parameters.
  - RealWorld handlers take an `Env` holding the time, the id and the random bytes.
  - The middleware takes the call time.
- Go's map iteration order is unspecified. Every loop over a map takes an `order` that enumerates the keys, and results that depend on it are stated for any such order.
- Unstable sorts (`slices.SortFunc`, `sort.Slice`) are modelled as an insertion sort. The contract is what Go promises: sorted, and a permutation of the input.
- Numbers are unbounded integers, with no floating point.
  - JSON numbers are integers, so i2s's truncation of a float64 to int is not modelled.
  - strconv's 64-bit range is written out in `GoStrconv`.
- `fmt`'s `%s` rendering of a non-string JSON value in the browser report is a parameter, `show`.
- `bufio.Scanner`'s token limit is modelled as a line of `BufferSize` bytes or more ending the scan. Read errors and the panic on a missing file are not modelled.
- The async and 2-async pipelines exist to show goroutines, and one of them does not compile. They are not part of this model.
- These db explorer files are not part of this model: the SQL-bound and unfinished ones (db_explorer.go, root_handler.go, select_existing_tables.go, arbitrary_handler.go, queries/queries_map.go). The table list and column rows they would read are inputs.
- The graphql helper `getUserFromContext` is not part of this model. The current user is an `Option`, and a missing user is the `NoUser` failure.
- Go's nil and empty slices are not told apart. For example, resolvers given a nil id return the empty list.
- SearchServer.Search: when limit or offset is negative, the server writes the 400 body and carries on. Callers must meet `NonNegativePaging`, so these replies are not modelled:
  - a negative offset always panics in the slicing that follows;
  - a negative limit panics too, unless the offset lies past the last matching user; then the server writes "[]" after the error body, under the 400 status.
- AdminService.AdminService.Statistics: the panic of `time.NewTicker` is reported as `panicked`. What gRPC then does with the panicking handler is not modelled.
- GoStrconv.Quote: strconv.Quote is modelled for ASCII. Other characters are kept as they are; Go's `\u` escapes for non-printable runes and its handling of invalid UTF-8 are not modelled.
- GoStrings.LowerChar: unicode.ToLower is modelled for the capitals of ASCII, Latin-1, Greek and basic Cyrillic, and for the Kelvin, Ohm and Angstrom signs. Capitals of other scripts (Latin Extended, Armenian, Georgian, ...) are kept as they are, where Go would lower them. This affects the paramname default and the slug.
- ShopData.Window: a negative offset or limit panics in Go's slicing. Callers must meet `WindowDefined`.
- GameRules.Step: a move to an exit that has no location ("домой" from the street) crashes the game. Callers must meet `MoveDefined` (through `StepDefined`).
- GameRules.Move: the same crashing move is excluded by `requires MoveDefined`.
- DialogGame.GameHandler.HandleMove: the same crashing move is excluded by `requires MoveDefined`.
- ApiGenRuntime.CheckField: an int field with `required`, `default` or `enum` makes the generated code fail to compile. Such a field is excluded with `requires Compiles(f)`.
- The code generator's test at main_test.go:74 expects "must me not empty", while the template emits "must be not empty". The model follows the template.
- The i2s slice error is modelled as written. Its format "%dataMap" prints the index followed by the literal text "ataMap".
- Reflection.Fill: Go writes struct fields through their addresses. The model writes a new value into the target instead, so aliasing between targets is not captured.
- DialogGame.GameHandler.HandleCommand: the short-circuit of `hasItem(a) && hasItem(b)` in the look handler is computed as a value. The order of the two searches is not modelled.
- Log output and errors from writing to an `io.Writer` are not modelled.
- The *_test.go files were used as evidence of the expected messages. Their cases are stated as lemmas in `ApiGenCases`, but the tests themselves are not modelled.

## Findings

| source | as written | input that shows it | evidently intended | confidence | as-written member | corrected member |
|---|---|---|---|---|---|---|
| 4-networking/search_server.go:89-92 | a non-empty `order_field` is refused when it IS one of Id, Age, Name | `order_field=Name` gets 400 ErrorBadOrderField, while `order_field=LastName` passes and the comparator then calls every pair out of order | refuse a non-empty field that is NOT one of Id, Age, Name (the client maps this 400 to "OrderField <field> invalid") | not executed | SearchServer.RejectsOrderFieldAsWritten, SearchServer.OrderFieldCheckInverted | SearchServer.RejectsOrderField, SearchServer.OrderFieldCheckCorrected |
