# Webcrawler core in Dafny

This project models the sequential core of a small Go web crawler and proves properties of it:

- **Entity pool** (`myPool` in base/base.go): a FIFO container of idle workers and a map from worker id to "idle?". `NewPool` seeds it, `Take` checks a worker out, and `Return` checks it back in after a compare-and-set on the map.
- **Crawler error** (`myCrawlerError`): a typed message whose full text is built once and then cached.
- **Shared values**: requests, responses, items and the `Data` variants a parser may emit.
- **Channel manager** (middleware/chanmanager.go): a three-state lifecycle (uninitialized, initialized, closed). It owns four bounded channels; `Init` and `Close` change state, and the channel accessors are gated on the status.
- **Analyzer** (analyzer/analyzer.go): runs every parse function on a response and collects its data and errors. It drops nil entries and forces each emitted request's depth to one more than the response's.
- **Scheduler helpers and gating** (scheduler/schduler.go):
  - component codes (`generateCode`, `parseCode`, and the error-type switch of `sendError`)
  - the primary domain of the first request
  - the routing of analysed data to the request cache, the item pipeline and the error path
  - the stop-sign gate of `sendResp` and `sendError`
  - the ordered validation and configuration steps of `Start`

The modules follow the packages:

| module | file | contents |
|---|---|---|
| `Common` | common.dfy | `uint32`, the nil-able `Option`, and `Result` with its three outcomes (value, `error` return, panic) |
| `GoStrings` | gostrings.dfy | `strings.Split` on one character and its inverse `Join`; decimal rendering |
| `Base` | base.dfy | the shared values, `CrawlerError` and the stop sign |
| `EntityPool` | entitypool.dfy | `myPool` |
| `Middleware` | middleware.dfy | channels and the channel manager |
| `Analyzer` | analyzer.dfy | the analyzer |
| `Scheduler` | scheduler.dfy | the scheduler |

How Go constructs are modelled:

- **Channels** are a class with a capacity, a FIFO buffer and a closed flag. A send that would block, and a receive from an empty pool container, become preconditions.
- **Panics** become the `Panic` outcome of `Result`. The deferred `recover` in `Start` turns a panic into `Panic(RecoveredMsg(reason))`.
- **External components** become arguments: the results of building the downloader and analyzer pools, whether the client generator and each item processor are nil, and the parse functions themselves.
- **Objects updated in place** become classes: `Pool`, `CrawlerError`, `StopSign`, `Channel`, `ChannelManager` and `Scheduler`.
- **`Start`** is specified by pure plan functions (`BuildPlan`, `PoolsPlan`, `PipelinePlan`, `QueuePlan`, `ConfigurePlan`). Each stage method is proved to realise its plan, and the plan functions carry the lemmas.

## Model

| member | source | states |
|---|---|---|
| Common.Uint32Succ | analyzer/analyzer.go:69-71 | `respDepth + 1` on `uint32`: the successor below 2^32-1, and 0 after wrapping around |
| GoStrings.Split | scheduler/schduler.go:293 | `strings.Split` on one separator: at least one piece, no piece contains the separator, and exactly one piece iff the separator does not occur |
| GoStrings.JoinSplit | scheduler/schduler.go:293 | joining the pieces with the separator gives back the string |
| GoStrings.SplitSepFreePrefix | scheduler/schduler.go:293 | a separator-free prefix stays glued to the first piece of what follows |
| GoStrings.SplitJoin | scheduler/schduler.go:293 | splitting a join of separator-free pieces gives back the pieces |
| GoStrings.NatToString | scheduler/schduler.go:105 | `%d` renders a non-empty string of decimal digits that starts with '0' only for 0, i.e. without leading zeros, and is one digit below 10 |
| GoStrings.DecimalRoundTrip | scheduler/schduler.go:105 | reading the `%d` rendering back gives the number |
| Base.Request.HttpReq | base/base.go:21-23 | the http request the request was built with |
| Base.Request.Depth | base/base.go:24-26 | the depth the request was built with |
| Base.NewRequest | base/base.go:18-26 | the request's accessors return the http request and the depth it was built with |
| Base.Request.Valid | base/base.go:27-29 | a request is valid iff it has an http request whose URL is set |
| Base.Response.Valid | base/base.go:46-48 | a response is valid iff it has an http response whose body is set |
| Base.Response.HttpResp | base/base.go:40-42 | the http response the response was built with (the source names this accessor `HttpReq`) |
| Base.Response.Depth | base/base.go:43-45 | the depth the response was built with |
| Base.NewResponse | base/base.go:37-45 | the response's accessors return the http response and the depth it was built with |
| Base.FullErrMsg | base/base.go:90-100 | the layout of the rendered message: the "Crawler Error:" prefix, then the type and ": " only when the type is non-empty, then the message and a final newline; also its length |
| Base.TypedMessageLayout | base/base.go:92-96 | in a typed message the type sits right after the prefix, followed by ':' |
| Base.FullErrMsgInjective | base/base.go:90-100 | two typed messages whose types contain no ':' are equal only when type and message both agree |
| Base.CrawlerError.constructor | base/base.go:101-103 | `NewCrawlerError` keeps type and message and starts with an empty cache |
| Base.CrawlerError.Type | base/base.go:81-83 | the type fixed at construction; once the message is rendered, a non-empty type stands right after the "Crawler Error:" prefix |
| Base.CrawlerError.GenFullErrMsg | base/base.go:90-100 | the buffer it builds and caches is exactly `FullErrMsg(type, message)` |
| Base.CrawlerError.Error | base/base.go:84-89 | returns the full message and leaves it in the cache, whether or not it was cached before |
| Base.ErrorIsCached | base/base.go:84-89 | two calls of `Error()` give the same text, which stays cached |
| Base.StopSign.constructor | base/base.go:117-125 | a new stop sign is not signalled and has dealt nothing |
| Base.StopSign.Sign | base/base.go:118 | raises the sign and reports whether this call raised it |
| Base.StopSign.Signed | base/base.go:119 | whether the sign is raised, the flag that `Sign` raises and `Reset` lowers |
| Base.StopSign.Reset | base/base.go:120 | lowers the sign and clears what was dealt |
| Base.StopSign.Deal | base/base.go:121 | records the code exactly when signalled; the flag is unchanged |
| EntityPool.Pool.Make | base/base.go:199-206 | the pool holds the given total, type, container and id map |
| EntityPool.Pool.Take | base/base.go:137-144 | pops the front entity, marks its id checked out, keeps the pool invariant, and keeps the exact invariant (distinct ids, idle ids marked idle, idle plus checked out equals total) |
| EntityPool.Pool.OptIdContainer | base/base.go:169-181 | the compare-and-set: -1 for an unknown id, 0 for a mark other than the old value, 1 on success; the map changes only on success and the container never |
| EntityPool.Pool.Return | base/base.go:151-168 | each error case (nil, foreign type, unknown id, id already idle) gives its message and changes nothing; success exactly for a checked-out id of the pool's type, which is appended and marked idle; both invariants are kept |
| EntityPool.NewPool | base/base.go:184-207 | a zero total, or a generated entity of another type, gives its error and no pool; otherwise `total` entities in generation order, every id marked idle, the map's keys are the idle ids, and the exact invariant holds iff the generated ids are distinct; the wrong-type error is `WrongTypeMsg`, the `Sprintf` of base/base.go:194 |
| EntityPool.Pool.Total | base/base.go:145-147 | the total fixed at construction, at least 1 in any reachable pool |
| EntityPool.Pool.Used | base/base.go:148-150 | the length of the container, i.e. the idle entities; with the checked-out ids it never exceeds the total |
| EntityPool.UsedIsIdleCount | base/base.go:145-150 | `Used()` counts the idle entities: with the checked out ones it adds up to `Total()`, and it equals `Total()` iff nothing is checked out |
| EntityPool.TakeThenReturn | base/base.go:137-168 | taking an entity and returning it succeeds; the container is the same multiset with the entity moved to the back, and the id map is restored |
| EntityPool.ReturnTwice | base/base.go:163-164 | returning a checked-out entity twice succeeds the first time and reports "already in the pool" the second |
| Middleware.Channel.constructor | middleware/chanmanager.go:57-60 | `make(chan T, cap)`: empty, open, with that capacity |
| Middleware.Channel.Send | scheduler/schduler.go:276 | appends to the buffer when the channel is open and has room |
| Middleware.Channel.Close | middleware/chanmanager.go:70-73 | closes the channel and keeps the buffered values |
| Middleware.ChannelManager.constructor | middleware/chanmanager.go:37-46 | the zero value: uninitialized, length 0, no channels |
| Middleware.ChannelManager.Init | middleware/chanmanager.go:47-63 | refuses iff already initialized and `reset` is false, and then changes nothing; otherwise four fresh empty channels of the given capacity, that length, and the initialized status, from any status including closed |
| Middleware.ChannelManager.Install | middleware/chanmanager.go:56-62 | the assignments of `Init`: the given channels, the length and the initialized status satisfy the manager invariant |
| Middleware.ChannelManager.Close | middleware/chanmanager.go:64-76 | succeeds iff initialized, then closes all four channels with their buffers kept and sets the closed status; otherwise changes nothing |
| Middleware.StatusName | middleware/chanmanager.go:24-28 | the labels as written: a closed manager is named "uninitialized", an uninitialized one "closed", an initialized one "initialized" |
| Middleware.ChannelManager.ChannelLen | middleware/chanmanager.go:119-123 | the recorded length; 0 exactly while the manager is uninitialized |
| Middleware.ChannelManager.Status | middleware/chanmanager.go:124-128 | the recorded status; initialized exactly when the status check passes |
| Middleware.ChannelManager.CheckStatus | middleware/chanmanager.go:77-86 | no error iff initialized |
| Middleware.ChannelManager.ReqChan | middleware/chanmanager.go:87-94 | the open request channel iff initialized, else the status error |
| Middleware.ChannelManager.RespChan | middleware/chanmanager.go:95-102 | the open response channel iff initialized, else the status error |
| Middleware.ChannelManager.ItemChan | middleware/chanmanager.go:103-110 | the open item channel iff initialized, else the status error |
| Middleware.ChannelManager.ErrorChan | middleware/chanmanager.go:111-118 | the open error channel iff initialized, else the status error |
| Middleware.NewChannelManager | middleware/chanmanager.go:135-142 | an initialized manager with fresh empty channels, of length 50 when asked for 0 and of the requested length otherwise |
| Middleware.Lifecycle | middleware/chanmanager.go:47-118 | accessors fail before `Init`; `Close` before `Init` is refused; a second `Init` without reset is refused; accessors serve after `Init` and fail after `Close`, whose status is named "uninitialized"; a second `Close` is refused; a closed manager re-initializes |
| Analyzer.CollectedData | analyzer/analyzer.go:46-51 | what one parser's data list contributes: no more items than entries, and every non-request item is one of the entries |
| Analyzer.CollectedErrors | analyzer/analyzer.go:52-56 | what one parser's error list contributes: no more errors than entries, each of them one of the entries |
| Analyzer.LoopData | analyzer/analyzer.go:41-58 | the data after the parser loop; none when every parser is nil |
| Analyzer.ParserData | analyzer/analyzer.go:46-51 | one step of the parser loop for data: nothing for a nil parser, otherwise one datum per non-nil entry of the parser's data list |
| Analyzer.ParserErrors | analyzer/analyzer.go:42-56 | one step of the parser loop for errors: for a nil parser exactly the error `NilParserMsg(i)`, which renders the `Sprintf` of line 43 with the index; otherwise one error per non-nil entry of the parser's error list |
| Analyzer.LoopErrors | analyzer/analyzer.go:41-58 | the errors after the parser loop; at least one per nil parser |
| Analyzer.AnalyzeResult | analyzer/analyzer.go:28-60 | the reference result of `Analyze`: past the two nil checks, every request has depth `respDepth + 1`, the data number the non-nil data of the non-nil parsers, and the errors one per nil parser plus the non-nil errors of the others |
| Analyzer.Normalized | analyzer/analyzer.go:61-74 | nil data are dropped, non-request data are kept unchanged, and a request is kept with its http request at depth `respDepth + 1` |
| Analyzer.AppendDataList | analyzer/analyzer.go:61-74 | the list grows by one exactly for non-nil data, keeping its prefix, and the new element is the normalized datum |
| Analyzer.AppendErrorList | analyzer/analyzer.go:75-80 | nil errors are dropped and non-nil ones appended |
| Analyzer.Analyzer.constructor | analyzer/analyzer.go:81-83 | `NewAnalyzer` has id 0 |
| Analyzer.Analyzer.Id | analyzer/analyzer.go:25-27 | always 0 |
| Analyzer.Analyzer.Analyze | analyzer/analyzer.go:28-60 | returns exactly `AnalyzeResult`: the two nil checks first, then the data and errors collected parser by parser |
| Analyzer.RunParsers | analyzer/analyzer.go:41-58 | the parser loop ends with exactly `LoopData` and `LoopErrors` of the whole list |
| Analyzer.AppendAllData | analyzer/analyzer.go:46-50 | the inner data loop appends `CollectedData` of the parser's list |
| Analyzer.AppendAllErrors | analyzer/analyzer.go:52-56 | the inner error loop appends `CollectedErrors` of the parser's list |
| Analyzer.CollectedDataSnoc | analyzer/analyzer.go:46-50 | proof helper: one more datum appends its normalized form |
| Analyzer.CollectedErrorsSnoc | analyzer/analyzer.go:52-56 | proof helper: one more error is appended if non-nil |
| Analyzer.LoopErrorsSnoc | analyzer/analyzer.go:41-57 | proof helper: one more parser appends its errors, with the index of its position for a nil parser |
| Analyzer.CollectedDataShape | analyzer/analyzer.go:46-74 | one parser's data: as many as its non-nil entries, every request at depth `respDepth + 1` |
| Analyzer.CollectedDataOrigins | analyzer/analyzer.go:61-74 | every request in one parser's data carries the http request of a request among that parser's entries |
| Analyzer.CollectedErrorsConcat | analyzer/analyzer.go:52-56 | the error loop keeps its entries' order: it distributes over concatenation |
| Analyzer.CollectedErrorsCount | analyzer/analyzer.go:52-80 | one parser's errors: as many as its non-nil entries |
| Analyzer.ChildDepthsConcat | analyzer/analyzer.go:41-59 | requests at the child depth in two lists stay so in their concatenation |
| Analyzer.LoopShape | analyzer/analyzer.go:41-59 | over all parsers: every request has depth `respDepth + 1`, and the data are as many as the non-nil data of the non-nil parsers |
| Analyzer.LoopErrorCount | analyzer/analyzer.go:41-59 | over all parsers: one error per nil parser plus each non-nil parser's non-nil errors |
| Analyzer.LoopDataSnoc | analyzer/analyzer.go:41-59 | proof helper: one more parser appends its data at the end |
| Analyzer.LoopDataConcat | analyzer/analyzer.go:41-59 | data keep parser order: the data of two parser lists in a row are those of the first followed by those of the second |
| Analyzer.NilParserAddsOneError | analyzer/analyzer.go:42-45 | a nil parser adds no data and exactly one error naming its index; that error is `NilParserMsg(i)`, the `Sprintf` of line 43 |
| Analyzer.NormalizedKeepsValid | analyzer/analyzer.go:69-72 | a request rebuilt at depth `respDepth + 1` keeps its http request, so it is valid iff the original was |
| Analyzer.ValidResponseIsParsed | analyzer/analyzer.go:28-60 | a valid response passes both nil checks, so a parser list is run in full |
| Analyzer.AnalyzeRejectsNil | analyzer/analyzer.go:29-35 | a nil parser list or a nil http response gives no data and exactly one error |
| Scheduler.RuneString | scheduler/schduler.go:290 | `string(id)` is one character: the code point itself when it is a scalar value, else U+FFFD; it is a colon iff id is 58 |
| Scheduler.GenerateCode | scheduler/schduler.go:288-291 | the code, a colon, then the rune of the id |
| Scheduler.ParseCode | scheduler/schduler.go:292-298 | the colon-split pieces when the code has a colon, else `["NONE", "0"]`; always at least two pieces |
| Scheduler.ParseGenerateCode | scheduler/schduler.go:288-298 | for a colon-free component code, parsing a generated code gives back the component code first: `[code, rune]`, or `[code, "", ""]` when the rune is itself a colon |
| Scheduler.ErrorTypeOf | scheduler/schduler.go:250-259 | downloader, analyzer and item pipeline prefixes map to their error types; every other prefix to the empty type |
| Scheduler.CodeErrorType | scheduler/schduler.go:250-259 | the error type of a code is empty or one of the three categories, and empty for a code without a colon |
| Scheduler.GeneratedCodeErrorType | scheduler/schduler.go:250-298 | a generated code is classified as its component code, whatever the id |
| Scheduler.DownloaderCodeErrorType | scheduler/schduler.go:250-254 | downloader codes carry the download error type |
| Scheduler.AnalyzerCodeErrorType | scheduler/schduler.go:250-256 | analyzer codes carry the analyzer error type |
| Scheduler.ItemPipelineCodeErrorType | scheduler/schduler.go:250-258 | item pipeline codes carry the item processor error type |
| Scheduler.SchedulerCodeErrorType | scheduler/schduler.go:250-259 | the bare scheduler code, having no colon, parses as `["NONE", "0"]` and has no error type |
| Scheduler.AnalyzerCodesCoincide | analyzer/analyzer.go:25-27 | all analyzers get the same code from `generateCode(ANALYZER_CODE, Id())`, "analyzer:" followed by U+0000 |
| Scheduler.GetPrimaryDomain | scheduler/schduler.go:311-323 | an error iff the host has no dot; a panic iff it has exactly two labels and the last is "cn"; otherwise the last two labels |
| Scheduler.PrimaryDomainOfLabels | scheduler/schduler.go:311-323 | for dot-free labels, the primary domain of their join is the last two labels, except the panic of a two-label ".cn" host |
| Scheduler.PrimaryDomainOfSplit | scheduler/schduler.go:311-323 | proof helper: the result depends on the host only through its labels |
| Scheduler.PrimaryDomainIdempotent | scheduler/schduler.go:311-323 | a primary domain not ending in "cn" is its own primary domain |
| Scheduler.PrimaryDomainRejects | scheduler/schduler.go:315-319 | "localhost" is not a domain, and "example.cn" panics |
| Scheduler.Route | scheduler/schduler.go:163-177 | every datum goes to exactly one sink: requests, items and the rest add up to the list's length |
| Scheduler.RouteSnoc | scheduler/schduler.go:168-175 | proof helper: one more datum goes to the sink of its kind, at the end |
| Scheduler.RouteMembers | scheduler/schduler.go:163-177 | a request, item or other value reaches its sink iff it occurs in the data list |
| Scheduler.RouteConcat | scheduler/schduler.go:164-176 | every sink keeps list order |
| Scheduler.RoutedRequestsAreChildren | scheduler/schduler.go:162-170 | every request `analyze` caches has depth one more than its response's |
| Scheduler.RouteAll | scheduler/schduler.go:163-177 | the routing loop delivers exactly `Route` of the data list |
| Scheduler.FirstNil | scheduler/schduler.go:103-107 | none iff every processor is present; otherwise an index of a nil processor with none before it |
| Scheduler.CheckProcessors | scheduler/schduler.go:103-107 | the loop finds exactly the first nil processor |
| Scheduler.BuildPlan | scheduler/schduler.go:85-99 | succeeds iff the generator is present and both pools are built; the downloader pool is recorded once built, the analyzer pool only on success, and nothing else changes; a nil generator fails with "The http generate list is invalid!", a failed downloader or analyzer pool with its own wrapped message, a panicking one with the recovered message; `DownloaderPoolMsg` and `AnalyzerPoolMsg` render the `Sprintf` calls of lines 90 and 96, and `RecoveredMsg` the one of line 66 |
| Scheduler.PoolsPlan | scheduler/schduler.go:78-99 | succeeds iff the pool size is positive and the pool stage succeeds; the length is always recorded, size and depth with a positive size; a manager is built iff the size is positive; cache, domain, running flag and URL map are untouched; a zero size fails with "The pool size can not be 0!", any other failure is the pool stage's; a zero size leaves every field but the length as it was |
| Scheduler.QueuePlan | scheduler/schduler.go:121-130 | succeeds iff there is a first request whose host has a primary domain, and then records the domain and appends the request at depth 0; on failure nothing changes; a nil request fails with "The firstHttpReq is invalid!", a host error is passed on, a panic is recovered |
| Scheduler.PipelinePlan | scheduler/schduler.go:100-130 | the stop sign is armed iff the processor list is present with no nil processor, and then the pipeline is installed and the URL map cleared; success additionally needs the queue stage to succeed, whose result it then returns; otherwise nothing changes; a nil list fails with "The item processor list is invalid!", a nil processor with the message that names the first nil index; `NilProcessorMsg` renders the `Sprintf` of line 105 with the index |
| Scheduler.ConfigurePlan | scheduler/schduler.go:78-130 | a manager is built iff the pool size is positive; the length is recorded and the running flag untouched; the stop sign is armed only after the pool stage succeeded; the result is the pool stage's failure, or else the pipeline stage's result |
| Scheduler.ConfigureErrorOrder | scheduler/schduler.go:78-130 | the checks in the order they run (pool size, generator, downloader pool, analyzer pool, processor list, each processor, first request, its host), each failing one with the exact error it returns, and success when all pass |
| Scheduler.Scheduler.constructor | scheduler/schduler.go:41-43 | `NewScheduler`: all fields zero, no manager, no stop sign |
| Scheduler.Scheduler.RecordArgs | scheduler/schduler.go:78-84 | records the length, refuses a zero pool size, records size and depth, and builds a fresh initialized manager of that length with four empty channels |
| Scheduler.Scheduler.BuildPools | scheduler/schduler.go:85-99 | realises `BuildPlan`: a nil generator or a failed pool stops with its message, each pool is installed only once it is built |
| Scheduler.Scheduler.InstallPools | scheduler/schduler.go:78-99 | realises `PoolsPlan`; a manager it builds is fresh, initialized and empty |
| Scheduler.Scheduler.QueueFirstRequest | scheduler/schduler.go:121-130 | realises `QueuePlan`: a nil request, a host that is not a domain, or the ".cn" panic stops; otherwise the primary domain is recorded and the request queued at depth 0 |
| Scheduler.Scheduler.InstallItemPipeline | scheduler/schduler.go:108-114 | installs the pipeline, arms a stop sign (a fresh one the first time, the old one reset afterwards) and clears the URL map |
| Scheduler.Scheduler.InstallPipeline | scheduler/schduler.go:100-130 | realises `PipelinePlan`: a nil processor list, then the first nil processor, stops with its message; otherwise the pipeline and the first request |
| Scheduler.Scheduler.Configure | scheduler/schduler.go:78-130 | realises `ConfigurePlan`; a manager it builds is fresh, initialized and empty |
| Scheduler.Scheduler.MarkRunning | scheduler/schduler.go:74 | sets the running flag and nothing else |
| Scheduler.Scheduler.Start | scheduler/schduler.go:61-132 | a running scheduler is refused unchanged; otherwise the running flag is set first, then a zero channel-length field is refused, and then configuration follows `ConfigurePlan`, any manager it builds being fresh, initialized and empty |
| Scheduler.Scheduler.StartChecked | scheduler/schduler.go:71-132 | `Start` with the length check on the argument; see Findings |
| Scheduler.Scheduler.SendResp | scheduler/schduler.go:271-278 | while signalled, the code is dealt, the response dropped and false returned; otherwise the response is appended and true returned, or the status error panics for a manager that is not initialized |
| Scheduler.Scheduler.SendError | scheduler/schduler.go:246-270 | a real error returns false at once, and a nil one panics on `err.Error()` |
| Scheduler.Scheduler.SendErrorChecked | scheduler/schduler.go:246-270 | `sendError` with the guard corrected; see Findings |
| Scheduler.ConfigureSucceeds | scheduler/schduler.go:78-130 | configuration succeeds iff every check passes in turn; it then leaves all arguments recorded, all components installed, an empty URL map, the primary domain, and the first request at depth 0 after the cached ones |
| Scheduler.ConfigureFailure | scheduler/schduler.go:78-130 | a failed configuration queues nothing and keeps the primary domain and the running flag; a manager is built iff the pool size was accepted, and the stop sign is armed iff the processor checks passed |
| Scheduler.FreshSchedulerNeverStarts | scheduler/schduler.go:71-77 | on a fresh scheduler, as written, the first `Start` fails on the channel length and every later one is refused as already started, whatever the arguments |
| Scheduler.FreshSchedulerStarts | scheduler/schduler.go:71-132 | with the argument checked, valid arguments start a fresh scheduler with the arguments recorded, the request cached at depth 0 and a fresh, initialized, empty manager of the requested length |

## Behaviours the names do not suggest

The model follows the code. Several behaviours differ from what the names suggest (a `Used` count of checked-out entities, say):

- **`Used()`** returns the number of idle entities, not the number checked out (`EntityPool.UsedIsIdleCount`).
- **`getPrimaryDomain`'s ".cn" branch** computes a value that is always overwritten. With three or more labels, a ".cn" host gets its last two labels like any other host. A two-label ".cn" host such as "example.cn" makes `tokens[l-3]` index -1 and panics (`Scheduler.PrimaryDomainRejects`).
- **`sendError`'s guard is inverted** (Findings).
- **`Start` validates in an odd order.** It sets `running` before any check, and it checks the channel-length field rather than the argument (Findings). The field is 0 on every fresh scheduler.
- **`Analyzer.Id()` is always 0.** Since `string(id)` is a rune conversion and not a decimal rendering, every analyzer code is "analyzer:" followed by U+0000.
- **A closed channel manager can be initialized again** (`Middleware.Lifecycle`).
- **`statusNameMap` swaps the labels** of the closed and uninitialized states, so the status error of a closed manager says "uninitialized" (`Middleware.StatusName`).
- **`analyze` ignores the analyzer's error list**; only the data are routed.
- **`Start` never validates `respParses`**; it only hands the list to the analyzers.
- **The depth of an emitted request** is `respDepth + 1` on `uint32`, which wraps to 0.
- **`s.reqCache` is not a field of the struct** (the field is commented out), so the code as given does not compile. The model gives the scheduler a `reqCache` sequence to stand for the request cache.
- **`logrus.Fatal` in the deferred `recover` of `Start` exits the process** before the error is assigned. The model returns the formatted message as a `Panic` outcome.
- **`generateAnalyzerPool` passes a nil generator** to `NewAnalyzerPool`, which calls it and panics. The downloader pool likewise gets a nil generator. Because the pool constructors are outside this model, their outcomes are arguments of `Start`. The model therefore covers the panic as well as the other outcomes.

## Left out

- Goroutines and blocking: `startDownloading`, `activateAnalyzers` and the asynchronous error send are sequential or absent. A send that would block, or a receive from an empty container, is a precondition.
- Mutexes: none; the model is sequential.
- `Summary` of the channel manager and of the stop sign: formatting only, and the manager's call is malformed.
- `reflect.Type` comparisons: each entity carries an abstract `Kind` tag.
- `download`, the downloaders, the parse functions and `net/http`: these are external. Parse functions are pure functions, and http requests and responses keep only the fields the core reads.
- `saveReqToCache` and `sendItem` are not part of this model. Routed requests and items are collected as abstract sinks (`Scheduler.Route`).
- The stop sign's implementation is not part of this model. `StopSign` keeps the flag and the list of dealt codes; `DealCount` and `DealTotal` are left out.
- The analyzer pool wrapper (`myAnalyzerPool`, `NewAnalyzerPool`) and its type-assertion panic; its outcome is an argument of `Start`.
- The id generator of the downloader and analyzer ids: there is no source for it.
- The rendering of `%T` and `%v` in the unsupported-data error: each such value is kept as a tag.
- Item.Valid (base/base.go:53-55): the `Data` interface's check for items; nothing in this core calls it, and an item is routed whether or not it is valid.
- Logging, including the `logrus.Infof` info log of `Analyze` at analyzer/analyzer.go:37.
- The nil dereference of `httpResp.Request.URL` at analyzer/analyzer.go:36: the modelled response has no request field, so `Analyze` never panics there.
- EntityPool.Pool.Take: the "The inner container is invalid!" error at base/base.go:139-141 is not modelled, because nothing in this core closes the container; a receive from an empty container would block, so `Take` requires a non-empty one.
- Strings are sequences of characters, not Go's UTF-8 bytes: `RuneString` yields one character and the length of `FullErrMsg` counts characters. No property depends on this, since only the ASCII ':' and '.' are split on.
- Pointer identity of requests and responses: they are values.
- Go's `uint` width for channel lengths: it is a `nat`. The zero check is the only one the source makes.
- downloader/downloader.go and itempipeline/itempipeline.go: interface declarations with no behaviour.
- The scheduler interface's `Stop`, `Running`, `ErrorChan`, `Idle` and `Summary` have no implementation in the source.
- Middleware.ChannelManager.Init: a zero length panics in the source; the model requires a positive length instead.
- Scheduler.Scheduler.SendErrorChecked: the goroutine of `sendError` is modelled as an immediate send, so the model requires room in the error channel.
- Scheduler.Scheduler.SendResp: a full response channel would block, so the model requires room.

## Findings

| source | as written | input that shows it | evidently intended | confidence | as-written member | corrected member |
|---|---|---|---|---|---|---|
| scheduler/schduler.go:75-77 | `Start` checks the field `s.channelLen`, which is 0 until line 78 assigns it, and it sets `running` before checking | any call on a fresh scheduler, e.g. `Start(10, 5, 3, …)` with valid arguments: it returns "The channel max length (cap) can not be 0!" and every later call returns "The scheduler is started!" | check the argument `channelLen`, so a fresh scheduler with valid arguments starts | not executed | Scheduler.Scheduler.Start, Scheduler.FreshSchedulerNeverStarts | Scheduler.Scheduler.StartChecked, Scheduler.FreshSchedulerStarts |
| scheduler/schduler.go:247-249 | `if err != nil { return false }` drops every real error; a nil error goes on to `err.Error()` and panics | `sendError(errors.New("x"), "downloader:\x01")` returns false, and nothing reaches the error channel | `if err == nil { return false }`, so a real error becomes a typed crawler error that is dealt to the stop sign or sent on the error channel | not executed | Scheduler.Scheduler.SendError | Scheduler.Scheduler.SendErrorChecked |
