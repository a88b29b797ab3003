# A Dafny model of VllmRoute

VllmRoute routes inference requests from many clients to a fleet of vLLM backends. This project models
its three stateful parts and proves what they keep over every run.

* **The shared scheduler** (`node/vllm-client`). Requests pass admission control into a priority queue
  (`PriorityQueue`, `Metrics`). Any number of callers and workers interleave on the queue (`Scheduler`).
  A worker picks an endpoint (`Router`), each endpoint has a circuit breaker (`Endpoint`), the breaker is
  specified over the history of outcomes (`BreakerHistory`), and all endpoint objects live together
  across reloads (`Fleet`). The worker then runs attempts (`RetryLoop`) and reads the streamed answer
  (`StreamFraming`). `Service` puts queue, endpoints and retry loop together. Prompts may arrive as indexed
  chunks (`StreamInput`), delivered by calls that interleave (`StreamCalls`).
* **The reactor** (`network`). A functor queue with an eventfd wakeup (`EventLoop`), the sending half of a
  connection (`TcpConnection`), a compacting buffer (`Buffer`) and the poller's bookkeeping (`Poller`).
* **The unit registry** (`unit-manager`). Two ports per unit, given back by parsing them out of the
  unit's URLs (`PortRegistry`, with `Decimal` for the numbers).

Each component follows one pattern. The mutable objects are classes, and their methods are proved equal to
specification functions of the old state: to the step of a state machine where the component has one
(`EventLoop`, `TcpConnection`, `Poller`, `Buffer`, `PortRegistry`), or to the functions that such a step uses
(`PriorityQueue`, `Metrics`, `Endpoint`, `Router`, `StreamFraming`, `StreamInput`). Runs are sequences of
steps, so every interleaving of threads is a run. Invariants are proved per step, then for every run from the
initial state, and the main results are read off them. `Sequences` holds the shared helpers.
`dafny verify dfyconfig.toml` checks everything.

## Where the code does not do what one would expect

Each point names a lemma with a concrete input or a run from the initial state, and a lemma with the exact
condition for all inputs.

* With degrading forbidden, a degraded alias listed later makes the router forget the endpoint that serves
  the very model asked for (`Router.BlockedAliasHidesModel`). What the pass returns in every case, and when
  it ends empty, is exact (`Router.PickIsSurvivor`, `Router.PickNone`, `Router.PickExact`).
* A completion that was sent before the circuit opened frees the half-open probe slot: a run puts two probes
  in flight (`Fleet.StaleCompletionFreesProbe`). The bound is one request more than were in flight when the
  circuit became half open (`Fleet.InflightConserved`), and it is reached exactly when the limit allows
  (`Fleet.ProbeBoundAttained`).
* The single probe is per endpoint object: a run probes the same backend twice across a reload
  (`Fleet.ReloadAllowsSecondProbe`). The successor is ready for a probe exactly when its predecessor is half
  open (`Fleet.SuccessorProbes`).
* A backend's own error text may read like the deadline's and count as a timeout
  (`RetryLoop.BackendTextCountsAsTimeout`); the exact condition is on what the attempts observe
  (`RetryLoop.TimeoutExactly`).
* A functor queued by the loop's own thread outside `loop()` wakes nobody (`EventLoop.EarlyPushSleeps`); the
  first poll of a call is woken exactly when the loop was awake already or another thread has queued or
  called quit since (`EventLoop.FirstPoll`).
* A shutdown queued before a close and run after it finds unsent bytes
  (`TcpConnection.LateShutdownLeavesBytes`); until a close none does, and after one it depends on what was
  left (`TcpConnection.ShutdownAfterDrain`).
* `shutdown` and `forceClose` test the state and then set it, without a lock. A close in between leaves the
  state open again, with bytes unsent (`TcpConnection.LateSetLeavesBytes`), and closes the connection twice
  (`TcpConnection.LateSetClosesTwice`). Exactly such a late set makes the state untrue
  (`TcpConnection.AgreesStep`, `TcpConnection.StateTellsTruth`).
* Of two calls that hold one input stream, the later one may store its chunk after the other has finished and
  erased the stream: its client is told to go on, and the chunk is lost (`StreamCalls.ChunkLost`). Waiting
  chunks are lost exactly when their stream has left the table and no finishing call holds it
  (`StreamCalls.LostExactly`).
* Settings share the table with units: two steps lose two ports (`PortRegistry.SettingLosesPorts`). In every
  run the ports lost are twice the settings that hit a live unit's key (`PortRegistry.PortsConserved`).

A comment in `network/src/Buffer.cc` speaks of 128k-1 bytes; the second read vector has 1 MB, and the model
follows the code.

## Model

| member | source | states |
|---|---|---|
| PriorityQueue.BestIn | node/vllm-client/src/main.cpp:1576-1590 | the best-in-class search finds nothing exactly when the class is empty, and otherwise the request that none of its class overtakes, the earliest queued among equals |
| PriorityQueue.ScanProgress | node/vllm-client/src/main.cpp:1610-1620 | from any cursor the slot walk finds a request if a class waits; that class is served or its turn comes strictly closer |
| PriorityQueue.PopServesSchedule | node/vllm-client/src/main.cpp:1592-1633 | a pop of a non-empty queue finds its request through the schedule, so the fallback to the queue front is unreachable; it removes exactly the best of that request's class |
| PriorityQueue.PopTakesBest | node/vllm-client/src/main.cpp:1565-1590 | in terms of the priorities: no request of the same band as the one popped has a higher priority, or the same and an earlier task id |
| PriorityQueue.AdmissionExact | node/vllm-client/src/main.cpp:681-699 | a request is refused if and only if the queue has reached a capacity of its priority (the limit; nine tenths of it below the high threshold; the drop threshold below 4; each only if set), and with -40 if and only if the queue is full |
| PriorityQueue.RequestQueue.FindBest | node/vllm-client/src/main.cpp:1576-1590 | the loop computes the best-in-class search |
| PriorityQueue.RequestQueue.Admit | node/vllm-client/src/main.cpp:681-703 | the three refusal branches with their codes; an accepted request goes to the back, a refused one changes nothing |
| PriorityQueue.RequestQueue.PopNext | node/vllm-client/src/main.cpp:1603-1628 | the cursor loop removes the scheduled request and leaves the cursor after the slot that served it |
| Metrics.MetricsCollector.OnRequestAccepted | node/vllm-client/src/main.cpp:433-439 | counts an accepted request, adds its time and drops old times at the front |
| Metrics.TrimIsRecent | node/vllm-client/src/main.cpp:511-516 | with times in order, dropping at the front keeps exactly the times of the last minute |
| Metrics.MetricsCollector.OnQueueReject | node/vllm-client/src/main.cpp:441-446 | counts a refusal both as a reject and as a failure |
| Metrics.MetricsCollector.OnRequestFinish | node/vllm-client/src/main.cpp:448-468 | counts a finish as success, timeout and failure, or failure; counts degrading; adds the samples that exist |
| Metrics.PushSample | node/vllm-client/src/main.cpp:500-509 | keeps the last 1024 samples, and no negative ones |
| Metrics.SampledExactly | node/vllm-client/src/main.cpp:500-509 | the samples are the latest ones, all of them until there are 1024 |
| Scheduler.EveryRunKeepsLedger | node/vllm-client/src/main.cpp:642-719 | after every run each task id is in exactly one of not yet admitted, refused, pending, held by one worker, finished; the metrics add up; the queue respects its limit and the shares left to lower priorities |
| Scheduler.InvariantKept | node/vllm-client/src/main.cpp:642-719 | ledger, metrics balance and reserves are kept by every legal run from any state that has them |
| Scheduler.PartitionedStep | node/vllm-client/src/main.cpp:1592-1651 | each step moves an id from one place to another and loses or duplicates none |
| Scheduler.BalancedStep | node/vllm-client/src/main.cpp:433-468 | each step keeps accepted = pending + held + finished + dropped and success + failed = finished + rejects, up to calls between a decision and its count |
| Scheduler.MetricsCount | node/vllm-client/src/main.cpp:433-468 | over any run each counter grows by exactly the accepts, refusals, successes, timeouts and failures of the run |
| Scheduler.ReservedStep | node/vllm-client/src/main.cpp:681-703 | each step keeps at most the limit queued, at most nine tenths of it below the high threshold, and at most the drop threshold below priority 4 |
| Scheduler.HighPriorityAdmitted | node/vllm-client/src/main.cpp:681-703 | after any run, a request at or above both thresholds is refused if and only if the queue is full |
| Scheduler.AdmittedExactly | node/vllm-client/src/main.cpp:681-703 | after any run and for every priority, a request is refused if and only if the queue has reached a capacity of its priority, and otherwise waits at the back |
| Scheduler.PatienceStep | node/vllm-client/src/main.cpp:1565-1633 | any step serves a waiting request or leaves it queued, closer to its turn if the step was a pop |
| Scheduler.BoundedWaiting | node/vllm-client/src/main.cpp:1565-1633 | in any reachable state a pending request with k requests ahead in its class, none arriving ahead later, is popped within g*(k+1) pops, g being 5, 7 or 9 for its class, whatever else interleaves |
| Scheduler.ServedFollowsSchedule | node/vllm-client/src/main.cpp:1610-1620 | while all classes stay busy the classes served are the schedule read from the cursor on |
| Scheduler.NinePopsShare | node/vllm-client/src/main.cpp:1610-1620 | nine pops in a row then serve exactly five requests at or above the high threshold, three from 4 up to it and one below both, wherever the cursor stood |
| Endpoint.VllmEndpoint.IsAvailable | node/vllm-client/src/main.cpp:1876-1896 | the lookup turns an expired open circuit half open and answers by circuit, probe slot, health and limit |
| Endpoint.VllmEndpoint.Take | node/vllm-client/src/main.cpp:1964-1968 | the increments of a selection |
| Endpoint.VllmEndpoint.UpdateResult | node/vllm-client/src/main.cpp:2033-2070 | the whole effect of a request's result on the breaker, the in-flight counters, the average latency and the lifetime counters |
| Endpoint.VllmEndpoint.UpdateHealth | node/vllm-client/src/main.cpp:2403-2435 | the whole effect of a health check; it leaves the in-flight counters alone |
| Endpoint.AverageMoves | node/vllm-client/src/main.cpp:2040-2046 | the average moves a fifth of the way to a request's latency and a tenth of the way to a health check's; the first is taken as it is, and none that is not positive counts |
| BreakerHistory.LatchedSnoc | node/vllm-client/src/main.cpp:2048-2070 | a breaker specified as "some failure run reached the limit and no later success run reached recovery" moves only at a trip or a recovery |
| BreakerHistory.OutcomeRefines | node/vllm-client/src/main.cpp:2048-2070 | both updaters, different as their code is, keep streaks, health, circuit and open window equal to what the history says |
| BreakerHistory.ProbeRefines | node/vllm-client/src/main.cpp:1878-1885 | looking at an endpoint keeps that agreement, with time going on |
| BreakerHistory.NeverEarly | node/vllm-client/src/main.cpp:1876-1896 | a latched endpoint is unavailable until the open window of its latest trip is over; an unhealthy one is available only through a latched circuit |
| BreakerHistory.AvailableExactly | node/vllm-client/src/main.cpp:1876-1896 | an endpoint is available if and only if it has room and its history says so: no trip lasts and it is healthy, or the window of the latest trip is over and no probe is in flight |
| Router.PickSound | node/vllm-client/src/main.cpp:1918-1962 | whatever the pass keeps is an eligible endpoint of the list, with its own rank and score |
| Router.PickExact | node/vllm-client/src/main.cpp:1928-1961 | the single pass returns the lexicographic optimum if and only if no blocked endpoint of better rank is listed after it |
| Router.PickIsSurvivor | node/vllm-client/src/main.cpp:1918-1961 | the pass returns an endpoint if and only if no blocked one of better rank follows it and it beats every other that was not gone before it |
| Router.PickNone | node/vllm-client/src/main.cpp:1918-1961 | the pass ends empty if and only if every eligible endpoint is followed by a blocked one of better rank |
| Router.SupportedIsRanked | node/vllm-client/src/main.cpp:1754-1788 | every supporting endpoint has a finite rank, so the INT_MAX skip is never taken |
| Router.RouteOptimal | node/vllm-client/src/main.cpp:1864-1977 | with degrading allowed: null exactly when no endpoint supports, is available and fits; otherwise least rank, then greatest score, then first listed |
| Router.RouteSound | node/vllm-client/src/main.cpp:1918-1962 | in every case the endpoint returned passes every filter and is degraded only if allowed |
| Router.RouteStrict | node/vllm-client/src/main.cpp:1918-1962 | with degrading forbidden the pass finds nothing if and only if every servable endpoint that is no degraded choice is followed by a servable one that is, and of smaller rank |
| Router.SupportsExactly | node/vllm-client/src/main.cpp:1754-1788 | an endpoint supports a request by its model, by a name it lists, or, if degrading is allowed, by not coming before the model asked for in the chain |
| Router.RankExactly | node/vllm-client/src/main.cpp:1864-1874 | the rank is the first position in the chain, or 0 outside it |
| Router.FitsExactly | node/vllm-client/src/main.cpp:1923-1925 | a prompt fits if four characters a token leave room for the answer, or no limit is set |
| Router.PreferredRules | node/vllm-client/src/main.cpp:1918-1962 | in a list of any length an endpoint is not returned if a servable one of its rank is preferred to it, that is, taken from the two of them in either order |
| Router.FailuresCost | node/vllm-client/src/main.cpp:1942-1945 | of two endpoints alike, the one with k more failures in a row is passed over if and only if the other lacks less than 25k of weight; so more weight wins |
| Router.LoadCosts | node/vllm-client/src/main.cpp:1942-1943 | the same for load: its share of the limit costs up to 50 of weight |
| Router.LatencyCosts | node/vllm-client/src/main.cpp:1942-1944 | the same for average latency: 20 ms cost a tenth of a point of weight |
| Router.HalfOpenCosts | node/vllm-client/src/main.cpp:1955-1957 | the same for a half-open circuit: 30 of weight |
| Router.RoleCosts | node/vllm-client/src/main.cpp:1949-1954 | the same for roles: overflow costs 5 of weight, fallback 50 for high priorities |
| Router.StrayingCosts | node/vllm-client/src/main.cpp:1938-1948 | the same for a degraded choice: 200 of weight |
| Router.BlockedAliasHidesModel | node/vllm-client/src/main.cpp:1933-1941 | a two-endpoint list on which the pass returns nothing although the exact model is servable |
| Router.Weigh | node/vllm-client/src/main.cpp:1918-1957 | the filters of the loop body and the score, and what looking leaves behind |
| Router.Compare | node/vllm-client/src/main.cpp:1930-1961 | the rank reset, the late degrade filter and the strict score comparison |
| Router.RankAll | node/vllm-client/src/main.cpp:1912-1962 | the loop over objects, some perhaps listed twice, computes the pass on what was there before it, and only looks at each object |
| Router.SelectEndpoint | node/vllm-client/src/main.cpp:1898-1977 | the chosen object, and only it, is also incremented |
| Fleet.StepKeeps | node/vllm-client/src/main.cpp:1795-1977 | selection, report, health check, reload, sharing, creation and listing of any objects each keep in-flight = attempts held, the probe bounds and the history refinement, on every object |
| Fleet.RunKeeps | node/vllm-client/src/main.cpp:1795-2078 | so does every run |
| Fleet.InflightConserved | node/vllm-client/src/main.cpp:2033-2038 | after every run, on every object ever made: in-flight equals the attempts selected on it and not reported, so the guards never hide a missing decrement; the probe count is 0 or 1 and within it; a half-open circuit entered with nothing in flight carries at most its one probe |
| Fleet.ProbeBoundAttained | node/vllm-client/src/main.cpp:1876-1896 | after any run, the selection that finds the window of a sole open endpoint over takes it to one request more than at entry if and only if its limit allows |
| Fleet.InflightWithinLimit | node/vllm-client/src/main.cpp:1795-1894 | in every run that shares objects only before anything is selected, as the program does in its one load, every object, listed or replaced, stays within max_concurrency |
| Fleet.BreakerRefinesHistory | node/vllm-client/src/main.cpp:2015-2078 | after every run every breaker, also of replaced objects and across reloads, is what its history says |
| Fleet.SelectsNoOpenCircuit | node/vllm-client/src/main.cpp:1898-1977 | no run selects an endpoint inside the open window of its latest trip or at its limit |
| Fleet.SelectedExactly | node/vllm-client/src/main.cpp:1898-1977 | in any run an endpoint listed alone is selected for a request that suits it if and only if it has room and its history allows |
| Fleet.OldCompletionsHarmless | node/vllm-client/src/main.cpp:1692-1698 | in every run, an attempt selected before a reload that completes after it, and after any further ones, changes no listed object |
| Fleet.ReloadStartsEmpty | node/vllm-client/src/main.cpp:1842-1862 | the objects a reload lists are new and no attempt is held on them |
| Fleet.ReloadCarriesOver | node/vllm-client/src/main.cpp:1823-1862 | a reload carries over breaker, health and latency of the last listed object with the same URL and model, and starts afresh where there is none |
| Fleet.ShareReplaces | node/vllm-client/src/main.cpp:1795-1815 | taking over an object replaces its configuration but for its key, and leaves everything else |
| Fleet.SelectTouches | node/vllm-client/src/main.cpp:1918-1922 | a selection changes no object that is not listed or does not support the request, and no configuration |
| Fleet.SuccessorProbes | node/vllm-client/src/main.cpp:1823-1862 | after a reload, the successor of an object is available as a half-open probe if and only if the object, looked at then, is half open |
| Fleet.ReloadAllowsSecondProbe | node/vllm-client/src/main.cpp:1823-1862 | a run from the start that ends with two half-open probes in flight on one backend, by two objects |
| Fleet.StaleCompletionFreesProbe | node/vllm-client/src/main.cpp:2036-2038 | a run from the start in which a completion sent before the circuit opened frees the probe slot, ending with two probes in flight on one object |
| Service.PartsAgree | node/vllm-client/src/main.cpp:1635-1714 | every run of queue, workers and endpoints together is a run of the queue and a run of the endpoints, so all results above apply to it; attempts are in flight only for requests that workers hold, one each |
| Service.FinishMatchesLoop | node/vllm-client/src/main.cpp:1676-1730 | when a worker finishes, in any run, its selections and reports are as many as the retry loop makes on what they observed, within the retries; the metrics record the outcome of that loop, and the client has its complete trace |
| Service.WorkerGoesOn | node/vllm-client/src/main.cpp:1681-1714 | in every run a worker that holds a request can complete its attempt, or finish once a stop is seen |
| StreamFraming.DrainHandlesLines | node/vllm-client/src/main.cpp:1018-1027 | draining a buffer handles exactly its lines, in order, and keeps exactly what follows the last newline |
| StreamFraming.FramedOnce | node/vllm-client/src/main.cpp:1018-1027 | every text is cut into lines and a rest in exactly one way |
| StreamFraming.FeedAllHandlesLines | node/vllm-client/src/main.cpp:1012-1028 | however the bytes are cut, the reader ends as if the lines of the whole text were handled once each |
| StreamFraming.ChunkingIrrelevant | node/vllm-client/src/main.cpp:1012-1028 | two ways of cutting the same bytes give the same state, deltas and numbers |
| StreamFraming.LineSays | node/vllm-client/src/main.cpp:2212-2260 | every line has one of four meanings, by its shape and the JSON reader alone (nothing, the done marker, trouble, a text), and handling it does just that |
| StreamFraming.StreamMeans | node/vllm-client/src/main.cpp:2212-2260 | over the lines of the whole text: failed if and only if some line brings trouble, with the message of the last; done if and only if some line is the marker; emitted exactly the texts, in order |
| StreamFraming.FeedAllNumbers | node/vllm-client/src/main.cpp:2249-2255 | deltas are numbered from 0 without gaps, are never empty, and set the started flag exactly when there is one |
| StreamFraming.StreamState.WriteCallback | node/vllm-client/src/main.cpp:1012-1028 | the callback loop computes one feed |
| StreamFraming.StreamState.HandleStreamLine | node/vllm-client/src/main.cpp:2212-2260 | one line: ignored, done marker, error, or a numbered delta |
| RetryLoop.CallIsOneAttempt | node/vllm-client/src/main.cpp:2101-2178 | one attempt shows numbered deltas and a terminal message exactly when it succeeds; without streaming one text or nothing |
| RetryLoop.StreamedExactly | node/vllm-client/src/main.cpp:2149-2170 | a streamed attempt is ok if and only if the transfer succeeded with a 2xx status and no line brings trouble; it shows the texts of the lines, then the finish if ok, and gives this error otherwise |
| RetryLoop.WholeExactly | node/vllm-client/src/main.cpp:2154-2177 | an attempt that is not streamed is ok if and only if a successful 2xx body holds a text, and shows that text and nothing else |
| RetryLoop.OutputIsLastAttempts | node/vllm-client/src/main.cpp:1681-1714 | all output of the loop comes from its last attempt: every earlier one showed nothing and failed |
| RetryLoop.AttemptsBounded | node/vllm-client/src/main.cpp:1681-1714 | at most max(0, max_retries + 1) attempts |
| RetryLoop.LoopExactly | node/vllm-client/src/main.cpp:1681-1714 | the loop ends after some number of quiet attempts, and with the result that the next observation says |
| RetryLoop.FailureTold | node/vllm-client/src/main.cpp:1681-1729 | when a request succeeds, how many attempts it makes, and the very message and code that the client is told otherwise |
| RetryLoop.StopDrops | node/vllm-client/src/main.cpp:1716-1729 | a stop takes away the last message and the outcome of a request that does not succeed, and nothing else |
| RetryLoop.ClientTrace | node/vllm-client/src/main.cpp:1653-1730 | with output enabled every request yields deltas 0..n-1 and one finish numbered n or one error, or one text or one error; a stop can only cut off the final message |
| RetryLoop.SilentTrace | node/vllm-client/src/main.cpp:2262-2274 | with output disabled the attempts show nothing |
| RetryLoop.TimeoutExactly | node/vllm-client/src/main.cpp:1716-1727 | a failure counts as a timeout if and only if, after some number of attempts that all ran, failed and showed nothing, the deadline check comes first, or retries or a stop end the loop and the last attempt's own error is the deadline's text |
| RetryLoop.BackendTextCountsAsTimeout | node/vllm-client/src/main.cpp:1716-1727 | a backend message that reads like the deadline's is counted as a timeout although no deadline check ever holds |
| RetryLoop.Receive | node/vllm-client/src/main.cpp:2134-2142 | pieces go to the stream callback or are concatenated |
| RetryLoop.CallBackend | node/vllm-client/src/main.cpp:2101-2178 | the order of the checks on handle, transport, status, stream and body |
| RetryLoop.RunAttempts | node/vllm-client/src/main.cpp:1677-1714 | the loop with its four ways out computes the attempts |
| RetryLoop.HandleRequest | node/vllm-client/src/main.cpp:1676-1730 | the final message and outcome after the loop |
| StreamInput.ReceiveAccounts | node/vllm-client/src/main.cpp:3050-3077 | the byte counter always equals the bytes stored, so its subtraction never underflows, and no stored stream exceeds the limits |
| StreamInput.SizedUnique | node/vllm-client/src/main.cpp:3053-3059 | a set of stored chunks has one total size, so agreeing with the counter means being exact |
| StreamInput.GapExact | node/vllm-client/src/main.cpp:3079-3091 | counting up to the number of chunks finds a gap if and only if the indices are not 0..n-1 |
| StreamInput.StreamAssembles | node/vllm-client/src/main.cpp:3037-3091 | in any arrival order with the finishing chunk last: done exactly when the indices are 0..n-1, and then the text is the last write of each index, each right after the bytes of those before it, and nothing else; otherwise the least missing index |
| StreamInput.ArrivalOrderIrrelevant | node/vllm-client/src/main.cpp:3037-3091 | permuting chunks with distinct indices does not change the reply |
| StreamInput.SameWritesSameReply | node/vllm-client/src/main.cpp:3037-3091 | with repetitions, the reply depends only on the last write of each index |
| StreamInput.StreamsIndependent | node/vllm-client/src/main.cpp:2983-3020 | however whole deliveries under many keys interleave, each reply is that of its own stream's chunks alone: those since it was last finished, given up, or left alone for longer than the time to live |
| StreamInput.LapsedStartsAnew | node/vllm-client/src/main.cpp:2983-2998 | the first chunk after a gap longer than the time to live is received as the first of all |
| StreamInput.RefusedExactly | node/vllm-client/src/main.cpp:3062-3072 | when a chunk is refused for the number of indices, for the bytes, or not at all, the former checked first |
| StreamInput.BadIndexExactly | node/vllm-client/src/main.cpp:3022-3044 | a missing or malformed index and a negative one are refused, each for its own reason |
| StreamInput.Assembler.Deliver | node/vllm-client/src/main.cpp:2983-3020 | expired streams go, the reply is that of the client's own stream, every other stream is untouched, and all stay accounted |
| StreamInput.Assembler.Take | node/vllm-client/src/main.cpp:3037-3091 | the body of one call |
| StreamInput.Assembler.JoinChunks | node/vllm-client/src/main.cpp:3079-3091 | the joining loop names the first gap or joins all |
| StreamCalls.BytesAlwaysCounted | node/vllm-client/src/main.cpp:2995-3077 | however lookups, stores and erasures of many calls interleave, the byte counter of every stream object is exact and its subtraction never underflows |
| StreamCalls.StoreExactly | node/vllm-client/src/main.cpp:3052-3077 | a store writes its chunk in every case and changes no other stream; a finishing one within the limits takes everything out |
| StreamCalls.EraseExactly | node/vllm-client/src/main.cpp:3007-3020 | a finishing call erases its own stream and never one that has taken its place; a failing one erases either |
| StreamCalls.AbandonedForever | node/vllm-client/src/main.cpp:2995-3079 | a stream that has left the table and that no finishing call holds is never taken by any call, in any continuation |
| StreamCalls.LostExactly | node/vllm-client/src/main.cpp:2995-3079 | chunks waiting in a stream are lost, in every continuation, if and only if it has left the table and no finishing call holds it; the finishing calls that do hold it being within the limits |
| StreamCalls.ChunkLost | node/vllm-client/src/main.cpp:2995-3079 | a run from the start in which a chunk is stored, its client told to go on, and the stream is abandoned |
| StreamCalls.UndisturbedIsDelivered | node/vllm-client/src/main.cpp:3037-3091 | a call that nobody disturbs, whatever streams others hold, does to the table what one delivery does |
| EventLoop.OrderedStep | network/src/EventLoop.cc:71-96 | every step keeps executed ++ batch ++ pending equal to the push history |
| EventLoop.FirstInFirstOut | network/src/EventLoop.cc:116-125 | in every run what has been executed is a prefix of what was queued: once each, in order |
| EventLoop.RoundExact | network/src/EventLoop.cc:177-190 | under any interleaving a round executes exactly what was pending at its swap, in order, and leaves pending exactly what was queued meanwhile |
| EventLoop.NoLostWakeup | network/src/EventLoop.cc:116-190 | in every run, whenever a call of loop() that has polled is about to block with functors pending, the eventfd is readable or a thread is about to make it so |
| EventLoop.FirstPoll | network/src/EventLoop.cc:71-125 | before the first poll of any call of loop() the loop is woken if and only if it was awake already or another thread has queued or called quit since |
| EventLoop.LeavesExactly | network/src/EventLoop.cc:71-106 | a call of loop() returns at a test if and only if some thread has called quit since it began, and else it polls |
| EventLoop.EarlyPushSleeps | network/src/EventLoop.cc:116-125 | a run from the start: a functor queued by the loop's thread before the loop starts meets an unreadable eventfd |
| EventLoop.Reactor.QueueInLoop | network/src/EventLoop.cc:116-125 | is the run of the machine that pushes, and wakes exactly when another thread pushes or the batch is running |
| EventLoop.Reactor.Wakeup | network/src/EventLoop.cc:160-166 | is the wake step of its caller, which then owes no wakeup, and leaves the loop awake |
| EventLoop.Reactor.HandleRead | network/src/EventLoop.cc:168-175 | is the read step of the machine; the loop stays awake exactly if another thread still has its wakeup to make |
| EventLoop.Reactor.Quit | network/src/EventLoop.cc:98-106 | is the quit step of its caller, with the wakeup if another thread calls |
| EventLoop.Reactor.DoPendingFunctors | network/src/EventLoop.cc:177-190 | is the run of the machine that swaps, runs every functor with what it queues, and ends |
| TcpConnection.StepConserves | network/src/TcpConnection.cc:86-194 | every event, the unlocked tests and sets of other threads included, keeps wire ++ buffer equal to the messages kept, and until a close the channel writing exactly when the buffer is non-empty |
| TcpConnection.ByteStreamConserved | network/src/TcpConnection.cc:86-141 | so does every run |
| TcpConnection.FaultFreeStream | network/src/TcpConnection.cc:86-124 | without a broken peer and until a close nothing sent is lost, repeated or reordered |
| TcpConnection.ShutdownAfterDrain | network/src/TcpConnection.cc:126-141 | in every run, until a close the write side is shut down only with every kept byte on the wire; in general it is with an empty buffer if and only if no close came before, or a drain does it, or the buffer was empty |
| TcpConnection.ShutdownHappens | network/src/TcpConnection.cc:126-141 | the converse: in every run, once a shutdown has been asked for, no call is left to run and the buffer has drained, the write side has been shut down, unless a close came first |
| TcpConnection.CompletionExactly | network/src/TcpConnection.cc:96-102 | in every run, with a callback set, exactly a full direct write or a full drain queues one write-complete callback, with every kept byte on the wire |
| TcpConnection.TestExactly | network/src/TcpConnection.cc:126-175 | shutdown acts on a connected connection only, forceClose also on one that is shutting down |
| TcpConnection.LateShutdownLeavesBytes | network/src/TcpConnection.cc:126-141 | a run from the start in which a shutdown runs after a close with bytes in the buffer |
| TcpConnection.AgreesStep | network/src/TcpConnection.cc:126-175 | from a state that tells whether the connection is closed, exactly a set by a thread that tested before the close makes it untrue |
| TcpConnection.StateTellsTruth | network/src/TcpConnection.cc:126-194 | in every run without such a late set the state is disconnected if and only if the connection has been closed, and it is closed at most once |
| TcpConnection.LateSetLeavesBytes | network/src/TcpConnection.cc:126-141 | a run from the start in which a close falls between a test and its set: the state is open again and the write side is shut with bytes unsent |
| TcpConnection.LateSetClosesTwice | network/src/TcpConnection.cc:168-194 | a run from the start in which such a set closes the connection a second time |
| TcpConnection.Connection.SendInLoop | network/src/TcpConnection.cc:86-124 | direct write, partial write, fault, full socket and late message; a completion only if a callback is set |
| TcpConnection.Connection.ShutdownInLoop | network/src/TcpConnection.cc:135-141 | shuts the write side unless the channel is writing |
| TcpConnection.Connection.HandleWrite | network/src/TcpConnection.cc:273-301 | drains, goes idle on an empty buffer, and completes a pending shutdown |
| TcpConnection.Connection.Shutdown | network/src/TcpConnection.cc:126-133 | is the test of the machine, and its set if the test passes |
| TcpConnection.Connection.ForceClose | network/src/TcpConnection.cc:168-175 | is the test of the machine, and its set if the test passes |
| TcpConnection.Connection.HandleClose | network/src/TcpConnection.cc:303-315 | disconnected, with no interest left |
| Buffer.DecodeEncode | network/include/network/Buffer.h:122-209 | big-endian two's complement reads back as written, at every width |
| Buffer.EncodeBigEndian | network/include/network/Buffer.h:122-140 | byte i of a number is its digit of weight 256 to the width - 1 - i |
| Buffer.IntsFit | network/include/network/Buffer.h:122-172 | the four integer types fit their widths |
| Buffer.ActsAsQueue | network/include/network/Buffer.h:53-117 | over any operations, from any layout, the readable bytes are those of a plain byte queue that sees exactly the operations performed, prepends included |
| Buffer.CheapPrepends | network/include/network/Buffer.h:232-237 | as long as all prepends together need no more than the cheap prepend area, every one has room, however the buffer moves and grows |
| Buffer.RoomyExactly | network/include/network/Buffer.h:252-267 | the array grows if and only if queue, cheap prepend area and data do not fit it, and then just enough |
| Buffer.DrainedResets | network/include/network/Buffer.h:53-73 | a drained buffer can be written as a whole again, behind the cheap prepend area |
| Buffer.Drive | network/include/network/Buffer.h:53-117 | on a buffer object, an operation is left out if and only if its asserted condition fails when its turn comes, and the object ends in the layout and with the contents that the others lead to |
| Buffer.ByteBuffer.MakeSpace | network/include/network/Buffer.h:252-267 | keeps the contents, makes enough room, moves down when that frees enough and grows only otherwise; its two asserts hold |
| Buffer.ByteBuffer.MoveDown | network/include/network/Buffer.h:256-266 | the overlapping forward copy keeps every byte |
| Buffer.ByteBuffer.Append | network/include/network/Buffer.h:88-92 | appends exactly the data, in the layout the room was made in |
| Buffer.ByteBuffer.Retrieve | network/include/network/Buffer.h:53-60 | drops exactly the first bytes, resetting to the cheap prepend area when empty |
| Buffer.ByteBuffer.RetrieveAll | network/include/network/Buffer.h:70-73 | empties the queue |
| Buffer.ByteBuffer.RetrieveAsString | network/include/network/Buffer.h:79-84 | returns what it drops |
| Buffer.ByteBuffer.EnsureWritableBytes | network/include/network/Buffer.h:98-103 | room without a change of contents |
| Buffer.ByteBuffer.Unwrite | network/include/network/Buffer.h:114-117 | drops exactly the last bytes |
| Buffer.ByteBuffer.Prepend | network/include/network/Buffer.h:232-237 | puts the data in front |
| Buffer.ByteBuffer.ReadFd | network/src/Buffer.cc:14-54 | a scattered read appends exactly the bytes read, spilling into the second vector or not |
| Buffer.ByteBuffer.AppendInt | network/include/network/Buffer.h:122-140 | appends the encoding |
| Buffer.ByteBuffer.PeekInt | network/include/network/Buffer.h:178-207 | decodes the front without consuming it |
| Buffer.ByteBuffer.ReadInt | network/include/network/Buffer.h:146-172 | a number at the front reads back as written and is consumed |
| Poller.StepKeeps | network/src/Poller.cc:97-162 | every creation, mask change and legal removal keeps map, index, kernel set and mask in agreement for all channels, and is not refused |
| Poller.AgreementEveryRun | network/src/Poller.cc:97-182 | in every run over any channels: in the map exactly when the index is not kNew, in the kernel set exactly when it is kAdded, with the same mask, and no control call is ever refused |
| Poller.AssertsReduce | network/src/Poller.cc:97-162 | in every reachable state the asserts hold if and only if the channel is registered or its descriptor free, and for a removal registered without interest |
| Poller.EpollPoller.Update | network/src/Poller.cc:164-182 | what the kernel does with each control call, and when it refuses |
| Poller.EpollPoller.UpdateChannel | network/src/Poller.cc:97-139 | the map, the control call and the index for each old index and mask |
| Poller.EpollPoller.SetEvents | network/src/Channel.cc:29-32 | a mask change on the objects is the step of the machine, under the asserts of the code |
| Poller.EpollPoller.RemoveChannel | network/src/Poller.cc:141-162 | a removal on the objects is the step of the machine, under the asserts of the code |
| Poller.EpollPoller.EnableReading | network/include/network/Channel.h:46-49 | sets the read bit |
| Poller.EpollPoller.DisableReading | network/include/network/Channel.h:50-53 | clears the read bit |
| Poller.EpollPoller.EnableWriting | network/include/network/Channel.h:54-57 | sets the write bit |
| Poller.EpollPoller.DisableWriting | network/include/network/Channel.h:58-61 | clears the write bit |
| Poller.EpollPoller.DisableAll | network/include/network/Channel.h:62-65 | clears the mask |
| PortRegistry.PortRecovered | unit-manager/src/remote_server.cpp:71-75 | a positive port is scanned back out of a printed URL if and only if no digit follows it |
| PortRegistry.UrlExact | unit-manager/src/remote_server.cpp:71-90 | so a positive port survives its URL if and only if the text after it does not start with a digit |
| PortRegistry.UrlRoundTrip | unit-manager/src/remote_server.cpp:71-90 | with a format whose text does not run into the port, parsing undoes printing for every port, unit and suffix |
| PortRegistry.DefaultFormatSafe | unit-manager/master_config.json:5 | the default format is one of those |
| PortRegistry.DefaultUrls | unit-manager/src/remote_server.cpp:77-110 | the work id and the two URLs of a unit in the default format, spelled out |
| PortRegistry.WorkIdDistinct | unit-manager/src/remote_server.cpp:107 | work ids are equal only for the same unit name and number |
| PortRegistry.NoTwoPorts | unit-manager/src/remote_server.cpp:49-60 | two ports cannot be had if and only if fewer than two bits are free |
| PortRegistry.AllocateExact | unit-manager/src/remote_server.cpp:92-114 | fails exactly when fewer than two bits are free and then changes nothing; otherwise sets two free bits, counts up, and stores one unit under a new work id, standing for those bits, and its output URL beside it |
| PortRegistry.ReleaseExact | unit-manager/src/remote_server.cpp:116-140 | clears exactly the unit's own two bits, though it only has their URLs, and erases exactly the unit and its output URL |
| PortRegistry.ReleaseRefused | unit-manager/src/remote_server.cpp:116-124 | a release is refused with -1 and changes nothing if and only if the key holds no unit |
| PortRegistry.SettingsExact | unit-manager/src/remote_server.cpp:39-47 | setting or erasing a key keeps a sound registry sound if and only if it is not a live unit's key |
| PortRegistry.SettingLosesPorts | unit-manager/src/remote_server.cpp:39-47 | a run from the start: allocate, set the work id; no unit is left and two ports are gone |
| PortRegistry.PortsConserved | unit-manager/src/remote_server.cpp:39-140 | in every run, whatever it sets: live units hold disjoint pairs of set bits and distinct numbers; free bits + 2 * units + 2 * settings that hit a live unit is the size of the list; and the set bits are exactly the ports of live units if and only if no setting did |
| PortRegistry.UnitRegistry.AllocatePort | unit-manager/src/remote_server.cpp:49-60 | takes the first free bit, or reports -1 and changes nothing |
| PortRegistry.UnitRegistry.ReleasePort | unit-manager/src/remote_server.cpp:62-69 | clears the bit of a port in range, and ignores others |
| PortRegistry.UnitRegistry.AllocateUnit | unit-manager/src/remote_server.cpp:92-114 | two ports or a rollback; counter, unit and both table entries |
| PortRegistry.UnitRegistry.ReleaseUnit | unit-manager/src/remote_server.cpp:116-140 | both ports parsed and released, both table entries erased; -1 for a key that holds no unit |

## Left out

- libcurl, HTTP health requests, ZeroMQ sockets and system calls are parameters: an attempt observes an arbitrary transfer, a read arbitrary bytes, a write an arbitrary count or error.
- JSON is a parameter: a payload parser and a response extractor are arbitrary functions; building requests and messages is not modelled.
- Mock mode, `taskinfo`, request records, observability and the averages and percentiles of the metrics snapshot are not modelled: no scheduling decision reads them.
- Thresholds are fixed within a run; changing them by a reload is not modelled.
- `wait_for_endpoint` is collapsed to finding an endpoint or not; its timed waiting, `stop()` and thread joins are not modelled.
- Machine integers: ids, counters, sizes and times do not wrap around, and a reported count of tokens is not truncated.
- Latency averages are reals, without floating-point rounding.
- An endpoint's name, health path, API key and timeout counter are not modelled.
- The program makes one task per process and shares objects only while it loads; a second task is not modelled.
- StreamInput.Assembler.Deliver: models one call at a time, and StreamInput.StreamsIndependent whole calls; StreamCalls interleaves their parts.
- StreamInput.StreamsIndependent: is about whole deliveries; what interleaved ones lose is stated in StreamCalls.
- The output callback is assumed to be set.
- EventLoop.Reactor.DoPendingFunctors: states one round undisturbed by other threads; the lemma RoundExact is about every interleaving.
- TcpConnection.Connection.Shutdown: states the call undisturbed between its test and its set; the state machine interleaves them, and takes the unlocked accesses to be in one order for all threads.
- TcpConnection.Connection.SendInLoop: a write-complete callback is counted and not run, connection callbacks are not modelled, and the output buffer is its abstract byte sequence, which `Buffer` refines.
- Acceptor, Connector, TcpClient, Socket, InetAddress and the thread pool: thin wrappers.
- Poller.EpollPoller.SetEvents: dispatch of returned events to channel callbacks is not modelled.
- PortRegistry.UrlRoundTrip: covers formats with one conversion and without white space in it, and unit names without a percent sign.
- PortRegistry.PortsConserved: `sys_sql_set` and `sys_sql_unset` take only the lock of the table, so they can fall inside an allocation or a release; the model runs them before or after.
- Service.PartsAgree: the retry settings of a request are given when it is popped, and not carried through the queue.
- The configured start port is not negative.
- `StackFlow`, `llm_channel_obj`, `pzmq_data` and the text scanners of the infrastructure controller are not modelled.
