# mini_rpc: a verified model of the protocol core

mini_rpc is an asynchronous RPC layer: a client that issues requests over a TCP connection, survives disconnects by
resending, and calls the user back once per request; a server that answers through synchronous and asynchronous
handlers, the latter cancellable and bounded in number; a worker pool under the server; and a binary wire format.
This project models the four parts and their composition, and proves what they guarantee in every run.

| file | what it holds |
|---|---|
| `ByteOrder.dfy`, `RpcMessage.dfy`, `RpcMessageObjects.dfy` | the wire format: parser and printer functions, their bijection, and the message objects that read and write buffers |
| `TaskPool.dfy`, `TaskThreadPool.dfy` | the worker pool as interleaved critical sections with a condition variable, and the pool object |
| `Shutdown.dfy` | the server's two-event shutdown, composed with the pool and the helper thread |
| `CancellationRegistry.dfy` | the registry of active asynchronous requests: nested map, flat map, limits, accounts, object |
| `ServerReply.dfy`, `RpcServer.dfy` | the reply path, and the server object that works on bytes and on the registry object |
| `ClientModel.dfy`, `ClientInvariant.dfy`, `ClientSteps.dfy`, `ClientProperties.dfy`, `ClientReasons.dfy`, `ClientPromises.dfy`, `RpcClient.dfy` | the client as a state machine with an explicit call stack, its invariant, every event's proof, the run properties, why requests fail, what a caller can rely on, and the client object |
| `Options.dfy`, `Sets.dfy` | an option type and sizes of sets |
| `EndToEnd.dfy`, `EndToEndProperties.dfy`, `EndToEndAnswers.dfy`, `ServerAnswers.dfy`, `Cancellation.dfy` | one client, one server and in-order connections in every interleaving |

How the parts are modelled:

- Every object whose methods update fields (`RpcRequest`/`RpcResponse`/`RpcCancel`, `ThreadPool`, `StopCoordinator`,
  `Registry`, `AsyncServer`, `Client`) is a class. Each method is proved to perform one step of the matching state
  machine (`View() == Step(old(View()))`), and the machine's invariant and run properties are lemmas. Beside the step,
  each method's contract says in terms of the old fields alone what its caller sees.
- User callbacks run in the middle of client methods and may call back into the client. The client machine therefore
  has the C++ call stack as a field: the code between two callbacks is one event, and while `UserCode` is on top of
  the stack any `call`, `cancel`, `connect` or `disconnect` may happen, nested to any depth.
- A history field records frames per connection, callbacks, resends and waits. No step reads it.
- Timers may fire at any time, also after they were cancelled. Only `TimersCorrespond` assumes exact cancellation.
- Environment: a connection delivers in order; no message arrives on it after its down event; a connection error is
  not reported while a connection is up; fewer than 2^64 calls are made. `conn->connected()` may turn false at any time.
  The loop reports a new connection, a message or a timer only while no client method is in progress; a lost
  connection or a connection error may also be reported inside a user callback, synchronously from `connect()` or
  `disconnect()`.

Where a promised property does not hold of the code, the project keeps the code, proves exactly when the property
holds, and gives a run that breaks it:

- The client closes a connection for an unknown id exactly when it forgot the id itself (`UnknownCloseIff`), by a sweep
  that finds an entry past its minute or by a second `disconnect()` while the first is under way (`ForgetsIff`);
  `LateAnswerIsUnknown` and `UnknownCloseHappens` are such runs and `NeverUnknown` excludes it from all others.
- `take` finds tokens by connection and id only, so a late reply can take another execution's token when an id is used
  again on a connection (`ReusedIdIsMixedUp`). In every order of operations it takes its own or none if and only if no
  later registration of the same connection and id is accepted (`TakesOwnIff`); using ids once is enough
  (`UniqueIdTakesOwn`), and the client does (`NeverDuplicate`, `TakesOwnToken`).
- `stop()` of the pool promises to return after all accepted tasks have run and all workers have left
  (src/include/TaskThreadPool.h:24-27). A second call made while the first is under way returns before that
  (`SecondStopDoesNotWait`). A call keeps the promise if and only if it did not find STOPPING, or found no worker left
  (`StopSettlesIff`, `EarlyReturnDrainedIff`).

## Model

| member | source | states |
|---|---|---|
| ByteOrder.Hton | src/RpcMessage.cc:10-22 | the byte loop returns the integer whose memory image is the argument in network order, on hosts of both byte orders and for every width |
| ByteOrder.NetOrderImage | src/RpcMessage.cc:126-151 | storing what `hton` returns writes the same big-endian bytes on every host |
| ByteOrder.NetOrderOfLoad | src/RpcMessage.cc:24-38 | loading received bytes and applying `ntoh` gives their big-endian value on every host |
| ByteOrder.NetOrderInvolution | src/RpcMessage.cc:10-38 | applying the byte swap twice is the identity for every width |
| RpcMessage.RequestBijection | src/RpcMessage.cc:106-237 | a byte string is accepted as request r if and only if it is the encoding of r and r is encodable |
| RpcMessage.ResponseBijection | src/RpcMessage.cc:276-480 | the same for responses, whose status, code, payload and text must be consistent |
| RpcMessage.CancelBijection | src/RpcMessage.cc:505-592 | the same for cancels |
| RpcMessage.ResponseEncodeAccepts | src/RpcMessage.cc:276-310 | the encoder's checks accept exactly the consistent responses with 32-bit lengths |
| RpcMessage.WireLengths | src/RpcMessage.cc:247-252 | encoded lengths are what `OutputMessageLen` announces; a cancel has 11 bytes |
| RpcMessage.RequestLayout | README.md:328-347 | the documented fields stand in order and at fixed places: version 2, type 0, 8-byte id, then service, method and payload behind their 4-byte lengths, and nothing else |
| RpcMessage.ResponseLayout | README.md:328-347 | the same for responses: type 1, id, result byte, 2-byte error code, payload, error text |
| RpcMessage.CancelLayout | README.md:328-347 | a cancel is version 2, type 2 and the id |
| RpcMessage.PrefixFree | src/RpcMessage.cc:156-237 | no accepted message is a proper prefix of another accepted one of its type |
| RpcMessage.HeadNamesDecoder | src/RpcMessage.cc:65-97 | at most one of the three decoders accepts a byte string, and `decodeHead` names it |
| RpcMessageObjects.LoadString | src/RpcMessage.cc:40-61 | reads a length-prefixed string, keeps index + leftLen equal to the message length, and fails exactly when the bytes run out |
| RpcMessageObjects.ReadKind | src/RpcMessage.cc:65-97 | returns the type byte exactly when version and type are known |
| RpcMessageObjects.RpcRequest.Encode | src/RpcMessage.cc:106-154 | the buffer written through the running index is the encoding, has the announced length and decodes back to the object |
| RpcMessageObjects.RpcRequest.Decode | src/RpcMessage.cc:156-237 | on success the object holds the message and encodes back to the same bytes; on failure it is unchanged |
| RpcMessageObjects.RpcResponse.Encode | src/RpcMessage.cc:276-355 | succeeds exactly on encodable responses, with the announced length and a decodable result |
| RpcMessageObjects.RpcResponse.Decode | src/RpcMessage.cc:357-480 | on success the object holds the message and encodes back to the same bytes; on failure it is unchanged |
| RpcMessageObjects.RpcCancel.Encode | src/RpcMessage.cc:505-529 | 11 bytes that decode to the id |
| RpcMessageObjects.RpcCancel.Decode | src/RpcMessage.cc:531-592 | accepts exactly the encodings of cancels; on failure the object is unchanged |
| TaskPool.RunInv | src/TaskThreadPool.cc:46-136 | every interleaving of submitters, N workers and stoppers keeps conservation, bounds, drain and wakeup invariants |
| TaskPool.FifoExactlyOnce | src/TaskThreadPool.cc:70-136 | tasks leave in acceptance order, every accepted task is queued, running or finished exactly once, the queue respects its limit |
| TaskPool.FullMeansFull | src/TaskThreadPool.cc:70-91 | in every run a full queue is reported only while the queue holds exactly its limit of tasks; a running pool with room accepts every task |
| TaskPool.StoppedMeansFinished | src/TaskThreadPool.cc:46-68 | status STOPPED implies every accepted task finished exactly once, also when tasks throw |
| TaskPool.EmptyForever | src/TaskThreadPool.cc:107-126 | once any worker has left, the queue is empty and nothing is accepted ever after |
| TaskPool.QueueIsAttended | src/TaskThreadPool.cc:75-90 | no lost wakeup, although notifications follow the unlock: queued work has a live awake or busy worker or a notify under way; while some worker sleeps, awake workers and notifies under way cover the whole queue, so busy ones alone do not do; after `stop()` a sleeper implies a pending notify_all |
| TaskPool.DrainDecreases | src/TaskThreadPool.cc:46-68 | after `stop()` every step that changes anything lowers a bound on the steps left until STOPPED |
| TaskPool.DrainNeverStuck | src/TaskThreadPool.cc:54-67 | while stopping, the stopper or some worker can always act |
| TaskPool.EarlyReturnDrainedIff | src/TaskThreadPool.cc:46-55 | when the status is not RUNNING all accepted tasks have run exactly when none is queued or running; in every such status but STOPPING all have run and all workers have left; while STOPPING that is so exactly when all workers have left |
| TaskPool.StopSettlesIff | src/include/TaskThreadPool.h:24-27 | in every run a call of `stop()` returns with all accepted tasks run and all workers gone if and only if it did not find STOPPING or found no worker left |
| TaskPool.SecondStopDoesNotWait | src/TaskThreadPool.cc:50-52 | a run in which a second `stop()` returns while a task is still queued |
| TaskThreadPool.ThreadPool.Start | src/TaskThreadPool.cc:14-26 | performs the start step: all workers are created, once |
| TaskThreadPool.ThreadPool.SetMaxQueueTasks | src/TaskThreadPool.cc:93-105 | the limit is the given one before the start, and unchanged after it |
| TaskThreadPool.ThreadPool.AddTask | src/TaskThreadPool.cc:70-91 | by status, queue and limit alone: EmptyTask, NotRunning, QueueFull exactly at the limit, Accepted below it; an accepted task is new, stands last in the queue and owes a notification; a rejected one changes nothing |
| TaskThreadPool.ThreadPool.Notify | src/TaskThreadPool.cc:89-89 | wakes one sleeper if there is one |
| TaskThreadPool.ThreadPool.BeginStop | src/TaskThreadPool.cc:46-55 | only the caller that finds RUNNING stops the pool; any other returns with everything run and all workers gone, unless it finds STOPPING |
| TaskThreadPool.ThreadPool.NotifyEveryone | src/TaskThreadPool.cc:57-57 | wakes every sleeper and changes no other worker |
| TaskThreadPool.ThreadPool.FinishStop | src/TaskThreadPool.cc:59-67 | passes the joins exactly when all workers have left, and then every accepted task has finished |
| TaskThreadPool.ThreadPool.RunPass | src/TaskThreadPool.cc:107-126 | one pass of a worker under the lock: it takes the oldest task if there is one, sleeps on an empty queue while RUNNING and leaves otherwise; no other worker changes |
| TaskThreadPool.ThreadPool.TaskDone | src/TaskThreadPool.cc:128-134 | the worker goes back to the lock and the task counts as finished, whether it returned or threw |
| Shutdown.RunInv | src/RpcServer.cc:240-272 | every interleaving of server, helper thread and pool keeps the shutdown invariant |
| Shutdown.CompletionIsSafe | src/RpcServer.cc:762-778 | the stop-complete callback fires at most once, and only when TCP and pool have stopped and every task the pool ever accepted has finished |
| Shutdown.FiresOnSecondEvent | src/RpcServer.cc:750-778 | it fires exactly on the second of the two events, whichever order they come in |
| Shutdown.FrozenAfterCompletion | src/RpcServer.cc:762-778 | in the rest of every run nothing is accepted or finished and the callback does not fire again |
| Shutdown.StoppingNeverStuck | src/RpcServer.cc:254-272 | in every run a stopping server, its helper thread or its pool can go on until the callback fires |
| Shutdown.StoppingDecreases | src/RpcServer.cc:262-272 | once the helper has called `stop()`, every step that changes anything lowers a bound on the steps left until the callback |
| Shutdown.StopCoordinator.Stop | src/RpcServer.cc:254-272 | stops a running server only; spawns the helper exactly when there is a pool |
| Shutdown.StopCoordinator.OnTcpServerStopped | src/RpcServer.cc:750-754 | sets its flag and completes the stop exactly when the server is stopping and the pool has stopped |
| Shutdown.StopCoordinator.OnTaskPoolStopped | src/RpcServer.cc:756-760 | sets its flag and completes the stop exactly when the server is stopping and TCP has stopped |
| Shutdown.StopCoordinator.TryCompleteStop | src/RpcServer.cc:762-778 | completes a stopping server exactly when both events have come |
| CancellationRegistry.CountActive | src/RpcServer.cc:138-147 | the summing loop over the nested map computes the number of active (connection, id) pairs |
| CancellationRegistry.LimitsKeptByRegister | src/RpcServer.cc:137-166 | an accepted registration keeps both limits, also the unchecked first one of a connection |
| CancellationRegistry.EraseInnerRefines | src/RpcServer.cc:111-116 | erasing a pair and dropping an emptied inner map is removal from the flat map |
| CancellationRegistry.BookStep | src/RpcServer.cc:95-206 | every operation keeps refinement, limits, uncancelled active tokens and the account of tokens |
| CancellationRegistry.AlwaysOk | src/RpcServer.cc:95-206 | in every order of operations by any threads: flat set without empty inner maps, total and per-connection limits, registrations = takes + cancels + clears + active |
| CancellationRegistry.RefusedOnlyWhenFull | src/RpcServer.cc:121-166 | in every order of operations a registration is accepted if and only if the pair is not active and both limits have room; a limit is reported only when it is reached exactly |
| CancellationRegistry.TakeFindsLatest | src/RpcServer.cc:95-119 | a lookup by connection and id finds the token of the latest accepted registration of that pair |
| CancellationRegistry.TakesOwnIff | src/RpcServer.cc:95-166 | in every order of operations a reply takes its own execution's token or none, whenever it comes, if and only if no later registration of the same connection and id is accepted |
| CancellationRegistry.UniqueIdTakesOwn | src/RpcServer.cc:691-695 | so with ids used once per connection a reply takes its own execution's token or none |
| CancellationRegistry.ReusedIdIsMixedUp | src/RpcServer.cc:691-695 | a reused id whose lookup finds the other execution's token |
| CancellationRegistry.Registry.Admit | src/RpcServer.cc:125-154 | duplicate, global limit, connection limit, in this order, as counted on the flat map |
| CancellationRegistry.Registry.RegisterToken | src/RpcServer.cc:121-166 | duplicate, total limit, connection limit or registered, each by the sizes of the flat map alone; the map stays well formed and within its limits for any token; a rejected registration changes nothing; the token accounts stay right for a new token |
| CancellationRegistry.Registry.Take | src/RpcServer.cc:95-119 | returns and removes the pair's token, which was never cancelled; no other pair and no flag changes |
| CancellationRegistry.Registry.Cancel | src/RpcServer.cc:168-188 | sets the flag of the pair's token and removes it; no other pair and no other flag changes |
| CancellationRegistry.Registry.ClearConnection | src/RpcServer.cc:190-206 | cancels and removes every token of the connection and no other |
| ServerReply.HandlerCheckIsShapeCheck | src/RpcServer.cc:600-618 | the handler-result check rejects exactly the results the encoder would reject for their shape |
| ServerReply.SentIsIntended | src/RpcServer.cc:39-85 | a frame within the limit that decodes to the intended id, status, code and texts, or to the 43-byte notice; closed only when not even that fits |
| ServerReply.RepliesAlwaysValid | src/RpcServer.cc:586-619 | for every handler outcome, thrown or illegal, the client gets a valid answer or a closed connection: the result itself when legal and within the limit, "handler exception" or "invalid handler result" with INTERNAL_ERROR otherwise |
| ServerReply.SendFramedData | src/RpcServer.cc:39-85 | the asynchronous send path computes the specified frame or close |
| ServerReply.SendResponse | src/RpcServer.cc:502-549 | the synchronous send path computes the same frame or close |
| ServerReply.InvokeSyncHandler | src/RpcServer.cc:586-619 | sends the sanitised result; a frame carries the request's id |
| RpcServer.ReadIncoming | src/RpcServer.cc:437-484 | reads bytes as a cancel, a request or something to close on |
| RpcServer.ReadsExactly | src/RpcServer.cc:437-484 | the server acts on exactly the byte strings within its limit that encode a request or a cancel |
| RpcServer.HandlesWhatWasSent | src/RpcServer.cc:437-500 | for the bytes of any message the client encoded, handling the bytes is the receive step for that message |
| RpcServer.AsyncServer.OnConnectionUp | src/RpcServer.cc:228-232 | a new connection: nothing read, nothing sent, and the registry untouched |
| RpcServer.AsyncServer.OnRpcMessage | src/RpcServer.cc:437-500 | unusable bytes close the connection, a cancel is silent, a synchronous method is answered with its handler's sanitised result, an asynchronous one is started, refused at a limit or closed on as a duplicate, an unknown one is answered METHOD_NOT_FOUND, always under the request's id; the state makes the receive step |
| RpcServer.AsyncServer.InvokeAsyncHandler | src/RpcServer.cc:621-644 | closes the connection on an active pair, answers RESOURCE_EXHAUSTED at a limit, otherwise starts a new execution and sends nothing yet |
| RpcServer.AsyncServer.CancelAsync | src/RpcServer.cc:746-748 | decides the race for the token in favour of the cancel, if it is still active |
| RpcServer.AsyncServer.Reply | src/RpcServer.cc:650-679 | the first reply of an execution is posted if its connection lives, any other is dropped; the flag is set for good |
| RpcServer.AsyncServer.RunPosted | src/RpcServer.cc:679-704 | sends the posted result, sanitised, under the request's id exactly when registry and size setting are there and the pair has an uncancelled token; silent otherwise |
| RpcServer.AsyncServer.OnConnectionDown | src/RpcServer.cc:227-232 | decides the race for all tokens of the connection in favour of the close |
| ClientModel.ParsedIsWellShaped | src/RpcClient.cc:227-257 | what the client accepts from the wire is a consistent response |
| ClientModel.ParsesExactly | src/RpcClient.cc:231-257 | the client accepts exactly the byte strings within its limit that encode a consistent response |
| ClientSteps.StepInv | src/RpcClient.cc:61-656 | every event keeps the full client invariant, whatever methods are in progress when it happens |
| ClientSteps.RunInv | src/RpcClient.cc:61-656 | every state of every run satisfies the invariant |
| ClientProperties.ExactlyOnce | src/RpcClient.cc:88-122 | each issued id is in exactly one of queued, pending, about to be called back, called back; no callback is called twice; each call is the given callback with a consistent response that carries the id |
| ClientProperties.QuiescentMeansCompleted | src/RpcClient.cc:293-431 | when nothing is queued, pending or in progress, every issued id has been called back |
| ClientProperties.RunGrows | src/RpcClient.cc:433-520 | callbacks, ids, admitted bodies and limits are never taken back or altered |
| ClientProperties.CompletedIsGone | src/RpcClient.cc:297-310 | cancelling a request that is being failed or completed, or a stale timer of it, does nothing |
| ClientProperties.CallbacksAreReentrant | src/RpcClient.cc:202-208 | whenever user code runs inside the client the full invariant holds before and after anything it calls, and the interrupted methods' remaining work is untouched |
| ClientProperties.ResendBudget | src/RpcClient.cc:599-656 | over all connections a request is sent 1 + resends times, at most 1 + limit, at most once per connection, always as the same message |
| ClientProperties.BudgetBalances | src/RpcClient.cc:402-431 | resends done + waits used up + resends left = limit; the 8-bit decrements never wrap |
| ClientProperties.MeasureDecreases | src/RpcClient.cc:313-431 | no step raises 2 * remainingResends + [waiting for response]; each phase change and each expired wait lowers it, also with stale timers |
| ClientProperties.BoundedCycling | src/RpcClient.cc:402-431 | over a whole run phase changes + 2 * expired waits are at most 2 * limit + 1 |
| ClientProperties.PhasesMatchConnection | src/RpcClient.cc:194-225 | connected implies a connection; without one every pending request waits for a reconnect, with budget and a timer of its positive reconnect timeout; a response timer exists exactly for a positive timeout, and is set for it |
| ClientProperties.AdmissionSound | src/RpcClient.cc:450-480 | pending respects its limit, is apart from ignored, both are below the next id, and every pending request fits and encodes |
| ClientProperties.EncodeErrorsUnreachable | src/RpcClient.cc:472-480 | neither encode-error branch is ever taken, on first send or resend |
| ClientProperties.ManualIsFinal | src/RpcClient.cc:72-86 | from `disconnect()` to the next connection no request is sent, no id becomes pending and pending only shrinks |
| ClientProperties.ManualDownKeepsNothing | src/RpcClient.cc:213-219 | when the down event of a manual disconnect arrives nothing is kept for a resend, and pending stays empty until the next connection |
| ClientProperties.TimersCorrespond | src/RpcClient.cc:501-505 | with exact cancellation, live timers correspond one-to-one to the timers of pending requests |
| ClientProperties.TimersCompleteIt | src/RpcClient.cc:375-431 | progress: with exact cancellation a pending request that has a timer is handed to its callback by firing its own live timers alone, at most as often as its measure says |
| ClientReasons.ReasonsAreTrue | README.md:178-187 | in every run in which only timers that were set fire, stale or not: a reconnect timeout is reported only after resends + expired waits reached the limit, a request timeout only for a request with a timeout, cancel and close only for requests that were sent, too-large and too-many only for ones that never were, and no internal error ever |
| ClientPromises.ResentOnReconnect | src/RpcClient.cc:599-656 | in every run, at rest on a living connection no pending request is left waiting for a reconnect: each has been sent on this connection exactly once |
| ClientPromises.ArgumentsAreObeyed | src/RpcClient.cc:482-517 | in every run a call is served as asked: body, callback, both timeouts and reconnect permission are the caller's, or the defaults; it is sent at most 1 + its own limit times, exactly once if it did not allow reconnects |
| ClientPromises.SurvivesLossIff | src/RpcClient.cc:313-373 | a pending request survives a lost connection if and only if its caller allowed reconnects and resends + expired waits are below its limit; then it waits as long as asked on a new timer, a failed attempt to reconnect leaving that timer alone; otherwise its callback is told "connect closed", in id order |
| ClientPromises.DisconnectedIsEmpty | src/RpcClient.cc:72-86 | in every run nothing is pending once the user has disconnected and there is no connection |
| ClientPromises.DisconnectTellsEveryone | src/RpcClient.cc:72-86 | `disconnect()` without a living connection, and the down event after it, tell every pending request's own callback "connect closed" |
| ClientPromises.LateAnswerIsDropped | src/RpcClient.cc:259-269 | in every run, for a minute after a cancel or timeout an answer for that id on the same connection is dropped without closing it, whatever else happens |
| RpcClient.Sort | src/RpcClient.cc:317-332 | the collecting loop separates requests with budget from those that fail, and covers all that wait for a response |
| RpcClient.ChangePhase | src/RpcClient.cc:334-350 | exactly the kept requests wait for a reconnect, their old timers are cancelled and new ones set |
| RpcClient.TakeFailing | src/RpcClient.cc:352-366 | exactly the failing requests leave pending, with their timers, and their callbacks are collected |
| RpcClient.LoopsTogether | src/RpcClient.cc:317-366 | the three loops together leave the survivors and their timers |
| RpcClient.RunLoops | src/RpcClient.cc:317-366 | the three loops in order leave the survivors, their timers and the failure callbacks |
| RpcClient.CollectWaiting | src/RpcClient.cc:602-610 | collects exactly the requests that wait for a reconnect with at least one chance left |
| RpcClient.ReadMessage | src/RpcClient.cc:231-257 | accepts exactly the frames within the limit that encode a response |
| RpcClient.LossSorts | src/RpcClient.cc:313-373 | on a lost connection a request with budget keeps its terms and waits, one without is gone and its callback is due, for every pending request |
| RpcClient.Client.Call | src/RpcClient.cc:99-122 | hands out the next id, with the counter's wrap-around, and queues the call with the caller's arguments; before the wrap-around the id is new and was never called back |
| RpcClient.Client.CallInLoop | src/RpcClient.cc:433-520 | admits the call exactly on a living connection, within the size limit and with room among the pending requests, as the caller asked; otherwise its callback is due with the first reason that applies; the request's bytes are returned exactly when it is admitted |
| RpcClient.Client.CancelInLoop | src/RpcClient.cc:555-597 | a pending request is removed, its answer ignored for 60000 ms, its timer cancelled, its callback told REQUEST_CANCELED, and a Cancel frame sent on a living connection; any other id changes nothing |
| RpcClient.Client.FailAllPendingRequests | src/RpcClient.cc:293-311 | empties pending, cancels all its timers and tells every callback the given failure |
| RpcClient.Client.FailAllDisreconnectRequests | src/RpcClient.cc:313-373 | performs the bulk step of a lost connection: every pending request is kept or failed by its own budget |
| RpcClient.Client.Connect | src/RpcClient.cc:61-70 | starts connecting only when disconnected; nothing else changes |
| RpcClient.Client.Disconnect | src/RpcClient.cc:72-86 | connected: starts disconnecting and touches no request; otherwise every pending request is told "connect closed" |
| RpcClient.Client.OnConnectionUp | src/RpcClient.cc:197-204 | connected, no manual disconnect any more, and the user's callback next, then the resend loop |
| RpcClient.Client.OnConnectionDown | src/RpcClient.cc:209-218 | disconnected; after a manual disconnect every pending request is told "connect closed", otherwise the down step of the machine |
| RpcClient.Client.OnConnectionError | src/RpcClient.cc:280-286 | performs the connection-error step |
| RpcClient.Client.OnRpcMessage | src/RpcClient.cc:227-278 | closes if and only if the bytes are not a response within the limit or its id is neither pending nor ignored, and then changes nothing; a pending id's callback is due with this response, an ignored one is dropped once |
| RpcClient.Client.OnTimer | src/RpcClient.cc:375-431 | an overdue request is given up with REQUEST_TIMEOUT, a minute of ignoring and a Cancel frame; an expired reconnect wait costs one chance and ends in RECONNECT_TIMEOUT with the last; a stale timer does nothing |
| RpcClient.Client.ClearExpiredIgnoredResponseRequests | src/RpcClient.cc:522-535 | the erasing loop removes exactly the entries whose deadline is not later than now |
| RpcClient.Client.FireCallback | src/RpcClient.cc:306-310 | a callback starts: never called before for this id, once now, the given callback, a consistent response with this id |
| RpcClient.Client.ResendOne | src/RpcClient.cc:613-655 | one round of the resend loop; a request that still waits is always encoded and sent with its original content, keeps its terms and has one chance less |
| RpcClient.Client.Continue | src/RpcClient.cc:202-224 | what methods do after a callback returns or a loop is over: after the up callback every waiting request is due for a resend, after a loss the ignored ids are cleared |
| EndToEnd.ServerReadsWhatWasSent | src/RpcServer.cc:437-484 | from the bytes of any client message the server reads that message, unless it is above the server's limit |
| EndToEnd.ClientReadsWhatWasSent | src/RpcClient.cc:231-257 | from any frame of the server the client reads the response that was meant, and rejects it exactly when it is above the client's limit |
| EndToEnd.RunInv | src/RpcServer.cc:621-705 | every interleaving of client, server and connections keeps the joint invariant |
| EndToEnd.TakesOwnToken | src/RpcServer.cc:691-695 | a posted reply takes its own execution's token, uncancelled, or finds none |
| EndToEndProperties.NeverDuplicate | src/RpcServer.cc:121-135 | each request the server handles is new on its connection, so registration never reports a duplicate |
| EndToEndProperties.EveryMessageIsRead | src/RpcServer.cc:437-484 | in every run the bytes of every message the client sent are read by the server as that message, or as unusable when above its limit |
| EndToEndProperties.EveryAnswerIsRead | src/RpcClient.cc:231-257 | in every run every answer under way is a frame, delivering what the client reads from its bytes is a step of the system, and that is the response that was meant unless it is above the client's limit |
| EndToEndProperties.AnswersAreUnique | src/RpcServer.cc:650-705 | each response frame answers a request sent exactly once on that connection, no request is answered twice, and a frame due to an execution carries its connection and id |
| EndToEndProperties.NextAnswerIsTracked | src/RpcClient.cc:259-269 | the next response names a pending or ignored id exactly when the client has not forgotten it |
| EndToEndProperties.UnknownCloseIff | src/RpcClient.cc:259-269 | the unknown-id close is taken exactly for ids the client has forgotten |
| EndToEndProperties.ForgetsIff | src/RpcClient.cc:522-535 | the client forgets an id exactly in a sweep that finds an expired entry or in a second `disconnect()` with requests pending |
| EndToEndProperties.NeverUnknown | src/RpcClient.cc:259-269 | in every run without such a step the unknown-id close is never taken |
| EndToEndProperties.UnknownCloseHappens | src/RpcClient.cc:78-79 | a run in which a second `disconnect()` leads to the unknown-id close |
| EndToEndProperties.LateAnswerIsUnknown | src/RpcClient.cc:522-535 | a run in which the one-minute expiry leads to the unknown-id close |
| EndToEndProperties.FatesAreFinal | src/RpcServer.cc:95-206 | once reply, cancel or close has won the race for a token, that never changes |
| EndToEndProperties.SingleWinner | src/RpcServer.cc:650-705 | each execution's token is active and uncancelled, or was consumed by exactly one of the three |
| EndToEndProperties.LosersNeverAnswer | src/RpcServer.cc:691-695 | once cancel or close has won, no reply of that execution becomes a frame on any connection |
| EndToEndProperties.OneFramePerExecution | src/RpcServer.cc:655-657 | however often a handler replies, at most one frame over all connections is due to it |
| EndToEndProperties.TokensBalance | src/RpcServer.cc:95-206 | in every interleaving registrations = takes + cancels + clears + active |
| EndToEndAnswers.CallbackHearsTheServer | src/RpcClient.cc:271-277 | a callback that is told a server response is told what the server sent for this id, on a connection that carried the request exactly once, with the sanitised handler result as content |
| EndToEndAnswers.FirstReplyWins | src/RpcServer.cc:650-657 | however often and from whichever threads a handler replies, a frame due to it carries its first reply |
| EndToEndAnswers.PostedReplyIsSentIff | src/RpcServer.cc:650-704 | in every run a first reply on a living connection is posted, and running it puts exactly that reply on its request's connection if and only if neither cancel nor close has won before |
| ServerAnswers.AnswersFitTheirRequests | src/RpcServer.cc:486-500 | in every run the method a request names decides its answer: the handler's for a synchronous one, a reply of its own execution or the limit notice for an asynchronous one, method-not-found for any other |
| ServerAnswers.ExecutionsWereAskedFor | src/RpcServer.cc:621-705 | in every run an asynchronous handler runs only for a request the client sent to an asynchronous method, on its own connection |
| Cancellation.CancellationTakesEffect | src/RpcClient.cc:555-597 | a request given up on the living connection has its Cancel behind it there, and once the server has read what was sent the request is no longer active and its execution has met its fate |

## Left out

- mini_muduo (`EventLoop`, `TcpClient`, `TcpServer`, `TcpConnection`, `LengthHeaderCodec`) is not part of this model: it appears as environment events, in-order channels, a set of timers and the 64 MiB limit.
- Thread-affinity asserts, `queueInLoop` plumbing and weak pointers: loop tasks are atomic steps that run in any order; whether a weak pointer still locks is a parameter (`alive`).
- Destructors: runs end before destruction, which drops pending requests without calling them back (src/RpcClient.cc:36-40).
- `forceClose` and `disconnect` of the transport: they return a decision or set a flag; the resulting drop and down events come from the environment at any later time, or never.
- The thread-creation failure path of `TaskThreadPool::start` (src/TaskThreadPool.cc:27-42), which depends on operating-system exceptions, and `threads_.clear()`: exited workers stay listed.
- Setters, handler tables and retry switches: configuration is fixed, with the facts the setters assert as `Valid()`.
- Handler code: what a handler does is a parameter (an outcome, or replies at any time from any thread); the pool running handlers is proved separately and is not part of `EndToEnd`.
- Shared atomic flags behind cancellation tokens: a token is a numbered handle and the set flags are a set of handles, so sharing between copies of a token is by construction.
- The iteration order of hash maps: any order is allowed; the id order of the `std::map` of failing callbacks is kept.
- RpcClient.Client.Call: promises the invariant only for the first 2^64 - 1 calls, because after the counter wraps around ids repeat and no uniqueness can hold.
- calculator/: a fixed-width codec and thin wrappers that would repeat the byte-order argument.
- examples/, tests/, build files and logging.
