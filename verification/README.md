# Verified models of the server engine

This project models the concurrent services and the wire formats of the server
engine in Dafny and proves what they promise over whole runs. One module stands
for one component:

- `SqlRequests`, `SqlDriver`, `SqlService`: the SQL service. Requests are copied
  within byte limits, run by one worker as one SQLite transaction each, and
  delivered in id order. SQLite is a class whose methods choose their outcome
  freely within the contracts that state what is assumed of the library: a
  successful user statement keeps the transaction open, a failing one leaves it
  open or undoes it wholly, and a COMMIT that fails but ends the transaction is
  all-or-nothing. It keeps a ghost record of what it did during a request: the
  texts compiled, the calls that failed and the rows returned.
- `IocpCallbacks`, `IocpShutdown`, `IocpConnection`: the IOCP backend. Callback
  admission is modelled access by access, with the read of the closing flag and
  the increment of the callback count as separate steps, so that a close can fall
  between them; shutdown is modelled beside everything the threads can do.
- `EventQueue`, `Engine`, `HttpConnection`, `HttpCodec`, `TcpFraming`: the
  asynchronous engine, from bytes and requests to the event history of the host.
  `HttpSession` joins an HTTP connection to the engine it runs in.
- `RedisClient`, `RedisService`, `RedisReply`: the Redis service, the
  classification of outcomes, and the guard in front of the reply parser.
- `GnsEndpoint`, `GnsRuntime`: the datagram endpoints over GameNetworkingSockets
  and the runtime they share.
- `LineFraming`: incremental line splitting.
- `Sessions`: the session hub shared by the TCP listeners, which relies on the
  callback order proved of the IOCP backend.
- `Prelude`: options, bytes and concatenations.

The lemmas whose names end in "Answers", and those beside them, say what a call or
an event comes to in terms of what has happened in the run before: that the right
answer is given, and not only that no wrong one is.

A component is written twice. A datatype with a step function is the
specification: an action is one section of code under a mutex, or one handler of
a single-threaded loop, and a run is any sequence of actions. The lemmas under
"main results" in each file are about all runs. A class with the fields of the
original is the imperative form; its methods are proved to leave exactly the
state the step function gives. What the code cannot decide (whether an allocation
succeeds, whether a write can be initiated, what the network does) is a parameter
or a free choice.

`dafny verify dfyconfig.toml` checks the whole project.

## Findings

Four properties hold only in part; the code is modelled as it is.

- `Connection::post_next_send` drops the buffer it has taken off the queue when
  the submission fails, and later sends go on behind the gap
  (src/Net/Iocp/Connection.cpp:97-114). `IocpConnection.StreamConserved` holds if
  and only if no step of the run met the guard of a dropping branch;
  `IocpConnection.GapAfterFailedSubmit` is a run with the gap.
- A line that ends in CR does not survive line framing, because one trailing CR is
  taken for part of the line end (src/Net/Detail/LineFramer.h:50-66).
  `LineFraming.LinesRoundTrip` is an if-and-only-if.
- The reason for refusing a Redis reply can depend on the chunking, because the size
  of a chunk is checked before its header
  (src/Data/Redis/Connection.cpp:280-284). `RedisReply.ReasonDependsOnChunking` is
  the exact condition on the stream and the limits, and `RedisReply.ReasonCanDiffer`
  an input at the limit of an authentication.
- The comment at src/Net/Transports/Gns/Runtime.cpp:128-129 says that a retry after
  a too small buffer cannot lose its retained event to another receive burst. That
  holds of retries that come next (`GnsRuntime.RetryGetsTheEvent`). A poll of
  another endpoint in between pumps all endpoints and can overflow this one
  (`GnsRuntime.AnotherPollCanOverflow`). So can an incoming connection that is let
  in, when no id is left or its table entry cannot be stored
  (src/Net/Transports/Gns/EndpointEvents.cpp:92-117).
  `GnsRuntime.RetainedUnlessStopped` says for any run of the runtime exactly which
  steps in between lose the event.

## Model

| member | source | states |
|---|---|---|
| `SqlRequests.IdleBudgetSuffices` | src/Data/Sql/Request.cpp:10-82 | A request that is copied under decoded options fits the empty memory budget, reservation for the result included |
| `SqlRequests.CopyRequest` | src/Data/Sql/Request.cpp:37-82 | A request is copied exactly when every statement and parameter is well formed and the whole footprint, table sizes included, is within the limit; the copy holds the same text and values and reserves footprint plus largest result plus 1024 |
| `SqlRequests.CopyStatements` | src/Data/Sql/Request.cpp:42-77 | The running 64-bit byte count never wraps and refuses exactly the requests whose total footprint is over the limit |
| `SqlRequests.CopyStatement` | src/Data/Sql/Request.cpp:50-76 | One statement is accepted exactly when it is well formed and its cost still fits |
| `SqlRequests.CopyParameters` | src/Data/Sql/Request.cpp:61-75 | The parameters of a statement are accepted exactly when each is well formed and their bytes still fit |
| `SqlDriver.SqliteDriver.Execute` | src/Data/Sql/SqliteDriver.cpp:117-158 | One request is one transaction: Ok means all its statements are durable, every status but Ok and outcome-unknown means none is, unknown means all or none; afterwards the driver is poisoned or outside any transaction. An unpoisoned driver ends Ok if and only if no call of SQLite failed, neither stop nor the deadline was seen, every text compiled to one statement with as many placeholders as parameters and columns only on the last, and what SQLite gave could be read and is within rows, columns and bytes; then stop and deadline were looked at before, between and after the statements and at every row, and columns and rows are those SQLite gave. Every other status has its cause: I/O error one failed call, result too large an oversized value or a limit exceeded, invalid argument a text that does not fit, internal error something unreadable, cancelled and timeout what was seen, unknown a failed call |
| `SqlDriver.SqliteDriver.RunTransaction` | src/Data/Sql/SqliteDriver.cpp:128-140 | BEGIN, the statements in order, COMMIT: without an error the statements and nothing else have been added to the durable log; an error has its cause, and one other than unknown leaves the log alone; a stop that was there before comes to cancelled |
| `SqlDriver.SqliteDriver.RunStatements` | src/Data/Sql/SqliteDriver.cpp:131-134 | Every statement is executed inside the open transaction in order, each preceded by a look at stop and deadline, or the first error ends it with its cause and nothing durable |
| `SqlDriver.SqliteDriver.LeaveTransaction` | src/Data/Sql/SqliteDriver.cpp:149-157 | An open transaction is rolled back; the driver is poisoned exactly when that failed |
| `SqlDriver.SqliteDriver.Compile` | src/Data/Sql/SqliteStatement.cpp:27-46 | The text itself and what is behind its first statement are compiled; the statement goes on exactly when the first is a statement with as many placeholders as parameters, the second is none, the parameters are bound in order, and there are columns only on the final text |
| `SqlDriver.SqliteDriver.BindAll` | src/Data/Sql/SqliteStatement.cpp:43-44 | All parameters are bound in order, or the binding that failed is the cause of the error |
| `SqlDriver.ReadableWithinLimits` | src/Data/Sql/SqliteStatement.cpp:59-119 | A result that was read whole within its limits charges exactly the bytes of the names and cells SQLite gave, so neither a limit nor an unreadable cell could have refused it |
| `SqlDriver.SqliteDriver.ControlCommit` | src/Data/Sql/SqliteDriver.cpp:99-110 | A COMMIT that fails but has ended the transaction is outcome-unknown and all-or-nothing; one that leaves it open changes nothing |
| `SqlDriver.SqliteDriver.ControlBegin` | src/Data/Sql/SqliteDriver.cpp:99-110 | BEGIN opens an empty transaction or changes nothing, and the authorization for control statements is withdrawn again either way |
| `SqlDriver.SqliteDriver.Check` | src/Data/Sql/SqliteDriver.cpp:88-97 | A result code is an error exactly when it is neither OK nor DONE (a ROW is not passed to it); the error is cancelled or timeout when stop or the deadline is seen, and otherwise too large for TOOBIG and an I/O error for any other code |
| `SqlDriver.SqliteDriver.ShouldCancel` | src/Data/Sql/SqliteDriver.cpp:67-71 | Outside execute nothing is cancelled; inside, exactly when stop was requested or the deadline has passed |
| `SqlDriver.SqliteDriver.ExecuteStatement` | src/Data/Sql/SqliteStatement.cpp:25-57 | Preparing, binding and running one text keeps the transaction open with exactly the statement added, or fails without a durable effect |
| `SqlDriver.SqliteDriver.StepRows` | src/Data/Sql/SqliteStatement.cpp:48-57 | The row loop keeps and accounts exactly the rows SQLite returns, in order and cell by cell; on success the statement has completed and no part-read statement is abandoned inside the transaction |
| `SqlDriver.SqliteDriver.Account` | src/Data/Sql/SqliteStatement.cpp:59-64 | An addition is accepted exactly when the total stays within the result limit |
| `SqlDriver.SqliteDriver.ReadColumns` | src/Data/Sql/SqliteStatement.cpp:66-80 | Column names are taken over in order and charged, or refused because there are too many, their bytes exceed the limit, or one is missing |
| `SqlDriver.SqliteDriver.ReadRow` | src/Data/Sql/SqliteStatement.cpp:82-119 | The row appended holds the values of the cells of the current row, column by column, charged exactly, or the result is refused because the rows or the bytes of this row exceed the limit or a cell cannot be read |
| `SqlService.DurableMatchesReports` | src/Data/Sql/Service.cpp:18-123 | After any interleaving the durable database is the executed requests in id order, each whole: those reported Ok and some of unknown outcome; polls have reported exactly those statuses, once each, in strictly ascending id order |
| `SqlService.EffectsAreSerial` | src/Data/Sql/Service.cpp:46-76 | The log of what became durable is a serial selection of the request log |
| `SqlService.ContentIsSerial` | src/Data/Sql/Service.cpp:46-76 | Whatever statements mean, the content is that of running the applied requests one after another |
| `SqlService.StatesMonotoneInId` | src/Data/Sql/Service.cpp:39-99 | No request is behind one with a higher id, and at most one runs |
| `SqlService.StoppedMeansAllDelivered` | src/Data/Sql/Service.cpp:78-99 | Poll answers stopped if and only if the worker has ended and every accepted request has been delivered |
| `SqlService.PollAnswers` | src/Data/Sql/Service.cpp:78-99 | In every run a request that is complete and not delivered is handed out at once, the first of them, with its own status, whether the service runs or stops; with none, poll times out exactly as long as the worker has not ended |
| `SqlService.SubmitAnswers` | src/Data/Sql/Service.cpp:18-37 | In every run a copied request is accepted, under an id above all earlier ones, exactly when no stop was asked for, the requests held leave room in number and bytes, ids are left and the insertion succeeds; every refusal has its own cause |
| `SqlService.WorkerAnswers` | src/Data/Sql/Service.cpp:46-76 | In every run what the worker does next: it takes the first request that waits, or ends when a stop was asked for and none does; it cancels the one it holds when a stop was asked for and otherwise runs it; the outcome of the driver becomes the status of that request and no other, and its statements durable exactly when applied; and it publishes what it ran |
| `SqlService.HeldUntilReleased` | src/Data/Sql/Service.cpp:101-109 | In every run exactly the accepted requests that the host has not freed are held |
| `SqlService.ReleaseAnswers` | src/Data/Sql/Service.cpp:101-109 | In every run a release is granted exactly for a result that was handed to the host and not freed before, and gives its reservation back |
| `SqlService.IdleNeverRefusesForRoom` | src/Data/Sql/Service.cpp:18-37 | Reserved bytes are the sum over held requests, within the budget; a service that holds nothing never answers backpressure to a request copied under decoded options |
| `SqlService.StopLetsOneFinish` | src/Data/Sql/Service.cpp:46-76 | From any moment at which the service is stopping on: nothing is accepted any more; at most the one request inside the driver then can still become durable, whole or not at all; every other request not executed by then is reported cancelled without effect |
| `SqlService.CommitMayRaceStop` | src/Data/Sql/Service.cpp:63-66 | A run in which stop comes while a write is inside the driver and the write is durable and Ok afterwards |
| `SqlService.NobodyAddsWork` | src/Data/Sql/Service.cpp:18-123 | After stop no action of anybody gives the worker more to do |
| `SqlService.WorkerAdvances` | src/Data/Sql/Service.cpp:46-76 | After stop every worker step reduces queued plus running work, and the worker ends with everything accepted complete |
| `SqlService.FindState` | src/Data/Sql/Service.cpp:39-44 | The lowest id in the wanted state, or none |
| `SqlService.InvKept` | src/Data/Sql/Service.cpp:18-123 | Every section of every method keeps the invariant: order, states, budget, honesty of statuses |
| `SqlService.SqlService.Submit` | src/Data/Sql/Service.cpp:18-37 | The new state is that of the submit step, with its reply |
| `SqlService.SqlService.FindInOrder` | src/Data/Sql/Service.cpp:39-44 | The scan in id order finds exactly the first request in the state |
| `SqlService.SqlService.TakeNext` | src/Data/Sql/Service.cpp:46-62 | The first queued request becomes running, or the worker ends when the service is stopping and none is queued |
| `SqlService.SqlService.CheckHeld` | src/Data/Sql/Service.cpp:63-64 | Outside the lock the stop flag is read: the request is cancelled, or the worker enters the driver with it |
| `SqlService.SqlService.RunInDriver` | src/Data/Sql/Service.cpp:65-66 | The driver runs the request watching the flag stop sets; stop may come at any moment of it; the durable log grows as the outcome says |
| `SqlService.SqlService.WorkerStep` | src/Data/Sql/Service.cpp:48-75 | One round of the loop after stop, from wherever the worker is, uses up work |
| `SqlService.SqlService.PublishHeld` | src/Data/Sql/Service.cpp:66-75 | The held request is complete with the status of its execution |
| `SqlService.SqlService.PollNext` | src/Data/Sql/Service.cpp:78-99 | The first complete request is delivered, or the reply says why not |
| `SqlService.SqlService.ReleaseResult` | src/Data/Sql/Service.cpp:101-109 | Exactly a delivered result is released, and its reservation returned |
| `SqlService.SqlService.RequestStop` | src/Data/Sql/Service.cpp:111-123 | Stop is requested and nothing else changes |
| `SqlService.SqlService.RunToEnd` | src/Data/Sql/Service.cpp:46-76 | After stop the worker loop terminates with every accepted request complete; what was in the driver may have become durable, everything later has been cancelled |
| `IocpCallbacks.DisconnectedOnceAndLast` | src/Net/Iocp/Connection.cpp:30-73 | In every interleaving of close with callback entry and exit, on_disconnected comes at most once, never while a callback is active, and nothing follows it |
| `IocpCallbacks.ClosedAndQuiescentMeansNotified` | src/Net/Iocp/ServerConnections.cpp:45-63 | When all threads are done with it, a published connection has been notified exactly once if it is closed and not at all if it is open |
| `IocpCallbacks.ConnectedCallbackAdmitted` | src/Net/Iocp/ServerAccept.cpp:64-89 | Before publication nothing can close the connection, so the connected callback is always admitted |
| `IocpCallbacks.AdmittedUnlessClosing` | src/Net/Iocp/Connection.cpp:44-52 | A callback that has the lock is admitted, logged and counted exactly if the connection was not closing when it read the flag, whatever other threads do in between |
| `IocpCallbacks.DisconnectAnswers` | src/Net/Iocp/ServerConnections.cpp:45-63 | A disconnect closes the connection and takes it out of the registry; it notifies itself exactly when no callback is open and leaves it to the last one otherwise |
| `IocpCallbacks.LastOutNotifies` | src/Net/Iocp/Connection.cpp:54-63 | The last callback to leave brings the notification that was left to it |
| `IocpCallbacks.NobodyIsStuck` | src/Net/Iocp/Connection.cpp:44-73 | In every reachable state in which a thread is inside a callback or a disconnect, one of those can go on: the two mutexes never lock everyone out |
| `IocpCallbacks.OneNoticeKept` | src/Net/Iocp/Connection.cpp:54-73 | From erasure on there is exactly one obligation to notify: with a thread, deferred to the last callback, or discharged |
| `IocpCallbacks.CountedKept` | src/Net/Iocp/Connection.cpp:44-63 | The callback count is the number of threads inside a scope, and the log agrees |
| `IocpCallbacks.QuietKept` | src/Net/Iocp/Connection.cpp:44-73 | Once notified, no callback is active and none that has read the flag can still enter |
| `IocpCallbacks.ProperKept` | src/Net/Iocp/ServerConnections.cpp:10-20 | A notification is added to the log only when no callback is open and none came before |
| `IocpShutdown.DrainIsFinal` | src/Net/Iocp/ServerLifecycle.cpp:54-88 | The pending count is the number of live operations; past the drain there is none, every connection ever created is closing, and no step that starts an operation is enabled |
| `IocpShutdown.WakesMatchWorkers` | src/Net/Iocp/ServerLifecycle.cpp:77-85 | No worker leaves before the drain; while stop joins, packets and remaining workers are equal in number and one of them can go on |
| `IocpShutdown.PortClosesUnused` | src/Net/Iocp/ServerLifecycle.cpp:54-88 | When the port closes, every worker has left, no operation is live, no packet is queued and the accept thread is gone |
| `IocpShutdown.StopProgresses` | src/Net/Iocp/ServerLifecycle.cpp:54-88 | Once stop has begun it never gets stuck: at each of its stages, until the port is closed, it or a thread it waits for has an enabled step forward |
| `IocpShutdown.StartAnswers` | src/Net/Iocp/Connection.cpp:75-95 | In every run an operation can be started on a connection exactly from its acceptance until somebody closes it, also while the server is stopping |
| `IocpShutdown.DrainProgresses` | src/Net/Iocp/ServerIo.cpp:10-39 | While the drain waits with an operation live, some thread has an enabled step towards finishing one |
| `IocpShutdown.DrainStepsLower` | src/Net/Iocp/ServerLifecycle.cpp:74-76 | While the server drains, every step any thread can take changes nothing or lowers a measure over live operations, busy workers and registered connections |
| `IocpShutdown.DrainIsBounded` | src/Net/Iocp/ServerLifecycle.cpp:74-76 | However the threads take turns, the drain has no more effective steps than that measure |
| `IocpShutdown.CountedKept` | src/Net/Iocp/Operation.h:21-27 | Building, handing over and destroying an operation keep the pending count exact |
| `IocpShutdown.ClosedBeforeErasedKept` | src/Net/Iocp/ServerConnections.cpp:45-63 | A published connection that left the registry is closing |
| `IocpShutdown.StopOrderKept` | src/Net/Iocp/ServerLifecycle.cpp:60-76 | After the accept thread is joined no connection is created, and after the closing loop all are closing |
| `IocpShutdown.WakesKept` | src/Net/Iocp/CompletionPort.cpp:44-47 | Posted wake packets are those queued plus those taken by workers that have left |
| `IocpShutdown.CompletionPort.OperationStarted` | src/Net/Iocp/CompletionPort.cpp:49-53 | The constructor of an operation is the step of the machine that adds it, and the count stays the number of live operations |
| `IocpShutdown.CompletionPort.OperationFinished` | src/Net/Iocp/CompletionPort.cpp:55-61 | The destructor of an operation is the step that removes it; the waiter is woken exactly when no operation is live |
| `IocpConnection.StreamConserved` | src/Net/Iocp/Connection.cpp:85-146 | While open, completed bytes, the rest of the one operation in flight and the queue are all the bytes handed to send in the run, in order, if and only if no step of the run met the guard of a dropping branch: a refused submission with a buffer to submit, or an operation given up |
| `IocpConnection.SendAnswers` | src/Net/Iocp/Connection.cpp:85-95 | In every run a send is answered true exactly when nobody has closed the connection and no submission was refused for it; with a send in flight the data joins the queue |
| `IocpConnection.CompletionAnswers` | src/Net/Iocp/Connection.cpp:116-129 | In every run a completion is answered false exactly when what it wanted to submit next was refused |
| `IocpConnection.AcceptedIsOffered` | src/Net/Iocp/Connection.cpp:85-95 | What has been accepted is the concatenation of all data handed to send before the connection was closed |
| `IocpConnection.CompletedIsTransferred` | src/Net/Iocp/Connection.cpp:116-129 | As many bytes have completed as the completions of the run reported as sent |
| `IocpConnection.DropsLose` | src/Net/Iocp/Connection.cpp:97-129 | A step loses bytes exactly when the guard of a dropping branch holds |
| `IocpConnection.LostByDropping` | src/Net/Iocp/Connection.cpp:85-146 | A run has lost nothing if and only if no step of it met such a guard |
| `IocpConnection.GapAfterFailedSubmit` | src/Net/Iocp/Connection.cpp:97-114 | A concrete run: after a failed submission the next send goes through and the peer sees a gap |
| `IocpConnection.Connection.Close` | src/Net/Iocp/Connection.cpp:30-42 | Closing sets the flag and clears the queue, once |
| `IocpConnection.Connection.BeginCallback` | src/Net/Iocp/Connection.cpp:44-52 | A callback is admitted and counted exactly when the connection is not closing |
| `IocpConnection.Connection.EndCallback` | src/Net/Iocp/Connection.cpp:54-63 | The last callback out takes over a deferred notification |
| `IocpConnection.Connection.RequestDisconnectNotification` | src/Net/Iocp/Connection.cpp:65-73 | The caller notifies when no callback is active, otherwise it is deferred |
| `IocpConnection.Connection.SendBytes` | src/Net/Iocp/Connection.cpp:85-95 | The data is queued, and a send is started when none is in progress |
| `IocpConnection.Connection.PostNextSend` | src/Net/Iocp/Connection.cpp:97-114 | The front buffer is submitted; when that fails it is gone |
| `IocpConnection.Connection.CompleteSend` | src/Net/Iocp/Connection.cpp:116-129 | A partial completion resubmits the rest, a whole one goes on with the queue |
| `IocpConnection.Registry.Disconnect` | src/Net/Iocp/ServerConnections.cpp:45-63 | The connection is closed and erased, and the caller notifies exactly when no callback was active |
| `IocpConnection.Registry.CloseAllConnections` | src/Net/Iocp/ServerConnections.cpp:84-89 | Every registered connection ends closed and the registry empty |
| `EventQueue.FaithfulFifo` | src/Runtime/Host/EventQueue.cpp:13-75 | Without overflow, delivered followed by queued is the accepted history numbered 1, 2, 3..., bytes are the queued payload sum, both limits hold, and stopped is said only when all has been delivered |
| `EventQueue.PushAnswers` | src/Runtime/Host/EventQueue.cpp:13-38 | In every run an event that finds room and memory in a queue neither finished nor overflowed is accepted as it is, under the next number; one that does not makes the queue overflow; in a finished or overflowed queue nothing changes |
| `EventQueue.PollAnswers` | src/Runtime/Host/EventQueue.cpp:40-68 | In every run without overflow the first event accepted and not delivered goes to any buffer it fits; timeout is said exactly when everything accepted has been delivered and the queue is not finished, and stopped exactly when it is |
| `EventQueue.TooSmallConsumesNothing` | src/Runtime/Host/EventQueue.cpp:40-68 | A too small buffer changes nothing, and a retry with the reported size gets the same event |
| `EventQueue.RetryAfterPushes` | src/Runtime/Host/EventQueue.cpp:13-68 | A retry that comes after any pushes gets the same event if and only if every push found room and memory |
| `EventQueue.OverflowIsTerminal` | src/Runtime/Host/EventQueue.cpp:13-75 | After overflow every push fails; polls give one overflow event numbered above all accepted and then stopped for ever, whatever finish does |
| `EventQueue.OneOverflowEvent` | src/Runtime/Host/EventQueue.cpp:40-50 | A whole run delivers at most one overflow event |
| `EventQueue.PushKeeps` | src/Runtime/Host/EventQueue.cpp:13-38 | A push keeps numbering, order, byte count and limits, or makes the queue terminal |
| `EventQueue.PollKeeps` | src/Runtime/Host/EventQueue.cpp:40-68 | A poll moves the front entry to the delivered events and gives its bytes back |
| `EventQueue.Events.Push` | src/Runtime/Host/EventQueue.cpp:13-38 | The new state and the answer are those of a push |
| `EventQueue.Events.Poll` | src/Runtime/Host/EventQueue.cpp:40-68 | The new state and the reply are those of a poll |
| `EventQueue.Events.Finish` | src/Runtime/Host/EventQueue.cpp:70-75 | Finish marks the queue stopped and keeps its entries |
| `Engine.EventGrammar` | src/Net/Async/ConnectionState.cpp:41-70 | In every run a session's accepted events read Open, messages or requests, at most one final Close; without overflow a missing Close means that the session is still registered |
| `Engine.EveryOpenIsClosed` | src/Runtime/Host/ServerHost.cpp:44-52 | After a stop without overflow, a host that polls to the end has received exactly one Close, as last event, for every Open |
| `Engine.IndexAndLimit` | src/Net/Async/UdpListener.cpp:52-134 | The endpoint index and the registered UDP sessions are inverse to each other throughout, and the connection limit holds |
| `Engine.MessagesArrive` | src/Net/Async/ConnectionState.cpp:53-62 | In every run the payloads of the message events accepted for a session are, in order and byte for byte, what was published for it while it was open and the queue took it, and the same of its requests; what the host has polled is an initial part |
| `Engine.AdmitAnswers` | src/Net/Async/WorkerContext.cpp:17-22 | In every run a connection is admitted exactly when no stop has begun, no session has its UDP endpoint, the limit leaves room and ids are left |
| `Engine.OpenAnswers` | src/Net/Async/ConnectionState.cpp:41-51 | A session that was admitted is opened and the host told exactly when the queue takes the event; otherwise it leaves the registry untold |
| `Engine.MessageAnswers` | src/Net/Async/ConnectionState.cpp:53-62 | A message of an open session is told to the host exactly when the queue takes it; otherwise the session is closed |
| `Engine.CloseAnswers` | src/Net/Async/WorkerContext.cpp:42-52 | Closing takes exactly that session out of the registry, and tells the host when it was open and the queue takes the event |
| `Engine.PollAnswers` | src/Runtime/Host/EventQueue.cpp:40-68 | Without overflow a poll of the host gets the first event it was told and has not polled, whenever its buffer holds it, and changes no session |
| `Engine.GrammarByPhase` | src/Net/Async/ConnectionState.cpp:41-70 | A history that never reads malformed is grammatical, and ended exactly when its last event is a Close |
| `Engine.CloseKeeps` | src/Net/Async/WorkerContext.cpp:42-52 | Removing a session and pushing its Close, if it was open, keeps histories, index and limits in agreement |
| `Engine.MessageKeeps` | src/Net/Async/ConnectionState.cpp:53-62 | Publishing a message keeps the agreement, also when the push fails and the session is closed |
| `Engine.OpenKeeps` | src/Net/Async/ConnectionState.cpp:41-51 | Publishing an open keeps the agreement; a refused one removes the session without a Close |
| `Engine.AdmitKeeps` | src/Net/Async/UdpListener.cpp:114-134 | Admission under a fresh id keeps the agreement |
| `Engine.WorkerContext.AllocateSessionId` | src/Net/Async/WorkerContext.cpp:5-9 | The next id, counting up, with 0 once the ids are used up |
| `Engine.WorkerContext.AdmitSession` | src/Net/Async/WorkerContext.cpp:17-22 | A session is registered under a fresh id, unless stopping, full, out of ids or already indexed |
| `Engine.WorkerContext.OpenSession` | src/Net/Async/ConnectionState.cpp:41-51 | The open is published and the session marked open, which the answer says exactly, or it is removed |
| `Engine.WorkerContext.PublishToHost` | src/Net/Async/ConnectionState.cpp:53-62 | The message is published, or the session is closed; the answer says which |
| `Engine.WorkerContext.CloseSession` | src/Net/Async/WorkerContext.cpp:42-52 | The session leaves registry and index, and its Close is pushed when it was open |
| `Engine.WorkerContext.CloseAll` | src/Net/Async/TransportService.cpp:188-223 | Admission ends first, then closing one session after another empties the registry |
| `Engine.WorkerContext.StopHost` | src/Runtime/Host/ServerHost.cpp:44-52 | The transport stops, which empties the registry, and then the queue is finished |
| `HttpConnection.OneActivity` | src/Net/Async/HttpConnection.h:50-241 | An open connection is in exactly one of handshake, read, waiting for the host, and write; a closed one waits for nobody; each reply has a read of its own |
| `HttpConnection.ResponsesInRequestOrder` | src/Net/Async/HttpConnection.h:50-241 | The ids answered are an initial part of the ids delivered, which ascend, with at most the last unanswered; an error response ends the wire (section 9.3.2 of RFC 9112) |
| `HttpConnection.OnlyTheWaitingRequest` | src/Net/Async/HttpConnection.h:50-60 | A response is accepted only for the last request delivered, and only while it is unanswered |
| `HttpConnection.StaleIdIsRefused` | src/Net/Async/HttpConnection.h:50-85 | Once a delivered request no longer waits, no response for its id is accepted, whatever happens next |
| `HttpConnection.EveryRequestDecodes` | src/Net/Async/HttpConnection.h:150-185 | Every payload handed to the host is accepted by the decoder, under the id a response has to name |
| `HttpConnection.DeliveredIsReadable` | src/Net/Async/HttpConnection.h:121-185 | A payload decodes to exactly the method, target, header text and body that were read |
| `HttpConnection.GoodRequestIsDelivered` | src/Net/Async/HttpConnection.h:121-185 | A complete request without a fault, on an open connection with ids left and a host that accepts, adds exactly one delivery under the next id, which decodes to what was read, and writes nothing; a fault is a version other than 1.1, no Host or more than one or an empty one, Expect, CONNECT or Upgrade, a target that is neither in origin form nor * with OPTIONS, is longer than 2048 bytes or holds #, a method that is not 1 to 32 bytes long, header text over 16 KiB, or a total over the limit |
| `HttpConnection.BadRequestIsRefused` | src/Net/Async/HttpConnection.h:121-209 | A request with a fault is not delivered: exactly the status of its first fault is written, 505, 400, 417, 501, 400, 431 or 413, and the connection ends, also when that write cannot start |
| `HttpConnection.RefusedForItsFault` | src/Net/Async/HttpConnection.h:121-137 | The checks of the header refuse it exactly for the first of its faults and with the status of that fault |
| `HttpConnection.HeaderAnswers` | src/Net/Async/HttpConnection.h:112-118 | Of a header whose body is still to come, one without fault has the body read, and any other is refused at once |
| `HttpConnection.ReadFailureAnswers` | src/Net/Async/HttpConnection.h:187-196 | End of stream and abort close silently, a body over its limit is 413, a header over its limit or a full buffer 431, and anything else 400 |
| `HttpConnection.WaitingRequestIsAnswered` | src/Net/Async/HttpConnection.h:50-85 | As long as the connection is open and its last delivery unanswered, a valid response under that id that fits the send limit is accepted and is the next thing on the wire unless the write cannot start |
| `HttpConnection.ReadingGoesOn` | src/Net/Async/HttpConnection.h:231-236 | After the handshake a connection reads, and after a reply that keeps it it reads again; otherwise it closes |
| `HttpConnection.HeaderTextSays` | src/Net/Async/HttpConnection.h:154-166 | The header text is one line for each field, in order: name, colon and space, value, line end |
| `HttpConnection.BuildHeaders` | src/Net/Async/HttpConnection.h:154-166 | The header loop gives up exactly when the whole header text exceeds 16 KiB, and otherwise builds it |
| `HttpConnection.StepKeeps` | src/Net/Async/HttpConnection.h:50-241 | Every handler keeps the invariant |
| `HttpConnection.HttpConnection.RespondHttp` | src/Net/Async/HttpConnection.h:50-74 | A response is accepted exactly when it names the waiting request and fits, and then the write starts |
| `HttpConnection.HttpConnection.DispatchRequest` | src/Net/Async/HttpConnection.h:150-185 | The request is refused with its status, or handed over under a fresh id |
| `HttpConnection.HttpConnection.ValidateRequestHeader` | src/Net/Async/HttpConnection.h:121-137 | The header passes exactly when no check refuses it; otherwise the first refusal is written |
| `HttpConnection.HttpConnection.OnHeader` | src/Net/Async/HttpConnection.h:112-118 | A header is validated, and the request dispatched or its body read |
| `HttpConnection.HttpConnection.OnReadFailure` | src/Net/Async/HttpConnection.h:187-196 | End of stream and abort close; limits and bad requests are answered with their status |
| `HttpConnection.HttpConnection.RejectRequest` | src/Net/Async/HttpConnection.h:198-209 | An error response that ends the connection is written, or the connection closed when the send limit is below 256 bytes |
| `HttpConnection.HttpConnection.WriteResponse` | src/Net/Async/HttpConnection.h:223-241 | The pending id is given up before the write starts |
| `HttpConnection.HttpConnection.OnWritten` | src/Net/Async/HttpConnection.h:231-236 | After a reply the connection closes or reads the next request |
| `HttpConnection.RequestIds.Allocate` | src/Net/Async/WorkerContext.cpp:11-15 | The next request id, counting up, with 0 once the ids are used up |
| `HttpSession.RequestsAreTheDeliveries` | src/Net/Async/HttpConnection.h:150-185 | In every run of an HTTP connection inside the engine the HttpRequest events the queue has accepted for its session are exactly the deliveries of the connection, byte for byte and in order; the polled ones are an initial part; the session is registered, and open, exactly as long as the connection is |
| `HttpSession.ResponseNamesTheLastRequest` | src/Net/Async/HttpConnection.h:50-74 | Whenever the connection accepts a response, the last HttpRequest event accepted for the session decodes at the host to the id the response names |
| `HttpSession.HandlerGoesOn` | src/Net/Async/HttpConnection.h:99-205 | A handler that publishes nothing does not depend on the host; one whose publication is refused closes the connection without a delivery; one whose publication is taken goes on open, with exactly that delivery added |
| `HttpSession.ForeignKept` | src/Net/Async/WorkerContext.cpp:17-59 | What the engine does for other sessions leaves this session and its requests alone |
| `HttpCodec.DecodeOfEncode` | src/Net/Async/HttpRequestCodec.cpp:25-72 | Decoding an encoded request succeeds for exactly the legal sizes and gives back id and slices |
| `HttpCodec.EncodeOfDecode` | src/Net/Async/HttpRequestCodec.cpp:25-72 | Every accepted payload is the encoding of the legal request it decodes to |
| `HttpCodec.EncodedLayout` | src/Net/Async/HttpRequestCodec.cpp:25-47 | A request is encoded exactly when its size can be written in 32 bits: the letters SEH and version 1, then little-endian the size, both halves of the id and the four lengths, and from byte 32 on method, target, headers and body |
| `HttpCodec.DecodedTiles` | src/Net/Async/HttpRequestCodec.cpp:49-72 | The four slices tile the payload from byte 32 to its end; no 32-bit offset wraps |
| `HttpCodec.WriteU32` | src/Net/Async/HttpRequestCodec.cpp:11-14 | Four bytes become the little-endian word and no other byte changes |
| `HttpCodec.ReadU32` | src/Net/Async/HttpRequestCodec.cpp:16-21 | The value is the little-endian word at the offset |
| `HttpCodec.EncodeHttpRequest` | src/Net/Async/HttpRequestCodec.cpp:25-47 | The buffer is the envelope followed by the four parts, or the length error |
| `HttpCodec.DecodeHttpRequest` | src/Net/Async/HttpRequestCodec.cpp:49-72 | The view is that of the payload, or none |
| `RedisService.ContiguousIds` | src/Data/Redis/Service.cpp:32-137 | Delivered, ready, running and pending requests are, in this order, the accepted ones with ids 1, 2, 3...; the end is reported only when all have been delivered |
| `RedisService.BudgetsAreExact` | src/Data/Redis/Service.cpp:42-137 | In-flight count, queue bytes and reserved bytes are the sums they stand for, never negative and within limits, and held result bytes are within the reservations |
| `RedisService.SubmitAnswers` | src/Data/Redis/Service.cpp:32-70 | In every run a valid call within what the outstanding requests leave of the three limits is accepted under the next id unless a stop was asked for, ids are used up or memory is out; every refusal has its own cause |
| `RedisService.WorkerRound` | src/Data/Redis/Service.cpp:72-110 | In every run, as long as no stop was asked for, a round of the worker runs the first request that waits and publishes it with what its command came to, behind everything finished before |
| `RedisService.StopEndsTheWorker` | src/Data/Redis/Service.cpp:77-91 | When the worker finds the service stopping it fails every request that waits, and has then ended |
| `RedisService.PollAnswers` | src/Data/Redis/Service.cpp:112-137 | In every run the first finished request not delivered goes to any buffer that holds its value; with none, the end is said if and only if the worker has ended, and then everything accepted has been delivered |
| `RedisService.DeliveredStatusIsTrue` | src/Data/Redis/Service.cpp:72-137 | A delivered write reported Ok ran at the server exactly once, an unknown one at most once, any other never; a read reported Ok answers what the server held then |
| `RedisService.ServerRunsInOrder` | src/Data/Redis/Service.cpp:72-110 | Only accepted writes run at the server, and those run while the client waits run in id order |
| `RedisService.IdleAdmits` | src/Data/Redis/Service.cpp:42-50 | Under validated options a service with nothing outstanding never answers backpressure |
| `RedisService.StepKeeps` | src/Data/Redis/Service.cpp:32-149 | Every section keeps record, budgets and order |
| `RedisService.Service.Admit` | src/Data/Redis/Service.cpp:36-50 | The checks, in their order, with the unsigned differences they take |
| `RedisService.Service.SubmitRequest` | src/Data/Redis/Service.cpp:32-70 | A request is accepted with the next id and accounted, or nothing changes |
| `RedisService.Service.TakeNext` | src/Data/Redis/Service.cpp:77-91 | The front of the pending list runs, unless stopping |
| `RedisService.Service.ExecuteRunning` | src/Data/Redis/Service.cpp:93-100 | The running request gets the completion of one command |
| `RedisService.Service.PublishDone` | src/Data/Redis/Service.cpp:101-108 | The request becomes ready and its queue bytes are released |
| `RedisService.Service.CancelPending` | src/Data/Redis/Service.cpp:80-85 | Every pending request is failed as stopped and its queue bytes are released |
| `RedisService.Service.EndWorker` | src/Data/Redis/Service.cpp:79-90 | After stop the pending requests follow the ready ones and the worker has ended |
| `RedisService.Service.PollNext` | src/Data/Redis/Service.cpp:112-137 | The front result is delivered and its reservation returned, or nothing changes |
| `RedisClient.StatusTellsTheFate` | src/Data/Redis/Connection.cpp:47-147 | Ok means the command ran while the client waited; unknown is said only of a write that may have been sent; any other status of a write means it did not and will not run |
| `RedisClient.OkMeansAnswered` | src/Data/Redis/Connection.cpp:47-138 | Ok is said exactly of a command that was sent and answered by an answer that fits: no refused step, lost command, rejection or reply of another shape passes for it |
| `RedisClient.UnknownMeansInDoubt` | src/Data/Redis/Connection.cpp:47-147 | Unknown is said exactly of a write that may have been sent and got no answer that fits it |
| `RedisClient.SentSaysWhy` | src/Data/Redis/Connection.cpp:96-138 | Of a command that was sent, a failed read says what went wrong, a rejection is an error, a value over the limit is too large, and an answer that fits is Ok |
| `RedisClient.UnsentSaysWhy` | src/Data/Redis/Connection.cpp:47-95 | A command that was not sent says at which step it ended |
| `RedisClient.HeldBytes` | src/Data/Redis/Connection.cpp:111-126 | Only a read holds result bytes, never more than the value limit |
| `RedisClient.Request.Run` | src/Data/Redis/Connection.cpp:47-147 | The completion is the classification of what happened |
| `RedisReply.ChunkingIsIrrelevant` | src/Data/Redis/Connection.cpp:241-302 | As long as the parser asks for more, a reply within the limit is refused exactly when one scan of all its bytes refuses it, for the same reason, in any chunking; a reply beyond the limit is refused in any chunking |
| `RedisReply.ParserIsGuarded` | src/Data/Redis/Connection.cpp:270-302 | The parser is never fed bytes that a scan would refuse, in particular no header with too large a length; no more than the limit is received |
| `RedisReply.ReasonDependsOnChunking` | src/Data/Redis/Connection.cpp:241-302 | Two chunkings of a stream that are refused for different reasons exist if and only if its type is good, it is longer than the limit, its header is bad within the limit, and the header ends late enough for one read to reach from before its end past the limit |
| `RedisReply.BoundaryDecides` | src/Data/Redis/Connection.cpp:280-284 | Beyond the limit the last chunk boundary within it decides: what a scan refuses up to there is the reason, otherwise the size is |
| `RedisReply.ParserDecides` | src/Data/Redis/Connection.cpp:270-302 | Once everything has been let through, the reply is done exactly when the parser has a whole reply and no byte behind it, it is malformed when there are more bytes or the parser gives up, and otherwise the reading goes on |
| `RedisReply.BulkLengthDecides` | src/Data/Redis/Connection.cpp:241-268 | A bulk length in digits passes exactly when it is at most the limit; beyond it the reply is too large, and beyond 64 bits malformed |
| `RedisReply.NegativeLengthDecides` | src/Data/Redis/Connection.cpp:241-268 | Of the bulk lengths with a minus sign exactly those of value -1 and 0 pass, and every other is malformed |
| `RedisReply.NoLengthIsMalformed` | src/Data/Redis/Connection.cpp:251-257 | A bulk length that is no decimal number is malformed |
| `RedisReply.OtherTypesPass` | src/Data/Redis/Connection.cpp:241-268 | Every other known type passes with any first line that ends in time |
| `RedisReply.UnknownTypeIsMalformed` | src/Data/Redis/Connection.cpp:241-268 | A first byte that is no known type is malformed |
| `RedisReply.EndlessLineIsTooLarge` | src/Data/Redis/Connection.cpp:241-268 | A first line that does not end within 4096 bytes is too large as soon as there are more, and undecided before |
| `RedisReply.ReasonCanDiffer` | src/Data/Redis/Connection.cpp:209-228 | An input at the limit of an authentication, with the two ways to cut it |
| `RedisReply.ReadIsScan` | src/Data/Redis/Connection.cpp:241-268 | Reading byte by byte comes to what one scan for the first line end in the first 4096 bytes says |
| `RedisReply.FirstCrLfIsFirst` | src/Data/Redis/Connection.cpp:244-249 | The line end found is the first one |
| `RedisReply.ReplyGuard.CheckHeader` | src/Data/Redis/Connection.cpp:241-268 | The header state after a chunk is that of reading its bytes one by one |
| `RedisReply.ReplyGuard.ParseLength` | src/Data/Redis/Connection.cpp:251-257 | The announced length is the decimal 64-bit number that takes up the whole line |
| `RedisReply.ReplyGuard.OnRead` | src/Data/Redis/Connection.cpp:270-302 | What is received, fed and decided after a read is as the guard says |
| `GnsEndpoint.EventGrammarHolds` | src/Net/Transports/Gns/EndpointEvents.cpp:8-145 | The events pushed for a peer id, and those polled, read Connected, messages, at most one final Disconnected, or a lone Disconnected |
| `GnsEndpoint.IdsAreNeverReused` | src/Net/Transports/Gns/Runtime.cpp:61-66 | Once the Disconnected of an id has been pushed no event for it is ever pushed again, even when handles are reused |
| `GnsEndpoint.ConnectGivesAFreshId` | src/Net/Transports/Gns/Endpoint.cpp:49-67 | A successful connect returns an id that no event and no peer has had |
| `GnsEndpoint.LimitsHold` | src/Net/Transports/Gns/EndpointEvents.cpp:14-52 | Peers, queued events and bytes stay within limits; the byte count is the sum of queued costs; while running, polled and queued is what was pushed |
| `GnsEndpoint.OverflowIsTerminal` | src/Net/Transports/Gns/EndpointEvents.cpp:8-43 | Overflow empties table and queue for good and is reported exactly once before the end |
| `GnsEndpoint.MessagesArrive` | src/Net/Transports/Gns/EndpointEvents.cpp:120-145 | In every run the messages pushed for a peer are, in order and byte for byte, those the library handed over for it while it was up, within the size limit, and the queue took them; those polled are an initial part |
| `GnsEndpoint.PollAnswers` | src/Net/Transports/Gns/EndpointEvents.cpp:35-52 | While the endpoint runs, the first event pushed and not polled goes to any buffer that holds its payload, and there is no event exactly when all have been polled |
| `GnsEndpoint.StoppedAnswers` | src/Net/Transports/Gns/EndpointEvents.cpp:35-52 | A stopped endpoint answers its one overflow, if it stopped by overflowing, and then only the end |
| `GnsEndpoint.PeerAnswers` | src/Net/Transports/Gns/EndpointEvents.cpp:54-118 | A peer comes up and its host is told when the library says so of an encrypted connection for the first time; it is dropped when the connection is not encrypted, goes down or is disconnected |
| `GnsEndpoint.MessageAnswers` | src/Net/Transports/Gns/EndpointEvents.cpp:131-143 | A message that is too long or too early drops its peer, and the host is told when the queue takes it |
| `GnsEndpoint.ConnectionAnswers` | src/Net/Transports/Gns/EndpointEvents.cpp:76-118 | An incoming connection enters the table under the next id exactly when the endpoint runs, the table has room, the address may connect, the configuration took, and there are an id and memory |
| `GnsEndpoint.RefusedConnectionAnswers` | src/Net/Transports/Gns/EndpointEvents.cpp:92-117 | A connection that is let in but not accepted uses up an id, and its host is told that it ended |
| `GnsEndpoint.ConnectAnswers` | src/Net/Transports/Gns/Endpoint.cpp:49-67 | A connect gives the next id exactly when the endpoint runs, the address is good, the table has room, the library made the connection, and there are an id and memory; every failure has its own cause |
| `GnsEndpoint.StepKeeps` | src/Net/Transports/Gns/Endpoint.cpp:49-115 | Every operation and callback keeps table, histories and queue in agreement |
| `GnsEndpoint.GrammarByPhase` | src/Net/Transports/Gns/EndpointEvents.cpp:76-145 | A history that never reads malformed is grammatical |
| `GnsEndpoint.PeerIds.Allocate` | src/Net/Transports/Gns/Runtime.cpp:61-66 | The next public id, or the failure of a used-up counter |
| `GnsEndpoint.DatagramEndpoint.PushEvent` | src/Net/Transports/Gns/EndpointEvents.cpp:14-33 | The event is queued, or the endpoint overflows |
| `GnsEndpoint.DatagramEndpoint.TakeNext` | src/Net/Transports/Gns/EndpointEvents.cpp:35-52 | The reply and the new state of a poll |
| `GnsEndpoint.DatagramEndpoint.DropPeer` | src/Net/Transports/Gns/EndpointEvents.cpp:54-68 | The peer leaves the table and its Disconnected is pushed |
| `GnsEndpoint.DatagramEndpoint.OnStatusChange` | src/Net/Transports/Gns/EndpointEvents.cpp:76-118 | The new state after a native status change, with the overflow of a connection that is let in but finds no id or no memory for its table entry |
| `GnsEndpoint.DatagramEndpoint.HandleMessage` | src/Net/Transports/Gns/EndpointEvents.cpp:131-143 | A message is pushed, or its peer dropped when it is too long or too early |
| `GnsEndpoint.DatagramEndpoint.Receive` | src/Net/Transports/Gns/EndpointEvents.cpp:120-145 | A pump handles the arrivals in order, at most 64, and stops early only when the endpoint stops |
| `GnsEndpoint.DatagramEndpoint.ConnectPeer` | src/Net/Transports/Gns/Endpoint.cpp:49-67 | Status, id and table after a connect; an entry that cannot be stored uses up an id |
| `GnsEndpoint.DatagramEndpoint.FindPeer` | src/Net/Transports/Gns/Endpoint.cpp:26-29 | A handle with the id is found exactly when there is one |
| `GnsEndpoint.DatagramEndpoint.DisconnectPeer` | src/Net/Transports/Gns/Endpoint.cpp:90-97 | The peer with the id is dropped, or the reply says why not |
| `GnsEndpoint.DatagramEndpoint.ShutDown` | src/Net/Transports/Gns/Endpoint.cpp:99-115 | The endpoint is stopped and empty |
| `GnsRuntime.PeerIdsAreGlobal` | src/Net/Transports/Gns/Runtime.cpp:61-98 | In every run a public peer id belongs to one endpoint only, destroyed ones included; at most 64 endpoints live, and a destroyed one stays stopped |
| `GnsRuntime.RegistryAnswers` | src/Net/Transports/Gns/Runtime.cpp:83-98 | In every run an endpoint is created, empty and under a handle never used before, exactly when fewer than 64 live, handles are left and it can be built; a destroyed one is stopped and can no longer be reached |
| `GnsRuntime.RetryGetsTheEvent` | src/Net/Transports/Gns/Runtime.cpp:117-139 | A poll that answers too small changes nothing, and a retry that comes next gets the same event whatever has been received meanwhile |
| `GnsRuntime.RetainedUnlessStopped` | src/Net/Transports/Gns/Runtime.cpp:128-130 | In any run of the runtime, after any further calls that do not poll the endpoint, polls of other endpoints and their pumps included, a retry gets the retained event if and only if in none of the steps the endpoint saw meanwhile an event found no room or memory, a connection that was let in found no id or no memory for its table entry, a receive failed, or the endpoint was shut down |
| `GnsRuntime.EndsStop` | src/Net/Transports/Gns/EndpointEvents.cpp:8-118 | A step stops a running endpoint exactly when one of those guards holds |
| `GnsRuntime.RunProjects` | src/Net/Transports/Gns/Runtime.cpp:15-66 | A run of the runtime is, for each endpoint, a run of the machine of that endpoint on the steps it sees, in which ids taken by other endpoints are steps too |
| `GnsRuntime.GrammarEverywhere` | src/Net/Transports/Gns/Runtime.cpp:83-139 | In every run of the runtime the history of each endpoint keeps the event grammar and its limits hold |
| `GnsRuntime.AnotherPollCanOverflow` | src/Net/Transports/Gns/Runtime.cpp:44-48 | A run of the runtime from the start, under limits the options may have: when another endpoint is polled between the two calls, a message overflows the first endpoint and the retry gets the overflow |
| `GnsRuntime.WaitingIsReached` | src/Net/Transports/Gns/Runtime.cpp:83-139 | Creating two endpoints, connecting one and polling it leads to the state in which its queue is full and its buffer was too small |
| `GnsRuntime.StepSees` | src/Net/Transports/Gns/Endpoint.cpp:49-97 | A step shows an endpoint no peer but those it knew and the one the counter gives next |
| `GnsRuntime.ActKeeps` | src/Net/Transports/Gns/Runtime.cpp:52-59 | A call on one endpoint keeps every endpoint sound and their peers apart |
| `GnsRuntime.Registrar.CreateEndpoint` | src/Net/Transports/Gns/Runtime.cpp:83-98 | A fresh endpoint under a fresh handle; none beyond the limits, or when the endpoint cannot be built, which still uses up the handle |
| `GnsRuntime.Registrar.PollRound` | src/Net/Transports/Gns/Runtime.cpp:117-139 | State and reply are those of the poll of the machine: a queued event is taken without pumping; otherwise each callback goes to an endpoint that owns its connection at that moment, every endpoint then handles in its turn an initial part of what the library has for it, all of it unless it reached 64 messages or stopped, and then the event is taken |
| `GnsRuntime.Registrar.RunCallbacks` | src/Net/Transports/Gns/Runtime.cpp:68-81 | Each callback changes an endpoint that owns its connection when its turn comes, and none only when no endpoint owns it |
| `GnsRuntime.Registrar.ReceiveAll` | src/Net/Transports/Gns/Runtime.cpp:47 | Every endpoint receives exactly once |
| `GnsRuntime.Registrar.DestroyEndpoint` | src/Net/Transports/Gns/Runtime.cpp:141-152 | The endpoint is shut down and leaves the registry |
| `LineFraming.RunRefinesSplit` | src/Net/Detail/LineFramer.h:22-66 | In any run all appends succeed exactly when every line, the unfinished one included, is within the limit, and the lines popped to exhaustion are those of splitting the whole stream once, independent of chunking |
| `LineFraming.LinesRoundTrip` | src/Net/Detail/LineFramer.h:22-66 | Legal lines joined by LF come back exactly, if and only if none ends in CR |
| `LineFraming.SplitUnique` | src/Net/Detail/LineFramer.h:50-66 | The one-shot split is the only way to cut a stream into LF-terminated lines and a rest without LF |
| `LineFraming.ScanDecides` | src/Net/Detail/LineFramer.h:22-48 | The byte scan of a chunk accepts exactly when the stream with the chunk stays within the limit |
| `LineFraming.LineFramer.Append` | src/Net/Detail/LineFramer.h:22-48 | The byte loop and the lazy compaction leave the state of an append |
| `LineFraming.LineFramer.TryPop` | src/Net/Detail/LineFramer.h:50-66 | The next line without its CR, or none |
| `TcpFraming.FramesParseBack` | src/Net/Async/TcpConnection.h:53-119 | A reader gets back exactly the framed messages in order and goes on with what follows |
| `TcpFraming.PeerReadsAPrefix` | src/Net/Async/TcpConnection.h:94-141 | From what has been written, closed or not, a peer reads a prefix of the accepted messages and never refuses a length |
| `TcpFraming.PrefixParses` | src/Net/Async/TcpConnection.h:94-119 | A stream of frames cut anywhere parses to a prefix of the messages and an incomplete frame |
| `TcpFraming.FrameLayout` | src/Net/Async/TcpConnection.h:53-59 | A frame is the length of the message in four bytes, the highest first, and then the message |
| `TcpFraming.LongFrameIsRefused` | src/Net/Async/TcpConnection.h:94-119 | A reader that shares the limit refuses a frame as soon as it has read a length beyond it, and only then |
| `TcpFraming.SendAnswers` | src/Net/Async/TcpConnection.h:43-65 | In every run, while open, a message within the limit that finds room is queued behind the others and its write is under way or follows theirs; when the queue was empty and the write cannot start the connection closes; any other message changes nothing |
| `TcpFraming.WriteAnswers` | src/Net/Async/TcpConnection.h:121-141 | In every run the end of a write takes the front frame off and the next one follows; a failed write, or one that cannot start, closes the connection |
| `TcpFraming.QueueIsExact` | src/Net/Async/TcpConnection.h:43-141 | While open, written bytes and queued frames are the frames of the accepted messages, the byte count is exact and within the limit, and a write is in flight exactly when a frame is queued |
| `TcpFraming.EmptyQueueAccepts` | src/Abi/Options.cpp:30-40 | Under validated limits any message up to the largest is accepted on an empty queue |
| `TcpFraming.LengthRoundTrip` | src/Net/Async/TcpConnection.h:54-102 | The four big-endian bytes give the length back |
| `TcpFraming.TcpConnection.BuildFrame` | src/Net/Async/TcpConnection.h:53-59 | The buffer is the frame of the message |
| `TcpFraming.TcpConnection.SendMessage` | src/Net/Async/TcpConnection.h:43-65 | The message is framed and queued, and the write started when none was in flight; the answer is that of the admission, or a failed write exactly when the message was admitted on an empty queue and its write could not start |
| `TcpFraming.TcpConnection.OnWritten` | src/Net/Async/TcpConnection.h:121-141 | The front frame leaves the queue and the next write starts |
| `TcpFraming.TcpConnection.ReadMessage` | src/Net/Async/TcpConnection.h:94-119 | The message at the front of the stream, once it is complete and within the limit |
| `Sessions.HubIsTheUnion` | src/Runtime/TcpListener.cpp:109-163 | The hub is the disjoint union of the listeners' maps and the sessions in transit in a callback, never above the limit |
| `Sessions.ConnectionHasItsGrant` | src/Runtime/TcpListener.cpp:109-133 | In every run a connection has, from its admission to its end, exactly the session it was granted: a new one when the server was running and the hub had room at that moment, and none otherwise |
| `Sessions.ConnectAnswers` | src/Runtime/TcpListener.cpp:109-133 | on_connected of a new connection, with nothing in between, ends with it connected and its grant, if any, in hub and map |
| `Sessions.DisconnectAnswers` | src/Runtime/TcpListener.cpp:146-163 | on_disconnected of a connected one, with nothing in between, takes its grant out of map and hub |
| `Sessions.NoLeakWhileRunning` | src/Runtime/TcpListener.cpp:146-163 | A session in the hub belongs to a connection that is connected or in a callback, never to one whose on_disconnected has finished |
| `Sessions.AllStoppedMeansEmpty` | src/Runtime/TcpListener.cpp:36-48 | Once every listener has been stopped the hub is empty |
| `Sessions.IdsAreNeverReused` | src/Runtime/SessionRegistry.cpp:11-23 | An id that has left the hub never comes back |
| `Sessions.CallbackOrder` | src/Net/Iocp/ServerAccept.cpp:64-89 | In every interleaving of the IOCP backend on_disconnected starts only after on_connected has returned, which is the order the session machine relies on |
| `Sessions.NotifiedConnectionIsGone` | src/Runtime/TcpListener.cpp:109-163 | The listener driven by any interleaving of the IOCP backend never ignores a callback, and once the connection has been notified hub and map hold no session of it |
| `Sessions.SessionRegistry.Add` | src/Runtime/SessionRegistry.cpp:11-23 | Below the limit a session with the next id enters the hub, otherwise nothing changes |
| `Sessions.ReleaseFreesOne` | src/Runtime/SessionRegistry.cpp:25-28 | The release at the end of on_disconnected takes exactly the session of that connection out of the hub: it answers for none any more, and every other connection for the one it had |
| `Sessions.TcpListener.OnConnected` | src/Runtime/TcpListener.cpp:109-133 | The steps of the callback in order |
| `Sessions.TcpListener.OnDisconnected` | src/Runtime/TcpListener.cpp:146-163 | The steps of the callback in order |
| `Sessions.TcpListener.ReleaseAll` | src/Runtime/TcpListener.cpp:36-48 | Exactly the sessions of the map leave the hub, and the map ends empty; with the transport stopped the loop is a run of Clean steps of the machine |

## Left out

- Concurrency inside a section that holds a mutex is one step; only
  `IocpCallbacks` goes down to single accesses, because there a flag is written
  and read under different mutexes.
- The results of the SQL service leave out affected row counts, the last insert id
  and the texts of messages. Value types, sizes and limits are kept.
- Other connections to the same SQLite database, and other clients of the same
  Redis server, are not modelled; nor is the expiry of Redis keys.
- Null pointers and the layout checks of the C interface appear only where a
  decoded option depends on them.
- Time is not modelled: a deadline, an idle timeout or a cancelled timer is an
  expiry or a close that may come at any moment. The timer generations of
  `ConnectionState` are therefore not part of the model.
- The emergency shutdown after a failed allocation in `TransportService` clears
  the callbacks first; `Engine.EveryOpenIsClosed` is about the normal stop.
- The send queue of a UDP peer has the shape of the TCP one with another cost per
  entry and is not modelled; opening, closing and indexing UDP peers are.
- Boost.Asio and Beast, OpenSSL, SQLite, hiredis, WinSock and GameNetworkingSockets
  themselves; the WebSocket upgrade and its framing; TLS; certificate loading.
- The text of HTTP responses: a host's response is its accounted header size, its
  body size and whether it closes the connection. Which field names are the host,
  expect and upgrade fields is the parser's classification.
- The waiting loop of the GNS poll is a sequence of rounds; at which endpoint's
  listener a native connection came in is part of the status change. Sending a
  datagram, opening a listener, and starting and ending the native library have no
  part in the tables and queues and are not modelled.
- Whether the Redis client reuses an open socket is part of the script of a
  command; the bytes of commands are hiredis's.
- The listener, logger, configuration, clock and example applications, the C
  interface wrappers, and option decoders other than those named above.
- SqlDriver.SqliteDriver.Execute: an allocation of the driver's own that fails while a
  result is built ends as an internal error as well
  (src/Data/Sql/SqliteDriver.cpp:142-145); only failures SQLite reports are modelled.
- SqlService.StopLetsOneFinish: that nothing becomes durable after stop is not
  promised, because a COMMIT may succeed while stop races with it
  (src/Data/Sql/SqliteDriver.cpp:135-139).
- RedisService.ServerRunsInOrder: late writes of abandoned connections may run
  after later requests, so the order is stated for the writes that ran while the
  client waited, which is what one client can know.
- TcpFraming.QueueIsExact: the bytes written are those of completed writes; a part
  of a frame written before a failure is covered by TcpFraming.PrefixParses.
