# Verified models of the network programs

This project models the asynchronous programs of the repository in Dafny and proves what they promise over every run.
`dafny verify dfyconfig.toml` checks all of it.

Each protocol is a state machine: a datatype for the state, an `Enabled` and an `Apply` for its events, and `Exec` for
runs. The events are the steps of the program's own code and the choices of its environment. Properties are lemmas
about all runs. Beside each machine stands a class with the program's own fields, whose methods, one for each handler
or atomic step, are proved to change the fields exactly as the machine says.

- **The cancellable request** (`ClientModel`, `ClientInvariant`, `ClientTheorems`, `ClientDeadlock`,
  `ClientEmptyPool`, `ClientLiveness`, `ClientRequests`, `ClientIds`, `ClientOutcomes`, `ClientAborts`, `ClientUsage`,
  `ClientTwoCancels`, classes in `AsyncClient`): sessions, the map of active sessions and its lock, one lock and one
  flag per session, user threads and a pool of I/O threads. The steps are lock acquisitions, lock releases, accesses
  to the map and to the flag, and initiations of operations. The pool size is a parameter; the single-threaded client
  is the instance 1.
- **The message framework** (`Framing`, `SerialMessage`, `ConnectionModel`, `ConnectionTheorems`,
  `ConnectionProgress`, class in `Connection`; `QueueModel`, `QueueTheorems`, `QueueLiveness`, `QueueTraces`, class in
  `TsQueue`; `ServerModel`, `ServerTheorems`, `ServerDepartures`, class in `Server`): the stack of values with its
  32-bit size, the frames and a reference decoder, the two ends of a connection over byte streams, the queue with its
  two mutexes and condition variable, and the server's container of connections. The header is two words of four
  bytes, id and size, low byte first.
- **The application on it** (`AppModel`, `AppTheorems`, `AppHellos`, `AppServers`, `AppProgress`, `AppClients`,
  `AppStale`, class in `CustomClient`): the server with any number of clients, down to the bytes.
- **The chat server** (`ChatModel`, `ChatTheorems`, `ChatDepartures`, `ChatWords`, classes in `ChatServer`): one I/O
  thread, a queue for each client, a changing set of clients.
- **Partial transfers** (`Transfer`): the callback chain and the loops over partial reads and writes.

What is assumed of Asio: an initiated operation runs its handler exactly once and never inside the initiating call; a
composed read or write has moved all its bytes when it succeeds and any part of them when it fails; cancelling or
closing may abort what is pending but not undo a completion that is queued; only a cancelled operation completes with
`operation_aborted`; handlers posted by `Send` may run in any order, unless a result says otherwise. Of threads: a
mutex has one owner; `notify_one` wakes a waiter if there is one; waiters may wake spuriously. Callbacks and
`OnMessage` handlers of the user take no locks.

Results that differ from what one might expect, each stated with its exact condition and, where it takes a run, a
concrete one: a second cancel of the same id can deadlock the client; a pool of no threads abandons its requests at
`Close`; a message without a body is delivered with the body of an earlier one; `wait` can sleep on a non-empty queue;
`MessageClient` does not remove the client it gives up; a chat client can be heard once after its departure has been
announced; a request with the id of an unfinished one takes that out of the map; two threads in `Update` can pop from
an empty queue. The comments in `MessageClient` (src/one_lone_coder/net_server.h:136-144) announce a removal that its
code does not make; the model follows the code.

## Model

| member | source | states |
|---|---|---|
| `ClientOutcomes.CancelWins` | src/asio-cookbook/ch3_client/async_tcp_client_mt.cpp:186-206 | In every interleaving of user threads and any number of I/O threads: once a `CancelRequest` has found a session, no continuation lets that session's callback report success; it reports the error with which an operation of the session completed, and `operation_aborted` if none did. |
| `ClientOutcomes.CallbackCode` | src/asio-cookbook/ch3_client/async_tcp_client_mt.cpp:253-263 | What a callback is told, both directions, by the completions of the session's own operations: success exactly if none completed with an error and no `CancelRequest` found the session; `operation_aborted` exactly if one found it and none completed with another error; any other error exactly if an operation completed with it. |
| `ClientOutcomes.RunErrors` | src/asio-cookbook/ch3_client/async_tcp_client_mt.cpp:130-133 | In every reachable state a session has recorded an error, or its handler is about to, exactly if an operation of its own has completed with that error. |
| `ClientOutcomes.StagesInOrder` | src/asio-cookbook/ch3_client/async_tcp_client_mt.cpp:126-166 | Over every run: each write was started after a connect of the same session had succeeded, and each read after a write had. |
| `ClientOutcomes.SuccessWasServed` | src/asio-cookbook/ch3_client/async_tcp_client_mt.cpp:126-178 | Behind every callback that is told success are a connect, then a write, then a read of its session, each completed without an error, and the response is the line of that read. |
| `ClientAborts.CancelReachesOperation` | src/asio-cookbook/ch3_client/async_tcp_client_mt.cpp:193-205 | Over every run: once the cancel flag of a session is set and the cancelling thread is past its call of `cancel`, every write or read that the session still has under way can complete as aborted. |
| `ClientAborts.CancelAborts` | src/asio-cookbook/ch3_client/async_tcp_client_mt.cpp:205 | The call of `cancel` reaches each operation of its session that is under way, and no operation of another session. |
| `ClientTheorems.FoundCounts` | src/asio-cookbook/ch3_client/async_tcp_client_mt.cpp:189-193 | The history variable used above is the number of times a `CancelRequest` in the run has found the session. |
| `ClientTheorems.NoInitiationAfterCancel` | src/asio-cookbook/ch3_client/async_tcp_client_mt.cpp:136-166 | From the moment the cancel flag of a session is set, no write and no read is ever started for it, whichever pool threads run its handlers. |
| `ClientTheorems.AtMostOnce` | src/asio-cookbook/ch3_client/async_tcp_client_mt.cpp:126-178 | In every reachable state a session has at most one outstanding operation, its operations follow each other with strictly decreasing rank, and no callback has been invoked twice. |
| `ClientTheorems.CleanClose` | src/asio-cookbook/ch3_client/async_tcp_client_mt.cpp:212-221 | When `Close` returns, the map is empty and every callback has been invoked exactly once, if and only if the pool has a thread or there never was a request. |
| `ClientEmptyPool.CloseAbandons` | src/asio-cookbook/ch3_client/async_tcp_client_mt.cpp:74-85 | A client built with no threads: a concrete run after which `Close` returns with the request still in the map and its callback not invoked. |
| `ClientInvariant.EventKept` | src/asio-cookbook/ch3_client/async_tcp_client_mt.cpp:120-206 | Every step of every thread and of the environment keeps the invariant that ties lock ownership, map entries, operations, flags and callbacks together. |
| `ClientInvariant.RunKept` | src/asio-cookbook/ch3_client/async_tcp_client_mt.cpp:68-283 | The invariant holds after every run from every state in which it holds. |
| `ClientDeadlock.CycleIsClash` | src/asio-cookbook/ch3_client/async_tcp_client_mt.cpp:136-143 | A state has a cycle of threads waiting for each other's mutexes, of whatever length, exactly if a `CancelRequest` and a handler of the same session hold the two locks in opposite orders. |
| `ClientDeadlock.NoDeadlock` | src/asio-cookbook/ch3_client/async_tcp_client_mt.cpp:187-195 | No reachable state in which no session has been found twice by `CancelRequest` has a wait cycle. |
| `ClientDeadlock.SecondCancelDeadlocks` | src/asio-cookbook/ch3_client/async_tcp_client_mt.cpp:193-195 | From every state in which a second `CancelRequest` has found a cancelled session whose connect or write has succeeded, whose flag guard is free, and while a pool thread is idle, there is a schedule that ends in a wait cycle. |
| `ClientTwoCancels.TwoCancelsCanDeadlock` | src/asio-cookbook/ch3_client/async_tcp_client_mt.cpp:186-206 | For every pool with a thread, every number of users and every id: a run with two cancels of that id, and of no other, ends in a wait cycle of a user thread and a pool thread. |
| `ClientTwoCancels.NeverHangsIff` | src/asio-cookbook/ch3_client/async_tcp_client_mt.cpp:186-206 | The exact condition a user can keep: with a limit n(id) on the cancels of each id, no run within the limits reaches a wait cycle if and only if every n(id) is at most 1, or there is no pool thread or no user thread. |
| `ClientTwoCancels.CancelledTwice` | src/asio-cookbook/ch3_client/async_tcp_client.cpp:187-207 | The run that leads there, step by step; the client with one I/O thread is the instance of pool size 1. |
| `ClientUsage.FoundIsPaid` | src/asio-cookbook/ch3_client/async_tcp_client_mt.cpp:186-193 | The calls of `CancelRequest` for an id that have found a session, together with those still looking, are never more than the calls made for that id. |
| `ClientUsage.CallsLookUp` | src/asio-cookbook/ch3_client/async_tcp_client_mt.cpp:186-189 | Every call of `CancelRequest` looks up the very id it was given, exactly once, unless it is still on its way there. |
| `ClientUsage.LookupFinds` | src/asio-cookbook/ch3_client/async_tcp_client_mt.cpp:189-206 | A lookup finds the session the map has under the id and goes on to cancel that one; without one the call changes nothing. |
| `ClientUsage.CancelOncePerId` | src/asio-cookbook/ch3_client/async_tcp_client_mt.cpp:186-206 | A user who cancels each id at most once never meets a wait cycle, and when the client has come to rest every request has been reported exactly once, exactly if the pool has a thread or there was none to report. |
| `ClientLiveness.RunsEnd` | src/asio-cookbook/ch3_client/async_tcp_client_mt.cpp:126-178 | A run without new calls is no longer than a measure of its first state: handlers and operations cannot go on for ever. |
| `ClientLiveness.RunToRest` | src/asio-cookbook/ch3_client/async_tcp_client_mt.cpp:126-178 | From every reachable state there is such a run into a state where nothing more can happen. |
| `ClientLiveness.EveryRequestReported` | src/asio-cookbook/ch3_client/async_tcp_client_mt.cpp:232-264 | Where nothing more can happen and no session was found twice, every callback has been invoked exactly once and the map is empty, exactly if the pool has a thread or there was no request. |
| `ClientRequests.MapIsUnfinished` | src/asio-cookbook/ch3_client/async_tcp_client_mt.cpp:120-122 | If every request is started with an id that no unfinished request has, the map holds exactly the sessions between their insertion and their own completion, each under its own id; `ClientIds.AlwaysRightIff` has the condition that is exact. |
| `ClientRequests.InsertOverwrites` | src/asio-cookbook/ch3_client/async_tcp_client_mt.cpp:121 | Inserting a request makes an unfinished one impossible to find exactly if the two have the same id. |
| `ClientRequests.EraseTakesOther` | src/asio-cookbook/ch3_client/async_tcp_client_mt.cpp:245-249 | The completion of a request takes another unfinished one out of the map exactly if the two have the same id. |
| `ClientIds.AlwaysRightIff` | src/asio-cookbook/ch3_client/async_tcp_client_mt.cpp:120-122 | Over whole runs, with the exact condition: the map holds exactly the unfinished requests at every moment of a run if and only if no step of the run inserts a request while an unfinished one has its id. |
| `ClientIds.EventRight` | src/asio-cookbook/ch3_client/async_tcp_client_mt.cpp:120-122 | The same for each event: from a state whose map is right, only the insertion with the id of an unfinished request leads to one whose map is not; the erase of a completion does not. |
| `ClientIds.ReuseLosesRequest` | src/asio-cookbook/ch3_client/async_tcp_client_mt.cpp:108-123 | For every pool, every number of users and every id: a run in which that id is used twice, after which the first request is unfinished and no lookup can find it. |
| `ClientIds.NeverLosesIff` | src/asio-cookbook/ch3_client/async_tcp_client_mt.cpp:108-123 | What users can promise beforehand: with a limit n(id) on the requests of each id, the map is right in every run within the limits if and only if every n(id) is at most 1, or there is no user. |
| `ClientIds.RunIds` | src/asio-cookbook/ch3_client/async_tcp_client_mt.cpp:108-118 | The sessions are the calls of the users: one for each, with its id, in their order, and never changed. |
| `ClientRequests.SuccessIsAnswered` | src/asio-cookbook/ch3_client/async_tcp_client_mt.cpp:166-175 | A callback that is told success is given a line that a read of its own session delivered. |
| `AsyncClient.AsyncTcpClient.StartStep` | src/asio-cookbook/ch3_client/async_tcp_client_mt.cpp:96-127 | Each step of `EmulateLongComputationOp` changes the fields to the model's next state and nothing else. |
| `AsyncClient.AsyncTcpClient.CancelStep` | src/asio-cookbook/ch3_client/async_tcp_client_mt.cpp:193-206 | The same for `CancelRequest` after a successful lookup: flag, abort, unlock. |
| `AsyncClient.AsyncTcpClient.AbortOperations` | src/asio-cookbook/ch3_client/async_tcp_client_mt.cpp:204 | Cancelling the socket marks exactly the pending operations of that session, and leaves those whose completion is queued. |
| `AsyncClient.AsyncTcpClient.HandlerStep` | src/asio-cookbook/ch3_client/async_tcp_client_mt.cpp:127-178 | The same for the three nested handlers: error branch, test of the flag under its lock, initiation of the next operation. |
| `AsyncClient.AsyncTcpClient.CompleteStep` | src/asio-cookbook/ch3_client/async_tcp_client_mt.cpp:232-264 | The same for `OnRequestComplete`: erase under the lock, then the read of the flag, then the callback. |
| `AsyncClient.AsyncTcpClient.Run` | src/asio-cookbook/ch3_client/async_tcp_client_mt.cpp:68-283 | The object run under any schedule the program and Asio allow ends in the model's state, with the invariant. |
| `SerialMessages.PopUndoesPush` | src/one_lone_coder/net_message.h:63-108 | `>>` after `<<` of a value gives the value back and restores the body. |
| `SerialMessages.SizeIsExactBelow` | src/one_lone_coder/net_message.h:79 | After a push `header.size` is the length of the body if and only if the body is shorter than 2^32 bytes. |
| `SerialMessages.PushAllBody` | src/one_lone_coder/net_message.h:63-83 | After any pushes the body is the old one with the values behind it, and `header.size` is its length modulo 2^32. |
| `SerialMessages.RoundTrip` | src/one_lone_coder/net_message.h:63-108 | Pushing any list of values and popping their sizes in reverse order returns them in reverse order and restores the starting body. |
| `SerialMessages.SerialMessage.Push` | src/one_lone_coder/net_message.h:63-83 | `<<` in place has exactly the effect of the specification function. |
| `SerialMessages.SerialMessage.Pop` | src/one_lone_coder/net_message.h:88-108 | `>>` in place likewise. |
| `Framing.DecodeInverts` | src/one_lone_coder/net_connection.h:174-231 | For every byte string: the frames found and the rest encode back to the string, no frame is complete in the rest, and all frames are well formed. |
| `Framing.HeaderLayout` | src/one_lone_coder/net_message.h:19-26 | The header on the wire is the id and then the size, four bytes each, on a host with the lowest byte first. |
| `Framing.DecodeEncode` | src/one_lone_coder/net_connection.h:98-171 | Decoding the encodings of any well-formed messages, followed by an incomplete frame, gives back the messages and that rest. |
| `Framing.DecodeAppend` | src/one_lone_coder/net_connection.h:174-231 | Decoding does not depend on where the stream is cut: more bytes keep the frames found and go on from the rest. |
| `Framing.DecodableIffWellFormed` | src/one_lone_coder/net_connection.h:98-119 | A run of messages can be told apart on the wire if and only if every header announces its body's length. |
| `Framing.DecodePrefix` | src/one_lone_coder/net_connection.h:174-231 | The frames in any prefix of a stream of well-formed messages are the first of these messages. |
| `ConnectionTheorems.WriterTrichotomy` | src/one_lone_coder/net_connection.h:82-93 | After every run, exactly one holds: nothing queued and no write; messages queued and one write under way on the front one; or a failed write. The bytes out are the popped messages and a prefix of the front one. |
| `ConnectionTheorems.FrontStays` | src/one_lone_coder/net_connection.h:98-171 | While a write is under way its message stays at the front of the queue, whatever else is sent. |
| `ConnectionTheorems.DeadForGood` | src/one_lone_coder/net_connection.h:129-139 | After a failed write none is ever started again, no byte goes out, and the queue only grows. |
| `ConnectionTheorems.EventKept` | src/one_lone_coder/net_connection.h:81-250 | Every handler, every move of bytes, every failure and every close at either end keeps the invariant of the two ends and their streams. |
| `ConnectionTheorems.ReaderDecodes` | src/one_lone_coder/net_connection.h:174-231 | However the bytes were cut up, the reader's frames are the first frames of what it has received, all of them while it waits for more. |
| `ConnectionTheorems.EndToEnd` | src/one_lone_coder/net_connection.h:81-250 | Over every run, whatever the order in which posted handlers run: what one end has delivered is the delivery of the first messages accepted at the other end, if those are well formed. |
| `ConnectionTheorems.SentEndToEnd` | src/one_lone_coder/net_connection.h:81-250 | The same against the calls of `Send`: if posted handlers run in the order of posting, what has been delivered is the delivery of a prefix of the messages passed to `Send`. |
| `ConnectionProgress.EverythingCanArrive` | src/one_lone_coder/net_connection.h:81-250 | Nothing is stuck: after any run that leaves both ends open and the reader waiting, some continuation delivers everything that was accepted and then everything still posted. |
| `ConnectionTheorems.AllArrives` | src/one_lone_coder/net_connection.h:81-250 | When the writer is idle and the reader has taken every byte, everything accepted has been delivered. |
| `ConnectionTheorems.FailureCloses` | src/one_lone_coder/net_connection.h:125-230 | Over every run: an end whose socket is open has had no failed write, and waits for input if it has begun to read; so every failed read or write has closed the socket. |
| `ConnectionTheorems.ClosesForGood` | src/one_lone_coder/net_connection.h:68-74 | After a posted `Disconnect`, a failed read or a failed write the socket of that end stays closed over every continuation, and no byte leaves or enters through it. |
| `ConnectionTheorems.ArrivesOnce` | src/one_lone_coder/net_connection.h:81-94 | Each message passed to `Send` arrives at most once, in whatever order the posted handlers run. |
| `ConnectionTheorems.DeliveryKeeps` | src/one_lone_coder/net_connection.h:187-198 | Every delivered message has the header that was sent, and its body begins with the body that was sent. |
| `ConnectionTheorems.DeliveryAt` | src/one_lone_coder/net_connection.h:187-198 | A message without a body is delivered with the body the reader's buffer still holds. |
| `ConnectionTheorems.LastBodyIs` | src/one_lone_coder/net_connection.h:238-243 | That body is the last non-empty one received on the connection, and empty if there was none. |
| `ConnectionTheorems.DeliveryExact` | src/one_lone_coder/net_connection.h:187-198 | Messages arrive exactly as they were sent if and only if none without a body follows one with a body. |
| `Connections.Connection.Send` | src/one_lone_coder/net_connection.h:81-94 | `Send` posts a handler and changes nothing else. |
| `Connections.Connection.OnPosted` | src/one_lone_coder/net_connection.h:82-93 | The posted handler queues the message and starts a write only if the queue was empty; the writer's invariant is kept. |
| `Connections.Connection.OnHeaderWritten` | src/one_lone_coder/net_connection.h:105-140 | The handler of `WriteHeader`: body next, or pop and next header, or close; it decides on the length of the body. |
| `Connections.Connection.OnBodyWritten` | src/one_lone_coder/net_connection.h:151-170 | The handler of `WriteBody`: pop and next header, or close. |
| `Connections.Connection.OnHeaderRead` | src/one_lone_coder/net_connection.h:183-206 | The handler of `ReadHeader`: it decides on `header.size`, and without a body delivers what the buffer holds. |
| `Connections.Connection.OnBodyRead` | src/one_lone_coder/net_connection.h:218-230 | The handler of `ReadBody` delivers the message and goes back to the header, or closes. |
| `Connections.Connection.ConnectToClient` | src/one_lone_coder/net_connection.h:44-51 | Takes the id and starts to read only on an open socket. |
| `Connections.Connection.OnConnected` | src/one_lone_coder/net_connection.h:58-64 | The client's end starts to read once it is connected. |
| `QueueTheorems.NoDeadlock` | src/one_lone_coder/net_tsqueue.h:54-94 | Any number of threads pushing, waiting and popping: if some thread is in a call and not asleep, some thread can go on; `muxQueue` and `muxBlocking` cannot deadlock. |
| `QueueTheorems.NoWaitCycle` | src/one_lone_coder/net_tsqueue.h:38-94 | No reachable state has a cycle of threads of any length in which each waits for a mutex that the next one owns, whatever the other threads do. |
| `QueueTheorems.NothingLostOrReordered` | src/one_lone_coder/net_server.h:189-206 | One thread in `Update`, any number pushing: no pop ever meets an empty queue; messages handled, in hand and queued are the pushes in the order they took effect, each producer's in its own order. |
| `QueueTheorems.BudgetKept` | src/one_lone_coder/net_server.h:196-205 | A call of `Update` never handles more than `nMaxMessages` messages. |
| `QueueTheorems.ReturnsWhenDone` | src/one_lone_coder/net_server.h:196-205 | A call of `Update` returns only when it has handled as many messages as it was allowed, or the queue is empty. |
| `QueueLiveness.RunsEnd` | src/one_lone_coder/net_tsqueue.h:54-94 | With one consumer, the steps that threads can take without a new call or a spurious wakeup are bounded: no push and no `Update` goes round for ever. |
| `QueueLiveness.RunToRest` | src/one_lone_coder/net_tsqueue.h:54-94 | From every reachable state, letting the threads run leads to a state in which none has a step left. |
| `QueueLiveness.RestIsDone` | src/one_lone_coder/net_tsqueue.h:54-94 | In such a state every push asked for has taken effect and returned, and the consumer has returned or sleeps. |
| `QueueTheorems.WaitReturnsNonEmpty` | src/one_lone_coder/net_tsqueue.h:89-94 | When `wait` has returned, and until the one consumer pops, the queue is not empty. |
| `QueueTheorems.SleepingOnItems` | src/one_lone_coder/net_tsqueue.h:89-94 | A consumer asleep with no notification on its way sleeps on a non-empty queue if and only if some notification of the run fell between its last test and its sleep. |
| `QueueTheorems.MissedIsLost` | src/one_lone_coder/net_tsqueue.h:89-94 | The history flag used in the proofs is that event of the run, for every thread. |
| `QueueTheorems.NotifyWakes` | src/one_lone_coder/net_tsqueue.h:54-60 | Any later push wakes the sleeping consumer. |
| `QueueTraces.WakeupCanBeLost` | src/one_lone_coder/net_tsqueue.h:89-94 | For any consumer, any other thread and any item, out of any number of threads: a run after which the only consumer sleeps on the non-empty queue and no thread has a step left. |
| `QueueTraces.TwoConsumersPopEmpty` | src/one_lone_coder/net_server.h:197-199 | For any two threads out of any number: a run in which these two and no others call `Update` pops from an empty queue. |
| `QueueTraces.OneConsumerIff` | src/one_lone_coder/net_server.h:197-199 | The exact condition: for any set of threads, no run in which only these call `Update` ever pops from an empty queue if and only if there is at most one of them. |
| `QueueTheorems.EventKept` | src/one_lone_coder/net_tsqueue.h:38-94 | Every step keeps: each mutex is owned by exactly the thread whose position says so, and pushes take effect in the order asked. |
| `TsQueues.TsQueue.PushStep` | src/one_lone_coder/net_tsqueue.h:54-60 | Each step of `push_back` changes the fields to the model's next state, and every unlock of a mutex is by the thread that owns it. |
| `TsQueues.TsQueue.WaitStep` | src/one_lone_coder/net_tsqueue.h:89-94 | The same for `wait`. |
| `TsQueues.TsQueue.LoopStep` | src/one_lone_coder/net_server.h:197-199 | The same for the test and the pop in the loop of `Update`. |
| `TsQueues.TsQueue.Run` | src/one_lone_coder/net_tsqueue.h:19-101 | The queue run under any schedule ends in the model's state, with the invariant. |
| `ServerTheorems.BroadcastAndPurge` | src/one_lone_coder/net_server.h:152-185 | `MessageAllClients`: one message for each connected client but the ignored one, none for others; the deque keeps exactly the connected ones in their order; each other one is reported once. |
| `ServerDepartures.FailureIsNoticed` | src/one_lone_coder/net_server.h:152-185 | Over every run: after a read or write of a connection has failed, the first broadcast in any continuation sends nothing to it, takes it out of the deque for good and reports it to `OnClientDisconnect`. |
| `ServerDepartures.OpenIsListed` | src/one_lone_coder/net_server.h:152-185 | A connection that is open is in the deque and has never been reported as gone. |
| `ServerTheorems.TellReaches` | src/one_lone_coder/net_server.h:129-149 | `MessageClient`: a connected client is sent the message, behind all else it was sent, nobody else anything, and nobody is reported; one that is not connected is sent nothing and reported. |
| `ServerTheorems.PingAnswered` | src/one_lone_coder/simple_server.cpp:47-52 | `OnMessage` sends a ping back to the connection it came from, as it is, and nothing to any other. |
| `ServerTheorems.GreetedFirst` | src/one_lone_coder/simple_server.cpp:29-35 | What `OnClientConnect` sends is the first thing an approved client is ever sent, over every continuation. |
| `ServerTheorems.AliveIsFilter` | src/one_lone_coder/net_server.h:180-184 | What is left of the deque and what is removed are complementary order-preserving filters. |
| `ServerTheorems.DeadClientStays` | src/one_lone_coder/net_server.h:134-148 | Over any run of calls of `MessageClient` the deque stays what it was, and each call for a client that is not connected reports it once more. |
| `ServerTheorems.IdsIncrease` | src/one_lone_coder/net_server.h:98-115 | Over every run of approvals, denials, purges and messages, until the counter wraps and if the sockets were open: every id in the deque is at least 10000 and below `nIDCounter`, and ids increase strictly along the deque. |
| `ServerTheorems.IdsFromTenThousand` | src/one_lone_coder/net_server.h:241 | The h-th connection approved, counting from 0, has the id 10000 + h, as long as that fits into 32 bits and its socket was open. |
| `ServerTheorems.SameIdIff` | src/one_lone_coder/net_server.h:105 | Two connections open at their approval share an id if and only if a multiple of 2^32 approvals lies between them; the first 2^32 ids are pairwise distinct. |
| `ServerTheorems.IdsStay` | src/one_lone_coder/net_connection.h:44-51 | The id of a connection never changes after its approval, and a closed connection stays closed. |
| `ServerTheorems.EventKept` | src/one_lone_coder/net_server.h:83-206 | Every arrival, handler, message, broadcast and update keeps the ids, the order of the deque and the fact that it holds only approved connections. |
| `ServerTheorems.BudgetKept` | src/one_lone_coder/net_server.h:196-205 | When no message arrives meanwhile, k iterations of the loop of `Update` take the first k messages of the queue, which had as many, and keep what every event keeps. |
| `ServerTheorems.QueueOverRun` | src/one_lone_coder/net_server.h:189-206 | When messages arrive between the iterations: over any run, k iterations handle the first k of the messages that were queued or have arrived since, and leave the others in their order. |
| `Servers.CustomServer.MessageAllClients` | src/one_lone_coder/net_server.h:152-185 | The loop that nulls dead pointers and the erase-remove after it, in place, have exactly the effect of the filter specification. |
| `Servers.CustomServer.Visit` | src/one_lone_coder/net_server.h:158-174 | One turn of that loop: one send or one report, and a null pointer exactly for a dead client. |
| `Servers.RemoveNulls` | src/one_lone_coder/net_server.h:181-183 | Erase-remove of null leaves the other pointers in their order. |
| `Servers.CustomServer.MessageClient` | src/one_lone_coder/net_server.h:129-149 | In place: a send to a connected client, else a report; the deque is what it was. |
| `Servers.CustomServer.OnAccept` | src/one_lone_coder/net_server.h:83-126 | An error or a denial changes nothing; an approved connection goes to the back of the deque with the next id, after the greeting. |
| `Servers.CustomServer.UpdateOnce` | src/one_lone_coder/net_server.h:189-206 | The counting loop of `Update`, when no message arrives meanwhile: it handles as many messages as there are up to the budget, each as its specification says. |
| `Servers.CustomServer.OnMessage` | src/one_lone_coder/simple_server.cpp:44-65 | `CustomServer::OnMessage`: a ping is bounced, a MessageAll becomes a fresh message with the sender's id, sent to all others. |
| `Servers.CustomServer.OnRead` | src/one_lone_coder/net_connection.h:234-250 | A reader's delivery goes, with its connection, to the back of the queue that all connections share. |
| `AppTheorems.AlwaysDecodable` | src/one_lone_coder/simple_server.cpp:28-65 | Whole system, every run: every message any side passes to `Send` is well formed, so both byte streams of every connection can be decoded at every moment. |
| `AppTheorems.StaleBody` | src/one_lone_coder/net_connection.h:187-198 | A MessageAll that follows a ping on the wire is delivered with the ping's time as its body, and is not well formed. |
| `AppStale.StaleBodyQueued` | src/one_lone_coder/net_connection.h:187-198 | For every time there is a run of one client and the server, down to the bytes, after which the server's queue holds that ill-formed message. |
| `AppTheorems.HelloNamesSender` | src/one_lone_coder/simple_client.cpp:89-94 | Every ServerMessage a client decodes with `>>` yields the id of the connection of another client that did send a MessageAll, and that broadcast was for this client. |
| `AppTheorems.OneCopyEach` | src/one_lone_coder/simple_server.cpp:54-62 | A broadcast sends one copy to each client connected and in the deque, and none to the sender; the record of it names the sender, its id and just these recipients, each once. |
| `AppTheorems.HelloAtMostOnce` | src/one_lone_coder/simple_server.cpp:54-62 | A client gets a hello at most as often as there were broadcasts of that id to it. |
| `AppHellos.BroadcastOncePerAsk` | src/one_lone_coder/simple_server.cpp:54-62 | The server broadcasts for a client at most as often as this client has passed a MessageAll to `Send`. |
| `AppHellos.HelloOncePerAsk` | src/one_lone_coder/simple_server.cpp:54-62 | End to end, up to 2^32 connections: a client gets the hello of another at most as often as that one has passed a MessageAll to `Send`. |
| `AppHellos.HellosInOrder` | src/one_lone_coder/simple_server.cpp:54-62 | If the server's posted handlers run in the order of its calls of `Send`, the hellos that a client takes off its queue are the first of the broadcasts it was a recipient of, in the order of the broadcasts. |
| `AppTheorems.HellosDiffer` | src/one_lone_coder/simple_server.cpp:58-61 | Up to 2^32 connections, two broadcasts are the same message if and only if the same client asked for both. |
| `AppTheorems.EchoAtMostOnce` | src/one_lone_coder/simple_server.cpp:47-52 | Each ping a client sends comes back to it at most once, and nothing else comes back as a ping. |
| `AppTheorems.PingReturns` | src/one_lone_coder/simple_client.cpp:76-87 | Every ping a client decodes with `>>` yields a time that this client has sent. |
| `AppTheorems.ClientCanPop` | src/one_lone_coder/simple_client.cpp:70-95 | Whatever a client takes off its queue is long enough for the value it pops without checking. |
| `AppClients.ShowsHello` | src/one_lone_coder/simple_client.cpp:89-94 | Every hello in a client's queue is shown by the client's switch as the id of the connection of another client that did send a MessageAll. |
| `AppClients.ShowsPing` | src/one_lone_coder/simple_client.cpp:76-87 | Every ping in a client's queue is shown with a time that this client has sent. |
| `AppClients.ShowsWhatItIs` | src/one_lone_coder/simple_client.cpp:70-95 | Nothing but greetings, pings and hellos is ever in a client's queue, and each is shown as what it is. |
| `AppClients.GreetingComesFirst` | src/one_lone_coder/simple_server.cpp:29-35 | If the server's posted handlers run in order, the first thing a client takes off its queue is the greeting, and nothing after it is one. |
| `AppClients.DownClientIsSilent` | src/one_lone_coder/net_client.h:85-90 | A client whose socket is closed passes nothing to the connection any more, whatever its user enters. |
| `AppServers.ServerRuns` | src/one_lone_coder/net_server.h:189-206 | Whatever the whole system does is, for the server, a run of the server's own model; so every result about the server holds in the system. |
| `AppServers.FailureIsNoticed` | src/one_lone_coder/net_server.h:152-185 | Whole system: after a failed read or write at the server, the first MessageAll of whatever client sends nothing to that connection, takes it out of the deque and has it reported. |
| `AppServers.FailureCloses` | src/one_lone_coder/net_connection.h:125-230 | Whole system: an end whose socket is open has had no failed write and, at the server always, waits for input. |
| `AppProgress.PingCanReturn` | src/one_lone_coder/simple_server.cpp:47-52 | From every reachable state in which both ends of a client's connection are open: if its user asks for a ping, some continuation brings this very ping back to the client's queue. |
| `AppProgress.HelloCanArrive` | src/one_lone_coder/simple_server.cpp:54-62 | ... and if its user asks for a broadcast, some continuation brings the hello with its id to any other client whose connection is open. |
| `AppProgress.Downstream` | src/one_lone_coder/net_connection.h:81-250 | Everything the server has passed to `Send` for a client with an open connection can reach that client's queue. |
| `AppTheorems.SenderAsked` | src/one_lone_coder/simple_server.cpp:54-61 | Behind every broadcast is a client that passed a MessageAll to `Send`; the id in it is that client's. |
| `AppTheorems.StepKept` | src/one_lone_coder/simple_server.cpp:23-66 | Every step of the server, of any client and of the network keeps the invariant of the whole system. |
| `CustomClients.CustomClient.Send` | src/one_lone_coder/net_client.h:85-90 | Passes the message to the connection exactly if the client is connected. |
| `CustomClients.CustomClient.PingServer` | src/one_lone_coder/simple_client.cpp:26-36 | Builds a well-formed ping with the time as its body, and sends it if the client is connected. |
| `CustomClients.CustomClient.MessageAll` | src/one_lone_coder/simple_client.cpp:38-42 | Builds the message without a body, and sends it if the client is connected. |
| `CustomClients.CustomClient.TakeMessage` | src/one_lone_coder/simple_client.cpp:66-100 | While the client is connected, pops the next message if there is one and shows what the switch of the main loop makes of it; otherwise leaves the queue alone and says that the server is down. |
| `ChatTheorems.TotalOrder` | src/etc/dens_simple_chat_server.cpp:150-181 | What has been posted to a client is the welcome line and then one contiguous segment of a single log, from its own newcomer line to its own departure; what is completely written is a prefix of that. |
| `ChatTheorems.SameOrder` | src/etc/dens_simple_chat_server.cpp:177-181 | Any two clients that both hear an entry of the log hear it at the places their arrivals determine: one order for all. |
| `ChatTheorems.DepartureOnce` | src/etc/dens_simple_chat_server.cpp:160-166 | Each client is announced once on arrival and at most once on departure, however its read and write fail; it is gone exactly if one of them has failed; arrivals less departures is the number of clients. |
| `ChatTheorems.WriterTrichotomy` | src/etc/dens_simple_chat_server.cpp:53-60 | Every session after every run: nothing queued; one write under way on the front message; or a failed write; and the characters out are a prefix of what was posted. |
| `ChatTheorems.DeadForGood` | src/etc/dens_simple_chat_server.cpp:121-124 | After a failed write a session's queue, written messages and characters out never change again. |
| `ChatTheorems.EverythingSent` | src/etc/dens_simple_chat_server.cpp:114-125 | A client still in the set with no write under way has been sent every character of its segment. |
| `ChatTheorems.NothingUnsaid` | src/etc/dens_simple_chat_server.cpp:84-91 | A client's chats in the log, one after the other, and then its stream buffer, are exactly what was received from it. |
| `ChatWords.SaidIsHeard` | src/etc/dens_simple_chat_server.cpp:84-90 | From socket to sockets, in characters: the j-th thing a client has said is a piece of what was received from it, and stands behind an endpoint, a colon and a space in what was written to every client that has been listening since before and has nothing under way. |
| `ChatWords.ChatReaches` | src/etc/dens_simple_chat_server.cpp:86-90 | Every chat in the log that a listening client with nothing under way has heard is written to it as endpoint, colon, space and text. |
| `ChatWords.AnnouncementReaches` | src/etc/dens_simple_chat_server.cpp:155-164 | Every arrival and departure is written out in the characters of its own announcement, and the welcome line comes before all. |
| `ChatWords.NamesTheSpeaker` | src/etc/dens_simple_chat_server.cpp:86-87 | The endpoints under which a client's words are posted are those that its own socket reported at its reads, one for each. |
| `ChatDepartures.HeardAgainIff` | src/etc/dens_simple_chat_server.cpp:84-125 | The exact condition at the step with which a client leaves: some continuation logs another chat of it if and only if the step is a failed write, a read is outstanding and its buffer holds a line end; and then one at most. |
| `ChatDepartures.SpeechStays` | src/etc/dens_simple_chat_server.cpp:84-96 | Over every run after a client's departure, its chats in the log and the line still due add up to the same number. |
| `ChatDepartures.LastWords` | src/etc/dens_simple_chat_server.cpp:84-96 | A client that has gone has been heard since exactly as often as a line was due when it went, less what is still due. |
| `ChatDepartures.HeardAfterLeaving` | src/etc/dens_simple_chat_server.cpp:121-124 | A concrete run in which that happens. |
| `ChatTheorems.EventKept` | src/etc/dens_simple_chat_server.cpp:84-181 | Every handler and every move of the network keeps all of this for every session. |
| `ChatServers.ChatSession.Post` | src/etc/dens_simple_chat_server.cpp:53-60 | `session::post` queues the message and starts a write only on an empty queue. |
| `ChatServers.ChatServer.Post` | src/etc/dens_simple_chat_server.cpp:177-181 | The loop over the set of clients posts once to each of them and to nobody else, whatever the order of the set. |
| `ChatServers.ChatServer.OnAccept` | src/etc/dens_simple_chat_server.cpp:153-169 | Welcome to the new client, newcomer line to the others, insertion, start of reading, also after an error of accept. |
| `ChatServers.ChatServer.OnRead` | src/etc/dens_simple_chat_server.cpp:84-96 | The whole buffer becomes one message, or the client leaves. |
| `ChatServers.ChatServer.OnWrite` | src/etc/dens_simple_chat_server.cpp:114-125 | Pop and next write, or the client leaves. |
| `ChatServers.ChatServer.OnError` | src/etc/dens_simple_chat_server.cpp:160-166 | A client leaves, and is announced, only if it was still in the set. |
| `ChatServers.ChatServer.Run` | src/etc/dens_simple_chat_server.cpp:134-189 | The server run under any schedule ends in the model's state. |
| `Transfers.ChainMeasure` | src/asio-cookbook/ch2_io/write_to_tcp_async.cpp:43-52 | The chain is finished exactly if everything has been written, and every call but a failed one writes something: length less written is a measure. |
| `Transfers.Finishes` | src/asio-cookbook/ch2_io/write_to_tcp_async.cpp:35-53 | Over every schedule without a failure as long as the buffer, the chain ends with the whole buffer written. |
| `Transfers.ChainIsLoop` | src/asio-cookbook/ch2_io/write_to_tcp_sync.cpp:25-36 | The chain of callbacks and the loop, each defined by its own recursion, do the same over a schedule exactly if the buffer is not empty or the first call of the chain succeeds: the chain calls once before it looks. |
| `Transfers.Session.OnWritten` | src/asio-cookbook/ch2_io/write_to_tcp_async.cpp:35-53 | One run of `Callback` on the session: what is on the wire stays the written part of the buffer. |
| `Transfers.WriteAsync` | src/asio-cookbook/ch2_io/write_to_tcp_async.cpp:35-70 | Over every schedule the chain puts exactly the part of the buffer written so far on the wire, all of it when finished. |
| `Transfers.WriteToSocket` | src/asio-cookbook/ch2_io/write_to_tcp_sync.cpp:25-36 | The same for the loop over `write_some`. |
| `Transfers.ReaderNeedsAll` | src/asio-cookbook/ch2_io/read_from_tcp_sync.cpp:44-55 | In any interleaving with a writer, the reading loop ends only with all bytes it wants; never if the writer has fewer. |
| `Transfers.ReaderBroken` | src/asio-cookbook/ch2_io/read_from_tcp_sync.cpp:44-55 | The reader ends with an error exactly if one of its calls failed with that error while it was still reading. |
| `Transfers.ReaderFinishes` | src/asio-cookbook/ch2_io/read_from_tcp_sync.cpp:48-52 | After the writer has finished with enough bytes, as many reads as bytes are wanted finish the reader. |
| `Transfers.RunBoth` | src/asio-cookbook/ch2_io/read_from_tcp_sync.cpp:44-55 | Writer and reader interleaved in any way: the array filled in place holds what the writer was given. |

## Left out

- Asio itself, name resolution, endpoints, socket options and operating system errors: they are the choices of the environment described above.
- AsyncClient.AsyncTcpClient: the map and the handlers name a session by its number instead of pointing to it; so the memory of a session that nobody holds any more is not modelled.
- AsyncClient.AsyncTcpClient.StartStep: the socket's `open`, `shutdown` and the text of the request, which no branch depends on; a `Close` that overlaps a request's start, and requests after `Close`, are not runs of the model.
- ClientDeadlock.NoDeadlock: user callbacks take no locks; a callback that calls `CancelRequest` from a cancelled branch would add a wait the model does not have.
- Connections.Connection: the bytes of a read are put into the message when the read completes, not one by one; the memory of a connection that is destroyed with handlers pending.
- SerialMessages.SerialMessage.Pop: popping more bytes than the body has, which the code does not check, is not a call of the model; `AppTheorems.ClientCanPop` shows that the clients never make it.
- Connections.Connection.Close: the test of `IsConnected` before `Disconnect` posts the close, since closing a closed socket changes nothing.
- ConnectionTheorems.EndToEnd: it follows the order in which posted handlers run; `ConnectionTheorems.SentEndToEnd` adds the order of the calls of `Send` for the runs in which the two are the same.
- Servers.CustomServer: accept, broadcast and update run as atomic steps; the unsynchronised access to the deque from two threads, and a socket that closes in the middle of a broadcast, are not modelled.
- Servers.CustomServer.OnAccept: what a denied connection was sent, which is dropped with it.
- Servers.CustomServer.UpdateOnce: waiting, and messages that arrive during the loop; `QueueModel` has both, and `ServerTheorems.QueueOverRun` the arrivals.
- ServerTheorems.BudgetKept: messages that arrive during the loop, which `ServerTheorems.QueueOverRun` has.
- ServerTheorems.IdsIncrease: sockets that are closed again before their approval keep the id 0, as the model's other lemmas say.
- QueueTheorems.NothingLostOrReordered: one thread in `Update`; by `QueueTraces.OneConsumerIff` two are too many. The queue's other operations (`push_front`, `pop_back`, `front`, `back`, `count`, `clear`), which no modelled program calls from two threads.
- QueueTheorems.NotifyWakes: that a sleeping consumer is woken without another push is false, see `QueueTraces.WakeupCanBeLost`.
- Byte order and padding of the host, which the source itself sets aside; the wall clock, whose values are parameters of eight bytes; console output and the `main` functions.
- Transfers.RunBoth: a `read_some` that finds nothing returns without progress instead of blocking.
- The synchronous clients, the UDP programs, the ch4 servers, `net_client.h`, and the remaining demonstrations: their lifecycles are simpler copies of those modelled, or a single library call.
