# Verification of the JSON-RPC server, its client and its helpers

This Dafny project models the core of the repository's libraries and proves what they are
for. `dafny verify dfyconfig.toml` checks the whole project.

- **JSON checker** (`JsonGrammar`, `JsonChecker`, `CheckerComplete`, `CheckerSound`,
  `CheckerTheorems`): the
  table-driven pushdown automaton with its bounded mode stack accepts exactly the texts of a
  recursive grammar given by derivation trees. The grammar follows sections 2 to 5 and 7 of
  RFC 8259 with an object or array at the top, as in section 2 of RFC 4627; numbers follow the
  automaton's table, and the difference to section 6 of RFC 8259 is stated exactly.
- **Stream framer** (`Framing`, `StreamFramer`, `FramingTheorems`, `FramerMeetsChecker`): the
  incremental scanner with its buffer compaction agrees with a one-pass specification for every
  chunking, that specification is characterised by decompositions of the stream, and the framer
  is simulated by the checker.
- **Connection and flow-control protocol** (`PendingTable`, `SendBudget`, `NetServer` and the
  modules named after it): listen thread and response thread as one step machine. A region under
  a lock, or a system call that the other thread can observe, is one step. Descriptors are reused
  freely; sockets are numbered, so that sending to the wrong client would be visible.
  `NetServerLaws` says when the flags of a connection begin and end and what they stop,
  `NetServerAccounts` where messages, visits, drops and descriptors go.
- **Request pipeline** (`RpcPipeline`, `RpcTheorems`): listen thread, handler thread and response
  thread with their chains and semaphores. `ServerAndPipeline` runs it together with the server.
- **Settings store** (`SettingsStore`, `SettingsTheorems`): two files with checksums, and a stop
  of the machine between any two file changes, any number of times.
- **Event manager** (`EventManager`, `EventTheorems`), **linked chain** (`GenericChain`, on the
  heap), **client** (`RpcClient`) and **graphics** (`Gfx`, in 16-bit arithmetic).

The main theorems are `AcceptsIffInGrammar`, `FramesIffDecomposes`, `RunSession`, `Simulation`,
`ResponsesReachTheirOwnClient`, `NoLostWakeUp`, `CountIsUnfinished`, `SelectWatchesEveryone`,
`FlagsBeginAndEnd`, `MessagesAreAccountedFor`, `AtMostOneAnswer`, `DrainedAnswersEveryone`,
`AnswersFitTheirRequests`, `HandlersAnswerInOrder`, `EveryRequestReleasedOnce`, `CrashAtomicity`,
`LoadIsPointwise`, `StoreLastsIff`, `FilesTakeTurns`, `RemovedIffExpired`,
`EventReachesItsSubscribers`, `DrawCircle`, `DrawLine`, `RemoveByIdent` and `Call`; where the code falls short of an expectation, the exact condition is
`RfcNumberAccepted`, `AcceptedNumberInRfc`, `AllOpenIffNoLateDrop`, `NeverDeadAndPausedIff`,
`IdLostIffHandOverFails` or `StoreLastsIff`.

## How the code is represented

- A text is a sequence of character codes, as the unsigned bytes that the checker looks at.
- In `NetServer` a framer is the number of its complete messages. What the kernel and the peers
  choose (which descriptors are readable, which number accept() returns, what recv() brings, which
  sends fail) is an argument of a step. `select()` may report any subset of master_set, and ready
  descriptors may be served in any order. A response whose sender was over its send-wait budget is
  a failed send; the budget itself is `SendBudget`. Requests carry (fd, cltid) as in the source,
  and `home` is the history of registrations.
- The chain of client records is a map from fd to connection id. The fd that is registered never
  has a record before (`PrivateFits`), so appending to the chain and adding to the map agree.
- In `RpcPipeline` a request brings along what the JSON library would find in its text.
- In `SettingsStore` a checksum matches only the content it was computed from, and file changes
  reach the disk in order. The memory of a local copy holds anything until it is written.
- In `RpcClient` the socket and the clock are a list of events, and the id of a frame is a function
  of its text that is undefined for an absent, null or unparsable id.

## Where the code and its promises differ

- A pending entry can be created again after its connection was closed, so not every entry belongs
  to a registered connection (`EntryOutlivesRecord`). That happens exactly when the response thread
  drops a connection whose entry the listen thread has erased (`AllOpenIffNoLateDrop`); such an
  entry is inert (`OrphanedEntriesAreInert`) and stays for good (`OrphanStays`).
- A connection can be dead and paused at once (`DeadAndPaused`), because the dead flag is looked at
  once before the loop that counts requests: exactly when it is dropped after that and then reaches
  its limit (`NeverDeadAndPausedIff`). No wake-up is lost by that.
- The checker's numbers are not those of RFC 8259: a point without digits is taken, an exponent
  straight after 0 is not, and these are the only differences (`RfcNumberAccepted`,
  `AcceptedNumberInRfc`, `NumberWitnesses`).
- An internal error is answered with a null id although the id was read
  (`InternalErrorLosesId`), exactly when the hand-over to the handler fails
  (`IdLostIffHandOverFails`); section 5 of the JSON-RPC 2.0 specification asks for the id. A request without an id is answered as invalid, where the
  specification has notifications.
- A finished Store can be lost (`StoreCanBeLost`): local copies are compared before they were ever
  written, and where they happen to hold the values nothing is saved. A Store lasts exactly when it
  saw a change or everything was on disk already (`StoreLastsIff`).
- `chain_get_by_index` gives the front element for a negative index (`GetByIndex`).

## Model

| member | source | states |
|---|---|---|
| `JsonChecker.Checker.constructor` | lib/lib-jsonrpc-tcp/src/ADJsonChecker.cpp:178-186 | a new checker is in its start state, with only the bottom mode on the stack |
| `JsonChecker.Checker.Push` | lib/lib-jsonrpc-tcp/src/ADJsonChecker.cpp:163-170 | a mode goes on top, or the call fails when the stack would be full |
| `JsonChecker.Checker.Pop` | lib/lib-jsonrpc-tcp/src/ADJsonChecker.cpp:171-177 | the top mode is taken off if it is the expected one, else the call fails and nothing changes |
| `JsonChecker.Checker.Char` | lib/lib-jsonrpc-tcp/src/ADJsonChecker.cpp:187-274 | the state and the mode stack move exactly as one step of the automaton over values, rejection included |
| `JsonChecker.Checker.Done` | lib/lib-jsonrpc-tcp/src/ADJsonChecker.cpp:275-279 | success exactly in the final state with the bottom mode on top |
| `JsonChecker.RunConcat` | lib/lib-jsonrpc-tcp/src/ADJsonChecker.cpp:187-274 | running over two texts in turn is running over their concatenation |
| `CheckerComplete.RunValue` | lib/lib-jsonrpc-tcp/src/ADJsonChecker.cpp:90-274 | for every well-formed value tree that fits the stack, its text takes the automaton from a place for a value to a place after one, with the same stack |
| `CheckerComplete.RunNumber` | lib/lib-jsonrpc-tcp/src/ADJsonChecker.cpp:117-130 | every number of the table's number language is read to a number state |
| `CheckerComplete.RunString` | lib/lib-jsonrpc-tcp/src/ADJsonChecker.cpp:105-116 | every string body with its escapes is read back to the state after a value or a key |
| `CheckerComplete.Complete` | lib/lib-jsonrpc-tcp/src/ADJsonChecker.cpp:90-279 | every text of the recursive grammar nested at most depth - 1 deep is accepted |
| `CheckerSound.Shift` | lib/lib-jsonrpc-tcp/src/ADJsonChecker.cpp:187-274 | each step the automaton does not reject extends a derivation tree cut open at the read position |
| `CheckerSound.Parse` | lib/lib-jsonrpc-tcp/src/ADJsonChecker.cpp:187-274 | every text read without rejection is the yield of such a cut-open tree, whose open brackets are the mode stack |
| `CheckerSound.Sound` | lib/lib-jsonrpc-tcp/src/ADJsonChecker.cpp:90-279 | every accepted text is in the grammar, nested at most depth - 1 deep |
| `CheckerTheorems.AcceptsIffInGrammar` | lib/lib-jsonrpc-tcp/src/ADJsonChecker.cpp:90-279 | for every depth of at least 1 and every text: accepted if and only if in the grammar within that nesting |
| `CheckerTheorems.RfcNumberAccepted` | lib/lib-jsonrpc-tcp/src/ADJsonChecker.cpp:117-130 | of the numbers of section 6 of RFC 8259, in an array, exactly those with an exponent straight after 0 are rejected, for every stack depth of at least 2 |
| `CheckerTheorems.SamePoint` | lib/lib-jsonrpc-tcp/src/ADJsonChecker.cpp:117-130 | unique reading: two readings of one number text put the point in the same place |
| `CheckerTheorems.AcceptedNumberInRfc` | lib/lib-jsonrpc-tcp/src/ADJsonChecker.cpp:119-124 | an accepted number has a text that is a number of section 6 of RFC 8259, however read, if and only if its point is followed by a digit |
| `CheckerTheorems.NumberWitnesses` | lib/lib-jsonrpc-tcp/src/ADJsonChecker.cpp:119-124 | [0e1] is rejected and [1.] is accepted |
| `Framing.FrameIsGood` | lib/lib-jsonrpc-tcp/src/ADJsonStreamFramer.cpp:23-86 | every message found is self-delimiting and within the limit, and the open part is a proper beginning of one |
| `Framing.ErrorStays` | lib/lib-jsonrpc-tcp/src/ADJsonStreamFramer.cpp:24-25 | after a protocol error more bytes change nothing |
| `Framing.DoneGrows` | lib/lib-jsonrpc-tcp/src/ADJsonStreamFramer.cpp:16-86 | messages that were found are never taken back or changed by later bytes |
| `StreamFramer.JsonStreamFramer.constructor` | lib/lib-jsonrpc-tcp/src/ADJsonStreamFramer.cpp:2-4 | a new framer is the pass over no bytes |
| `StreamFramer.JsonStreamFramer.Reset` | lib/lib-jsonrpc-tcp/src/ADJsonStreamFramer.cpp:5-14 | nothing fed, nothing found, no error |
| `StreamFramer.JsonStreamFramer.ScanOutside` | lib/lib-jsonrpc-tcp/src/ADJsonStreamFramer.cpp:31-46 | one byte between messages is one step of the pass |
| `StreamFramer.JsonStreamFramer.ScanInside` | lib/lib-jsonrpc-tcp/src/ADJsonStreamFramer.cpp:47-67 | one byte inside a message is one step of the pass, size limit and end of message included |
| `StreamFramer.JsonStreamFramer.Compact` | lib/lib-jsonrpc-tcp/src/ADJsonStreamFramer.cpp:76-84 | erasing the used part of the buffer leaves the open message and its state as they were |
| `StreamFramer.JsonStreamFramer.Feed` | lib/lib-jsonrpc-tcp/src/ADJsonStreamFramer.cpp:23-86 | in whatever chunks the bytes come, messages, open part and error flag are those of one pass over all of them |
| `StreamFramer.JsonStreamFramer.Next` | lib/lib-jsonrpc-tcp/src/ADJsonStreamFramer.cpp:16-22 | the oldest message not yet handed out, if there is one |
| `StreamFramer.JsonStreamFramer.PendingBytes` | lib/lib-jsonrpc-tcp/src/ADJsonStreamFramer.cpp:15 | the length of the open part, at least the depth and at most max(1, max_msg) |
| `FramingTheorems.Reassemble` | lib/lib-jsonrpc-tcp/src/ADJsonStreamFramer.cpp:23-86 | round trip: self-delimiting messages joined by any separators come back exactly |
| `FramingTheorems.FramesIffDecomposes` | lib/lib-jsonrpc-tcp/src/ADJsonStreamFramer.cpp:23-86 | a pass finds these messages and this rest if and only if the stream is made of them |
| `FramingTheorems.ErrorIffBreaks` | lib/lib-jsonrpc-tcp/src/ADJsonStreamFramer.cpp:37-50 | an error is reported if and only if some byte can neither separate, open nor continue a message within the limit |
| `FramingTheorems.RunSession` | lib/lib-jsonrpc-tcp/src/ADJsonStreamFramer.cpp:16-86 | the framer itself under any list of feed() and next() calls: what it hands out, then and at the end, its error flag and the length of its open part are those of one pass |
| `FramerMeetsChecker.Simulation` | lib/lib-jsonrpc-tcp/src/ADJsonStreamFramer.cpp:29-68 | while the checker has not rejected and the open message is within the limit, depth, string flag and escape flag are the checker's top and string states |
| `FramerMeetsChecker.ErrorIffTooLong` | lib/lib-jsonrpc-tcp/src/ADJsonStreamFramer.cpp:47-50 | on a text that the checker has not rejected, the framer reports an error if and only if the open message outgrows the limit |
| `FramerMeetsChecker.AcceptedMessage` | lib/lib-jsonrpc-tcp/src/ADJsonStreamFramer.cpp:29-68 | an accepted text without its outer white space is one self-delimiting message |
| `FramerMeetsChecker.AcceptedFrames` | lib/lib-jsonrpc-tcp/src/ADJsonStreamFramer.cpp:29-68 | an accepted text is framed as exactly that one message if and only if the message is within the limit |
| `FramerMeetsChecker.CutAtNulIsHarmless` | lib/lib-jsonrpc-tcp/src/ADJsonRpcProxy.cpp:110-125 | checking a framed message only up to its first NUL gives the same verdict, and one that holds a NUL is never accepted |
| `FramerMeetsChecker.JsonCheckerFunction` | lib/lib-jsonrpc-tcp/src/ADJsonRpcProxy.cpp:110-125 | 0 exactly for buffers whose C string is in the grammar nested at most 19 deep, else -1 |
| `PendingTable.RegionsKeepBounds` | lib/lib-jsonrpc-tcp/src/ADNetServer.cpp:145-152 | each locked region keeps every count within 0..256 and every pause above 128 |
| `PendingTable.PendingMap.ConnectionDead` | lib/lib-jsonrpc-tcp/src/ADNetServer.cpp:126-134 | true exactly for a known id with its dead flag set |
| `PendingTable.PendingMap.Drop` | lib/lib-jsonrpc-tcp/src/ADNetServer.cpp:139-153 | the entry is dead and not paused afterwards, created if it was missing; a wake-up is due if it was paused |
| `PendingTable.PendingMap.ResponseDone` | lib/lib-jsonrpc-tcp/src/ADNetServer.cpp:172-187 | the table after one answer and whether a wake-up is due; FlagsBeginAndEnd and CountIsUnfinished say for runs what that is: one request less, and the end of a pause at 128 |
| `PendingTable.PendingMap.CountRequest` | lib/lib-jsonrpc-tcp/src/ADNetServer.cpp:736-743 | one request more, or paused at the limit |
| `PendingTable.PendingMap.OverSendWaitBudget` | lib/lib-jsonrpc-tcp/src/ADNetServer.cpp:106-125 | the wait is added to the current window or starts a new one; the result tells whether the total is over the budget |
| `SendBudget.AccountIsWindow` | lib/lib-jsonrpc-tcp/src/ADNetServer.cpp:113-123 | the account is the sum of the waits since the start of the window, which is at most a minute ago |
| `SendBudget.DroppedIffOverBudget` | lib/lib-jsonrpc-tcp/src/ADNetServer.cpp:239-255 | over budget if and only if the waits of the current window add up to more than 5000 ms |
| `SendBudget.AnyMinuteIsBounded` | lib/lib-jsonrpc-tcp/src/ADNetServer.cpp:106-125 | a connection that was never over budget has at most 10000 ms of waiting in any 60000 ms |
| `NetServerFd.LowerBounds` | lib/lib-jsonrpc-tcp/src/ADNetServer.cpp:401-405 | lowering max_sd ends at a set descriptor or 0 and leaves none above it |
| `NetServerFd.RecordsLoop` | lib/lib-jsonrpc-tcp/src/ADNetServer.cpp:594-611 | accepting and registering keep every client record with the socket it was registered for |
| `NetServerFd.RecordsClose` | lib/lib-jsonrpc-tcp/src/ADNetServer.cpp:793-810 | deregistering before close() keeps them so while the fd number becomes free |
| `NetServerFd.FdResponse` | lib/lib-jsonrpc-tcp/src/ADNetServer.cpp:48-64 | every step of the response thread keeps its dup on the socket that the connection id was given to |
| `NetServerFd.FdKept` | lib/lib-jsonrpc-tcp/src/ADNetServer.cpp:194-412 | every step of either thread keeps the invariant over descriptors, records, framers, master_set, paused_fds and max_sd |
| `NetServerFlow.UnfinishedData` | lib/lib-jsonrpc-tcp/src/ADNetServer.cpp:716-782 | the multiset of unfinished requests grows by one exactly when a request is counted |
| `NetServerFlow.UnfinishedResponse` | lib/lib-jsonrpc-tcp/src/ADNetServer.cpp:239-255 | and shrinks by one exactly when a response is done |
| `NetServerFlow.CountOne` | lib/lib-jsonrpc-tcp/src/ADNetServer.cpp:736-743 | counting one request keeps every count equal to the unfinished requests |
| `NetServerFlow.ReleaseOne` | lib/lib-jsonrpc-tcp/src/ADNetServer.cpp:176-187 | so does releasing one |
| `NetServerFlow.EraseOne` | lib/lib-jsonrpc-tcp/src/ADNetServer.cpp:796-800 | so does erasing the entry of a connection that is being closed |
| `NetServerFlow.RegisterOne` | lib/lib-jsonrpc-tcp/src/ADNetServer.cpp:594-611 | a new connection id has no entry and no request |
| `NetServerFlow.WakeUpsLoop` | lib/lib-jsonrpc-tcp/src/ADNetServer.cpp:286-304 | visiting paused connections, on a wake-up or a timeout, loses no wake-up |
| `NetServerFlow.WakeUpsData` | lib/lib-jsonrpc-tcp/src/ADNetServer.cpp:716-782 | nor does pausing a connection whose flag was cleared in between |
| `NetServerFlow.WakeUpsResponse` | lib/lib-jsonrpc-tcp/src/ADNetServer.cpp:139-191 | clearing a pause flag and writing the byte are two steps, and in between the writer is known to be about to write |
| `NetServerFlow.FlowKept` | lib/lib-jsonrpc-tcp/src/ADNetServer.cpp:139-222 | every step keeps counts and wake-ups |
| `NetServerTheorems.RunKeeps` | lib/lib-jsonrpc-tcp/src/ADNetServer.cpp:259-412 | the invariants hold in every state of every run |
| `NetServerTheorems.RegistrationsStand` | lib/lib-jsonrpc-tcp/src/ADNetServer.cpp:594-611 | a connection id stands for one socket for good |
| `NetServerTheorems.ResponsesReachTheirOwnClient` | lib/lib-jsonrpc-tcp/src/ADNetServer.cpp:43-64 | with any reuse of fd numbers, a response with id c was only sent on the socket whose registration produced c, and no other registration had that socket |
| `NetServerTheorems.CountIsUnfinished` | lib/lib-jsonrpc-tcp/src/ADNetServer.cpp:172-191 | for every open connection the count is the number of its unfinished requests, between 0 and 256, and a pause means more than 128 of them |
| `NetServerTheorems.NoLostWakeUp` | lib/lib-jsonrpc-tcp/src/ADNetServer.cpp:188-222 | at select(), a paused connection has more than 128 unfinished requests, or a byte is in the pipe or about to be written, a full pipe included |
| `NetServerTheorems.DrainedLeavesNobodyPaused` | lib/lib-jsonrpc-tcp/src/ADNetServer.cpp:286-304 | with everything answered and the pipe read, nobody is paused and no request is left in the chain |
| `NetServerTheorems.SelectWatchesEveryone` | lib/lib-jsonrpc-tcp/src/ADNetServer.cpp:343-350 | at select(), every connection has a framer and is in exactly one of master_set and paused_fds, max_sd covers the set, and no request is stranded in the framer of a watched connection |
| `NetServerTheorems.NobodyIsStuck` | lib/lib-jsonrpc-tcp/src/ADNetServer.cpp:716-782 | the guards of the steps hold wherever a thread stands, looking up a registered connection included, so they hide no behaviour |
| `NetServerTheorems.OrphanedEntriesAreInert` | lib/lib-jsonrpc-tcp/src/ADNetServer.cpp:139-153 | a pending entry of an id that no record has counts nothing, pauses nobody and has the dead flag |
| `NetServerLaws.FlagsBeginAndEnd` | lib/lib-jsonrpc-tcp/src/ADNetServer.cpp:139-191 | in every run: a pause of an open connection ends exactly when it is dropped, erased or an answer leaves at most 128 unfinished, and begins exactly when a message waits while 256 are unfinished; the dead flag is set exactly by a drop and lasts until the entry is erased |
| `NetServerLaws.SentOnlyIfNotDropped` | lib/lib-jsonrpc-tcp/src/ADNetServer.cpp:48-64 | whatever is looked up or sent was checked when its connection was not dropped |
| `NetServerLaws.QueuedOnlyIfNotDropped` | lib/lib-jsonrpc-tcp/src/ADNetServer.cpp:716-730 | requests are queued only for a connection that was known and not dropped when the queueing began |
| `NetServerLaws.RequestsJoin` | lib/lib-jsonrpc-tcp/src/ADNetServer.cpp:747-776 | a request joins the chain only from there, at the end, with the id of its connection |
| `NetServerLaws.BrokenStreamIsDoomed` | lib/lib-jsonrpc-tcp/src/ADNetServer.cpp:355-380 | the end of a stream, an error on it or bytes that cannot be framed put its connection on the way to be closed |
| `NetServerLaws.DoomedIsClosed` | lib/lib-jsonrpc-tcp/src/ADNetServer.cpp:398-406 | in every run, once the listen thread leaves that way, no record, framer, descriptor or set entry of the connection is left |
| `NetServerLaws.PausedIsNotRead` | lib/lib-jsonrpc-tcp/src/ADNetServer.cpp:383-388 | back-pressure, in every run: a connection with the pause flag is not read from, and at select() it is not watched |
| `NetServerAccounts.MessagesAreAccountedFor` | lib/lib-jsonrpc-tcp/src/ADNetServer.cpp:700-782 | in every run, every message framed for an open connection has joined the chain once, was thrown away because the connection was dropped, or is still in its framer |
| `NetServerAccounts.VisitsStart` | lib/lib-jsonrpc-tcp/src/ADNetServer.cpp:286-304 | a wake-up, and a timeout with somebody paused, start a visit to all paused connections |
| `NetServerAccounts.VisitReachesEveryone` | lib/lib-jsonrpc-tcp/src/ADNetServer.cpp:194-222 | a connection whose flag stays cleared during the visit is in select() again after it |
| `NetServerAccounts.DroppedIffSendFails` | lib/lib-jsonrpc-tcp/src/ADNetServer.cpp:239-255 | between a send and the end of its response, the connection is dropped if and only if the send failed |
| `NetServerAccounts.NoDescriptorLeaks` | lib/lib-jsonrpc-tcp/src/ADNetServer.cpp:793-810 | in every run, with the listen thread waiting and no response in hand, the open descriptors are the listening one, the pipe and those of registered connections |
| `NetServerExact.OrphanArisesIff` | lib/lib-jsonrpc-tcp/src/ADNetServer.cpp:143-153 | from a state in which every pending entry belongs to an open connection, a step leads to one in which some entry does not if and only if it is a drop of a connection whose entry was erased before |
| `NetServerExact.OrphanStays` | lib/lib-jsonrpc-tcp/src/ADNetServer.cpp:793-800 | such an entry is never removed |
| `NetServerExact.AllOpenIffNoLateDrop` | lib/lib-jsonrpc-tcp/src/ADNetServer.cpp:143-153 | at every point of every run, all entries belong to open connections if and only if there was no such drop so far |
| `NetServerExact.DeadAndPausedArisesIff` | lib/lib-jsonrpc-tcp/src/ADNetServer.cpp:734-746 | a step leads from a table without a dead and paused entry to one with such an entry if and only if it pauses a connection at its limit that was dropped after the flag was looked at |
| `NetServerExact.NeverDeadAndPausedIff` | lib/lib-jsonrpc-tcp/src/ADNetServer.cpp:724-746 | a run never has a dead and paused connection if and only if it has no such step |
| `NetServerWitness.EntryOutlivesRecord` | lib/lib-jsonrpc-tcp/src/ADNetServer.cpp:145-145 | such entries do occur: a run that ends with one |
| `NetServerWitness.DeadAndPaused` | lib/lib-jsonrpc-tcp/src/ADNetServer.cpp:724-741 | a dropped connection can be paused: a run that ends with both flags set |
| `RpcTheorems.ReachesHandlerIff` | lib/lib-jsonrpc-tcp/src/ADJsonRpcProxy.cpp:367-411 | a request is dispatched if and only if it is no array, is in the grammar nested at most 19 deep, and has an id and a registered method |
| `RpcTheorems.RefusedWith` | lib/lib-jsonrpc-tcp/src/ADJsonRpcProxy.cpp:373-411 | which error code each refused request gets, both directions |
| `RpcTheorems.SemsKept` | lib/lib-jsonrpc-tcp/src/ADJsonRpcMapper.cpp:3-52 | each semaphore counts the elements of its chain that nobody has come for yet |
| `RpcTheorems.LineKept` | lib/lib-jsonrpc-tcp/src/ADJsonRpcProxy.cpp:422-503 | ReqRespChain stands in the order of the pipeline, with every element in exactly one stage |
| `RpcTheorems.LineFinds` | lib/lib-jsonrpc-tcp/src/ADJsonRpcProxy.cpp:474-485 | the ident that the response thread looks up is always that of the first element |
| `RpcTheorems.LinePutFails` | lib/lib-jsonrpc-tcp/src/ADJsonRpcProxy.cpp:443-454 | what a failed hand-over takes back is always the last element of ReqRespChain |
| `RpcTheorems.AtMostOneAnswer` | lib/lib-jsonrpc-tcp/src/ADJsonRpcProxy.cpp:367-503 | in every run no request gets two scheduled responses |
| `RpcTheorems.DrainedAnswersEveryone` | lib/lib-jsonrpc-tcp/src/ADJsonRpcProxy.cpp:367-503 | when no thread can go on, every request that arrived has exactly one |
| `RpcTheorems.HandlersAnswerInOrder` | lib/lib-jsonrpc-tcp/src/ADJsonRpcProxy.cpp:459-503 | handler answers are scheduled in arrival order |
| `RpcTheorems.AnswersFitTheirRequests` | lib/lib-jsonrpc-tcp/src/ADJsonRpcProxy.cpp:250-411 | every answer carries the fd and connection id of its request, and the code and id that it deserves: -32600 for an array or a missing id, -32700 for a text outside the grammar, -32601 with the id for an unknown method, else a result with the id or -32603 without |
| `RpcTheorems.HandlerGetsCommand` | lib/lib-jsonrpc-tcp/src/ADJsonRpcProxy.cpp:402-443 | what a handler works on is the command, id and connection of a request that was read, and its text is in the grammar |
| `RpcTheorems.IdLostIffHandOverFails` | lib/lib-jsonrpc-tcp/src/ADJsonRpcProxy.cpp:415-454 | in every run, a request with a verdict for the handler is answered with a null id if and only if no task could be made for it or the handler's chain refused it |
| `RpcTheorems.IdsComeBack` | lib/lib-jsonrpc-tcp/src/ADJsonRpcProxy.cpp:284-292 | in a run without such a failure every answer carries the id that its request was read to have |
| `RpcTheorems.InternalErrorLosesId` | lib/lib-jsonrpc-tcp/src/ADJsonRpcProxy.cpp:415-421 | for every request that could be dispatched there is a run in which its answer has a null id |
| `ServerAndPipeline.ReplyIsSchedule` | lib/lib-jsonrpc-tcp/src/ADJsonRpcProxy.cpp:326-338 | with server and pipeline running together, every reply scheduled is one that the server waits for |
| `ServerAndPipeline.RunKeeps` | lib/lib-jsonrpc-tcp/src/ADJsonRpcProxy.cpp:8-18 | in every joint run both invariants hold and the server's handlers hold exactly what is in the pipeline |
| `ServerAndPipeline.CountedMinusReleased` | lib/lib-jsonrpc-tcp/src/ADNetServer.cpp:736-743 | in every joint run, requests counted for a connection minus requests released are its unfinished ones |
| `ServerAndPipeline.EveryRequestReleasedOnce` | lib/lib-jsonrpc-tcp/src/ADNetServer.cpp:172-187 | when both machines are at rest, every request counted for a connection has been released exactly once |
| `ServerAndPipeline.AnswersWentHome` | lib/lib-jsonrpc-tcp/src/ADNetServer.cpp:43-64 | and whatever was sent for a connection id went to its own socket |
| `SettingsStore.Settings.FileConsistencyCheck` | lib/lib-jsonrpc-tcp/src/ADSettings.cpp:212-283 | missing files are created empty and the file is selected by checksums, then by sequence count |
| `SettingsStore.Settings.ReadEntries` | lib/lib-jsonrpc-tcp/src/ADSettings.cpp:297-367 | an entry found in the handle gets value and local copy from it, every other entry stays as it was |
| `SettingsStore.Settings.Load` | lib/lib-jsonrpc-tcp/src/ADSettings.cpp:284-370 | the program and the states of the files afterwards |
| `SettingsStore.Settings.CopyEntries` | lib/lib-jsonrpc-tcp/src/ADSettings.cpp:384-483 | tells whether any entry differs from its local copy, whose memory starts out with anything, or is an array of doubles, and brings all copies up to date |
| `SettingsStore.Settings.CopyMeta` | lib/lib-jsonrpc-tcp/src/ADSettings.cpp:384-405 | the same for the copies of the metadata, one for each Load |
| `SettingsStore.Settings.CopyChanged` | lib/lib-jsonrpc-tcp/src/ADSettings.cpp:381-483 | both together |
| `SettingsStore.Settings.UpdateSequenceCount` | lib/lib-jsonrpc-tcp/src/ADSettings.cpp:166-184 | the count goes up by one, and so does the first copy of it |
| `SettingsStore.Settings.Save` | lib/lib-jsonrpc-tcp/src/ADSettings.cpp:81-98 | the file is emptied, goes through any partial contents and is complete at the end |
| `SettingsStore.Settings.CalculateCheckSum` | lib/lib-jsonrpc-tcp/src/ADSettings.cpp:185-189 | the checksum file is broken, then that of the file |
| `SettingsStore.Settings.Store` | lib/lib-jsonrpc-tcp/src/ADSettings.cpp:371-495 | the program and every state of the files on the way; -1 without an open handle |
| `SettingsTheorems.WritingKeepsOld` | lib/lib-jsonrpc-tcp/src/ADSettings.cpp:212-283 | while the alternate file is written, the selection and what it loads do not change |
| `SettingsTheorems.StoreCompletes` | lib/lib-jsonrpc-tcp/src/ADSettings.cpp:484-495 | after the last change of a Store the new file is selected |
| `SettingsTheorems.StoreInterrupted` | lib/lib-jsonrpc-tcp/src/ADSettings.cpp:484-495 | a Store cut off anywhere leaves the old contents or, after its last change, the new ones |
| `SettingsTheorems.HistoryKeeps` | lib/lib-jsonrpc-tcp/src/ADSettings.cpp:166-290 | the files are in order after any history of Load, Store, changed values and stops |
| `SettingsTheorems.CrashAtomicity` | lib/lib-jsonrpc-tcp/src/ADSettings.cpp:166-290 | in every history, a stop after any number of file changes leaves what was durable before, or, after the last change of a Store, every value, the metadata and the next sequence count |
| `SettingsTheorems.LoadIsPointwise` | lib/lib-jsonrpc-tcp/src/ADSettings.cpp:284-370 | in every history: a Load puts what the handle or, with it closed, the files hold into entries, their copies and all copies of the metadata, leaves every other entry alone, its copy included, and changes nothing durable |
| `SettingsTheorems.StoreWritesIff` | lib/lib-jsonrpc-tcp/src/ADSettings.cpp:384-494 | a Store changes the files if and only if some entry or some copy of the metadata differs from its copy or there is an array of doubles |
| `SettingsTheorems.FirstStoreWritesIff` | lib/lib-jsonrpc-tcp/src/ADSettings.cpp:359-403 | the same for the first start, where no key is found: defaults against the memory of their copies |
| `SettingsTheorems.StoreLeaves` | lib/lib-jsonrpc-tcp/src/ADSettings.cpp:166-184 | after a Store that writes: every entry copy up to date, the count one higher, and only the first metadata copy with it |
| `SettingsTheorems.StoreFillsHandle` | lib/lib-jsonrpc-tcp/src/ADSettings.cpp:384-483 | after every Store the handle holds all values and the metadata, and what it held beyond them |
| `SettingsTheorems.StoreOrder` | lib/lib-jsonrpc-tcp/src/ADSettings.cpp:484-495 | a Store never touches the selected file; the other one is emptied, filled and complete before its checksum is broken and made |
| `SettingsTheorems.FilesTakeTurns` | lib/lib-jsonrpc-tcp/src/ADSettings.cpp:212-283 | in every history, stops included, main is selected for odd sequence counts, else the backup |
| `SettingsTheorems.StoreLastsIff` | lib/lib-jsonrpc-tcp/src/ADSettings.cpp:484-494 | at any point of any history, every later start finds what a finished Store was for if and only if it saw a change or everything was on disk already |
| `SettingsTheorems.StoreCanBeLost` | lib/lib-jsonrpc-tcp/src/ADSettings.cpp:394-403 | a history in which uninitialised copies happen to equal the defaults and a finished Store is lost |
| `SettingsTheorems.BackedStoreLasts` | lib/lib-jsonrpc-tcp/src/ADSettings.cpp:371-495 | once the local copies hold what is on disk, every finished Store lasts |
| `SettingsTheorems.LoadBacks` | lib/lib-jsonrpc-tcp/src/ADSettings.cpp:297-367 | they do after a Load that finds every entry |
| `SettingsTheorems.ChangedStoreBacks` | lib/lib-jsonrpc-tcp/src/ADSettings.cpp:484-494 | and after a Store that writes |
| `SettingsTheorems.BackedStays` | lib/lib-jsonrpc-tcp/src/ADSettings.cpp:371-495 | and then until the program ends |
| `SettingsTheorems.NothingDurableAtFirst` | lib/lib-jsonrpc-tcp/src/ADSettings.cpp:239-246 | fresh files leave the program with its defaults |
| `EventManager.FailRun` | lib/lib-jsonrpc-tcp/src/ADEvntMgr.cpp:84-98 | the length of the run of failures at the end of a record |
| `EventManager.QueueHoldsLatest` | lib/lib-jsonrpc-tcp/src/ADEvntMgr.cpp:137-150 | whenever the thread takes the events, the queue holds the latest 1024 since the last time, in order |
| `EventManager.Mgr.TakeEvents` | lib/lib-jsonrpc-tcp/src/ADEvntMgr.cpp:29-32 | the thread gets all that waits and leaves an empty queue |
| `EventManager.Mgr.RegisterEventSubscription` | lib/lib-jsonrpc-tcp/src/ADEvntMgr.cpp:105-122 | a new subscription is listed last with the next token, a duplicate is refused and changes nothing |
| `EventManager.Mgr.UnregisterEventSubscription` | lib/lib-jsonrpc-tcp/src/ADEvntMgr.cpp:123-136 | exactly the entries with the token go, -1 if there was none |
| `EventManager.Mgr.CopyTargets` | lib/lib-jsonrpc-tcp/src/ADEvntMgr.cpp:36-44 | exactly the listed subscribers of the event or of all events, in list order |
| `EventManager.Mgr.CountFailures` | lib/lib-jsonrpc-tcp/src/ADEvntMgr.cpp:82-99 | every entry moves as the results say |
| `EventManager.Mgr.EraseFlagged` | lib/lib-jsonrpc-tcp/src/ADEvntMgr.cpp:100-102 | flagged entries go, the others stay in order |
| `EventManager.Mgr.UpdateFailureCounts` | lib/lib-jsonrpc-tcp/src/ADEvntMgr.cpp:74-104 | the list and the recorded deliveries afterwards |
| `EventManager.Mgr.NotifyEvent` | lib/lib-jsonrpc-tcp/src/ADEvntMgr.cpp:137-150 | the event is appended, the oldest dropped from a full queue |
| `EventTheorems.TouchFits` | lib/lib-jsonrpc-tcp/src/ADEvntMgr.cpp:84-98 | counter and first failure time follow the record, and the delete flag is set exactly when the record has expired |
| `EventTheorems.StepKeeps` | lib/lib-jsonrpc-tcp/src/ADEvntMgr.cpp:33-136 | tokens stay in order, subscriptions stay distinct, and every entry tells how its record ends |
| `EventTheorems.RemovedIffExpired` | lib/lib-jsonrpc-tcp/src/ADEvntMgr.cpp:74-104 | in every run a subscriber is removed if and only if its last failures are at least 5 and span at least 60000 ms |
| `EventTheorems.EventReachesItsSubscribers` | lib/lib-jsonrpc-tcp/src/ADEvntMgr.cpp:36-44 | in every run the targets of an event are exactly those listed for it or for all events, in order |
| `EventTheorems.RegisteredIsListed` | lib/lib-jsonrpc-tcp/src/ADEvntMgr.cpp:105-122 | in every run a subscription that is made is listed with a new token and a clean slate, and nobody else is affected |
| `EventTheorems.UnregisteredIsGone` | lib/lib-jsonrpc-tcp/src/ADEvntMgr.cpp:123-136 | in every run exactly the entries of the token that is taken back are gone |
| `EventTheorems.NewcomersUntouched` | lib/lib-jsonrpc-tcp/src/ADEvntMgr.cpp:33-56 | results of an event leave every subscription alone that was made after its targets were copied |
| `EventTheorems.ListedBefore` | lib/lib-jsonrpc-tcp/src/ADEvntMgr.cpp:105-122 | in every run, an entry with a token given out before some point was listed at that point with the same subscription |
| `EventTheorems.TokensNeverComeBack` | lib/lib-jsonrpc-tcp/src/ADEvntMgr.cpp:110-113 | in every run a token stands for one subscription for good |
| `Gfx.Midpoint` | lib/lib-display/src/Adafruit_GFX.cpp:82-91 | what the sign of f decides: the next height is again the nearest one, and f stays in range |
| `Gfx.NextColumn` | lib/lib-display/src/Adafruit_GFX.cpp:82-91 | one column keeps f = (x+1)^2 + y^2 - y - r^2 and its increments without overflow; y falls by at most 1 |
| `Gfx.DrawnHave` | lib/lib-display/src/Adafruit_GFX.cpp:77-101 | a pixel is drawn if and only if it is one of the eight mirror images of a point of the octant |
| `Gfx.DrawnIsCircle` | lib/lib-display/src/Adafruit_GFX.cpp:69-102 | an octant of nearest heights, drawn eightfold, is the whole circle without a gap |
| `Gfx.DrawCircle` | lib/lib-display/src/Adafruit_GFX.cpp:69-102 | for r >= 0 a set of pixels each nearest to the ideal circle, with both axes and both diagonals as mirrors and a pixel in every column from x0 - r to x0 + r, in the order of the columns of an octant; for r < 0 just the four poles |
| `Gfx.WithinHalf` | lib/lib-display/src/Adafruit_GFX.cpp:199-220 | an error term in range means at most half a pixel from the ideal line |
| `Gfx.StepsToEnd` | lib/lib-display/src/Adafruit_GFX.cpp:208-220 | the last column is at the height of the end |
| `Gfx.NextPoint` | lib/lib-display/src/Adafruit_GFX.cpp:214-219 | one column keeps the error term exact and in range without overflow |
| `Gfx.DrawAlong` | lib/lib-display/src/Adafruit_GFX.cpp:195-221 | a line along its longer axis, turned back if it is steep |
| `Gfx.DrawLine` | lib/lib-display/src/Adafruit_GFX.cpp:181-221 | max(|dx|,|dy|) + 1 neighbouring pixels from end to end, each within half a pixel of the ideal line |
| `GenericChain.ChainedWithout` | lib/lib-jsonrpc-tcp/src/ADGenericChain.cpp:104-108 | joining the neighbours of a holder leaves the links of both directions inverse |
| `GenericChain.ChainedAppend` | lib/lib-jsonrpc-tcp/src/ADGenericChain.cpp:43-45 | so does linking a new last holder |
| `GenericChain.Chain.constructor` | lib/lib-jsonrpc-tcp/src/ADGenericChain.cpp:5-14 | an empty chain |
| `GenericChain.Chain.Put` | lib/lib-jsonrpc-tcp/src/ADGenericChain.cpp:34-61 | the element is appended, and the peak is raised if the chain was never as long |
| `GenericChain.Chain.Get` | lib/lib-jsonrpc-tcp/src/ADGenericChain.cpp:184-201 | the front element is taken out |
| `GenericChain.Chain.RemoveFront` | lib/lib-jsonrpc-tcp/src/ADGenericChain.cpp:215-228 | the front holder is unlinked, -1 for an empty chain |
| `GenericChain.Chain.GetByIdent` | lib/lib-jsonrpc-tcp/src/ADGenericChain.cpp:62-77 | the first match, if a helper is attached |
| `GenericChain.Chain.RemoveByIdent` | lib/lib-jsonrpc-tcp/src/ADGenericChain.cpp:78-115 | exactly the first match is removed, in the middle or at either end |
| `GenericChain.Chain.GetByIndex` | lib/lib-jsonrpc-tcp/src/ADGenericChain.cpp:170-183 | the element at the index, the front one for a negative index |
| `GenericChain.Chain.RemoveAll` | lib/lib-jsonrpc-tcp/src/ADGenericChain.cpp:261-275 | the chain is empty and each element was released exactly once, in order |
| `GenericChain.Chain.GenerateIdent` | lib/lib-jsonrpc-tcp/src/ADGenericChain.cpp:236-243 | the next ident |
| `RpcClient.NetClient.SendAll` | lib/lib-jsonrpc-tcp/src/ADNetClient.cpp:153-164 | exactly the bytes that the calls of send() take go out; success if and only if that is all of them |
| `RpcClient.WrittenIsSum` | lib/lib-jsonrpc-tcp/src/ADNetClient.cpp:153-164 | what goes out is the sum of what the calls before the first failing one take, up to the length |
| `RpcClient.NetClient.SendData` | lib/lib-jsonrpc-tcp/src/ADNetClient.cpp:141-165 | received bytes are forgotten and exactly the leading chunks that have arrived are drained; then the request goes out |
| `RpcClient.NetClient.Happen` | lib/lib-jsonrpc-tcp/src/ADNetClient.cpp:241-249 | a chunk is fed to the framer, so that its bytes are those of all events since they were last forgotten |
| `RpcClient.NetClient.ReceiveJson` | lib/lib-jsonrpc-tcp/src/ADNetClient.cpp:222-253 | the next frame, handed out as soon as it is complete; -1 exactly at the deadline or without a connection, -2 exactly when the stream is lost, with no frame left behind |
| `RpcClient.Client.SendRequest` | lib/lib-jsonrpc-tcp/src/ADJsonRpcClient.cpp:75-87 | when a request is sent, and that nothing received before is left then; a failure asks for a reconnect |
| `RpcClient.Client.Round` | lib/lib-jsonrpc-tcp/src/ADJsonRpcClient.cpp:105-113 | one frame more of the bytes received so far, or the reason why there is none |
| `RpcClient.Client.ReceiveResponse` | lib/lib-jsonrpc-tcp/src/ADJsonRpcClient.cpp:94-137 | the first frame that fits, after skipping only frames of other calls; or -1 with nothing, because no frame handed out fits and the deadline came, nothing more came or the stream was lost |
| `RpcClient.Client.Call` | lib/lib-jsonrpc-tcp/src/ADJsonRpcClient.cpp:57-137 | whatever earlier calls left behind: if the request was sent, the first fitting frame of the bytes that came after it, or -1 with an empty response for one of those reasons; if not, -1 |
| `RpcClient.NetClient.Reconnect` | lib/lib-jsonrpc-tcp/src/ADNetClient.cpp:123-131 | nothing that was received survives |
| `RpcClient.Client.StoreRequest` | lib/lib-jsonrpc-tcp/src/ADJsonRpcClient.cpp:57-73 | the stored text, and its id or -1 |

## Left out

- Start, stop and destructor paths of the server and its threads, and the binary socket type.
- Allocation failures, except where a request is refused for one (`NoMemory`, `PutFails`); a
  response ident that cannot be allocated would leave its request without an answer.
- 32-bit wrap-around of connection ids, tokens, idents and the sequence count.
- The bytes of requests and responses inside the connection protocol: order and content of one
  connection's requests are modelled in the framer and in the pipeline, not in `NetServer`.
- More than one handler object: the pipeline has one handler thread, so answers of different
  handler threads are not ordered here.
- JSON parsing and printing, the settings library, sockets, poll and clocks: foreign code.
- A Save that fails: the local copies are already updated then, so a later Store may see no change.
- Crashes of the file system itself (reordered or lost writes).
- process_event and the process thread: the same queue as notify_event without failure counting.
- Chains with two idents (chain_get_by_double_ident and its partner): the same walk as with one.
- Request builders, result parsers, the command dispatch and the result strings: repetitive.
- Rectangles, fast lines, filled circles, rounded corners, text and all hardware access.
- Gfx.DrawCircle: radii beyond 16383 and centres whose circle leaves the 16-bit range, where the
  library's own arithmetic wraps.
- Gfx.DrawLine: end points beyond 16383, for the same reason.
- RpcClient.Client.ReceiveResponse: only after a send, which empties the old response, as every call
  in the library does it.
