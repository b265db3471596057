# unio: a verified model

unio wraps libuv and OpenSSL in event-driven C++ objects. This project models the parts of it that are
protocols rather than wrappers, and proves what they keep over every run:

| file | part of the system |
|---|---|
| `Prelude.dfy` | shared vocabulary |
| `Buffers.dfy` | the growable buffer with position and limit |
| `ReadPath.dfy` | alloc and read callbacks of a TCP socket, buffer growth, start and cancel of reading |
| `LoopQueue.dfy` | the loop's task queue: one drain, with tasks that submit tasks |
| `LoopMachine.dfy` | the same queue with any number of threads, the mutex and the coalescing wake-up |
| `Emitters.dfy` | the event emitter's table and dispatch loop |
| `EmitterLog.dfy` | nested dispatch, as a table machine and as a flat registration log |
| `EmitterRuns.dfy` | the emitter object's `Emit` as a run of the table machine |
| `InitProtocol.dfy` | InitEvent listeners from any thread, under the init mutex and the loop mutex |
| `TcpRequests.dfy` | the TCP handle's life, its requests and their references |
| `Engine.dfy` | the TLS engine over OpenSSL as an oracle on byte queues |
| `SslSocket.dfy` | `tlsProcess`, TLS write, disconnect and the decrypt loop |
| `TlsStack.dfy` | the whole stack on the loop thread, user callbacks calling back in at any point |
| `TlsStackPump.dfy` | the stack's `tlsProcess` is the object's |
| `TlsStackAccount.dfy` | bytes over every run of the stack |
| `TlsStackDecrypt.dfy` | the decrypt loop over every run of the stack: it terminates, drains, and feeds each byte once |
| `TlsStackFlush.dfy` | who goes on with the output, and that a shutdown ends in a close, over every run of the stack |
| `TlsStackTeardown.dfy` | closing over every run of the stack, and the stack as a refinement of its parent |
| `TlsStackOutcome.dfy` | connect callbacks over every run of the stack |
| `TlsStackTold.dfy` | who is told of a success or a failure over every run of the stack |
| `TlsStackSettings.dfy` | read buffer, closing, handshaked, listeners and results of disconnect over every run of the stack |
| `TlsStackWitness.dfy` | runs that exist: a success, a close, and each failure at a concrete input |

Objects the source updates in place are classes whose methods are tied to functions on their values;
the functions and the machines built from them carry the theorems. A machine has a set of labels, a
predicate `Enabled`, a function `Step`, and runs as sequences of labels; `Reachable` holds of the states
that some run from the start ends in. What the environment or the user decides is a parameter of a label,
and theorems hold for every run.

## Premises on the environment

- libuv never runs a request's callback synchronously from a call that succeeds. A closing handle refuses
  new requests. Requests cancelled by a close complete before the close callback. `uv_is_closing` stays
  true after a close. An alloc callback and its read callback are paired, and a read never reports more
  than was offered. An open async handle that was signalled calls back, on the loop thread.
- OpenSSL: a positive `SSL_write` leaves bytes in the outbound BIO. `SSL_read` takes from the current
  record and otherwise from one new record; it never returns zero while the current record has bytes.
- The engine's own error BIO was allocated.
- Type hashes are injective. An emitter callback does not emit, or `off`, the type being dispatched.
- InitEvent callbacks neither register InitEvent nor call `init` on the same handle, and nobody removes
  InitEvent listeners.
- A handle is initialised before it is used or closed, and `init` is called once on a loop. The SSL
  socket's `write` is given a callback; it and `disconnect` come after a connect that created the engine
  and an outbound buffer. `setParent` is called once, at the start, and the user leaves its listeners on
  the parent alone.
- Parent read events reach the SSL socket only once an engine exists, and the buffers a user gives it to
  read into are not empty.
- A parent write captures its bytes when it is submitted. Nothing is said about bytes still in flight.

## Where the code does less than its comments or callers may expect

Each is a theorem: a run at a concrete input on which the property fails, and the exact condition under
which the code meets it.

- A TLS write whose `SSL_write` fails hands the parent the uncleared window of the outbound buffer, bytes
  no engine produced: `wrap` returns before it flips, and `write` ignores its result (`StaleWrite`). The
  outbound account balances if and only if that has not happened with room in the buffer
  (`WriteConservesIff`, `ConservationIff`, `StaleOnlyFromFailedWrite`).
- `getHandshakeStatus` answers "finished" for a handshaked engine whatever is pending, so `tlsProcess`
  never flushes what the last handshake step or a later unwrap left in the BIO: a connect is announced
  with its engine's last flight unsent, until a write or a disconnect takes it along
  (`HandshakedLeavesBytes`, `SuccessBeforeFlush`). `tlsProcess` flushes pending bytes if and only if the
  engine is not handshaked (`FlushTakesCeilingWrites`, `RefusedFlush`).
- A TLS write of more than the outbound buffer holds hands over what fits, and on an established connection
  nothing sends the rest (`StrandedWrite`). In a quiet state with no flush in flight output is pending if
  and only if it was left behind, by such a write or a failed one, by a failed disconnect, or by a call of
  `tlsProcess` without room or on a handshaked engine, and has not been attended to since
  (`NoStrandedOutput`).
- A write that libuv refuses is reported, and its reference is never deleted (`RefusedWriteLeaks`).
  References match in-flight requests, and all are released after the close, if and only if no write was
  refused (`AllRefsMatchIff`, `TornDown`).
- `kHandshakeFailed` is never returned (`StatusNeverFails`): after a fatal handshake error, at the
  beginning or in an unwrap, the status asks to wrap or to unwrap, and nobody is told (`ErrorIsNotReported`,
  `UnwrapErrorIsNotReported`, `ErrorTellsNobody`, `SilentFailure`). So a TLS connect callback hears of an
  error only when the TCP connect failed (`ConnectOutcome`).
- The comment on `StreamSocket::connect` (unio/inc/jcu-unio/net/stream_socket.h:39-47) promises a
  SocketConnectEvent when the callback is null. The SSL socket emits nothing on success in that case: its
  stored callback is what `tlsProcess` tests (`SilentConnect`). Somebody has been told of a success if and
  only if the callback was not null (`NullConnectIsSilent`). The model follows the code.
- `cancelRead` after `read` and before the queued start leaves reading active with no buffer
  (`NullAllocReached`). Cancelling is safe if and only if no start is queued (`ReadyStep`).
- Registering InitEvent late holds the init mutex and wants the loop mutex; a drain holds the loop mutex
  and may run a task that wants the init mutex, such as the init that `create` itself queues. The two can
  wait for each other for ever (`CrossWaitReachable`), which is the only way for those inside to get stuck
  (`StuckIffCrossWait`). Creating a handle and registering from any thread does not risk it. Off-loop
  registration does if and only if, besides what initialises the handle, a further task taking the init
  mutex may be queued: an init by hand or a second queued one beside the first, or a queued registration
  (`CrossWaitIffPolicy`).

## Model

| member | source | states |
|---|---|---|
| Buffers.StoreThenFlip | unio/src/buffer.cc:69-77 | the clear, fill, flip idiom exposes exactly the bytes stored, and leaves the rest of the storage alone |
| Buffers.ExpandKeeps | unio/src/buffer.cc:83-90 | growth stops at the bound, never shrinks, and keeps bytes and cursors |
| Buffers.VectorBuffer.Expand | unio/src/buffer.cc:83-90 | the object grows to the larger of what it had and the bounded request |
| ReadPath.AllocOffersOldCapacity | unio/src/net/tcp_socket.cc:115-134 | libuv is offered the buffer as it was before growing; the growth serves the next allocation |
| ReadPath.GrowthClosedForm | unio/src/net/tcp_socket.cc:115-160 | over any run on one buffer the capacity is max(initial, min(bound, largest suggestion)) |
| ReadPath.OfferedLength | unio/src/net/tcp_socket.cc:124-133 | the n-th length offered is the closed form of the suggestions before it |
| ReadPath.ReadFidelity | unio/src/net/tcp_socket.cc:136-160 | over any run, what handlers can read is what libuv delivered, in order, whatever they do to the buffer |
| ReadPath.CycleLeaves | unio/src/net/tcp_socket.cc:136-160 | what one alloc and read cycle leaves: a buffer left in place is cleared, a new one is as the handler gave it, a failed read changes nothing but the growth |
| ReadPath.ReadingOfRun | unio/src/net/tcp_socket.cc:162-173 | over every run reading is on, and starts are queued, exactly as the calls of read and cancelRead and the starts that have run say |
| ReadPath.ReadyStep | unio/src/net/tcp_socket.cc:162-173 | exact condition under which cancelling leaves no allocation without a buffer: no start is queued |
| ReadPath.NullAllocReached | unio/src/net/tcp_socket.cc:162-173 | read, cancelRead and the start still queued leave libuv to allocate from a null buffer |
| ReadPath.NoNullAlloc | unio/src/net/tcp_socket.cc:115-134 | a run that cancels only then never allocates from a null buffer |
| ReadPath.TcpReader.AllocCallback | unio/src/net/tcp_socket.cc:115-134 | the callback on the buffer object is the modelled allocation, and offers its old capacity |
| ReadPath.TcpReader.ReadCallback | unio/src/net/tcp_socket.cc:136-160 | each of end, error and data has its one effect, and the buffer cleared afterwards is the one read into |
| LoopQueue.DrainIsLevelOrder | unio/src/loop.cc:30-37 | the worklist loop satisfies bfs(q) = q ++ bfs(children of q), and is the level-order traversal |
| LoopQueue.DrainRunsEveryTask | unio/src/loop.cc:30-37 | a drain runs as many tasks as the spawn forest has nodes |
| LoopQueue.DrainStep | unio/src/loop.cc:32-36 | each turn of the drain removes one node from the forest and keeps the order still to come |
| LoopQueue.LoopContext.AddQueuedTask | unio/src/loop.cc:39-46 | a submission goes to the back, and wakes the loop once it is initialised |
| LoopQueue.LoopContext.ProcessQueuedTask | unio/src/loop.cc:30-37 | the loop ends with an empty queue having run the level-order traversal of the forest, also past an uninit |
| LoopMachine.ReachableInv | unio/src/loop.cc:30-62 | in every interleaving: finished, running, queued tasks are the submissions in mutex order, and no wake-up is lost |
| LoopMachine.QuiescentWakeup | unio/src/loop.cc:39-62 | with the mutex free, queued work on an open loop has a wake-up on its way, pre-init submissions included |
| LoopMachine.ExecutedIsPrefix | unio/src/loop.cc:30-46 | each task runs at most once and never overtakes an earlier one |
| LoopMachine.DrainCompletes | unio/src/loop.cc:30-46 | the machine's drain, left to itself, ends with an empty queue after the level-order traversal; closed if one of its tasks called uninit, woken again if one of them submitted |
| LoopMachine.NoTaskStranded | unio/src/loop.cc:30-62 | from every reachable state of an open loop with the mutex free, the loop thread alone can run everything submitted |
| LoopMachine.SealedForever | unio/src/loop.cc:64-66 | once the async handle is closed and no drain is running, no task ever runs |
| LoopMachine.UninitCompleteness | unio/src/loop.cc:30-37 | after an uninit, the tasks that never run are exactly those submitted after the drain released the lock |
| LoopMachine.ClosingIff | unio/src/loop.cc:64-66 | the async handle is closed exactly by the runs that call uninit, from a task or from outside |
| LoopMachine.UninitReached | unio/src/loop.cc:30-66 | such a run: a task queued before init calls uninit, and a task submitted after the drain never runs |
| Emitters.WalkIsClosed | unio/inc/jcu-unio/emitter.h:72-83 | who is called: the listeners present, then exactly those that the called ones registered, in order |
| Emitters.DispatchStep | unio/inc/jcu-unio/emitter.h:74-81 | one turn of the dispatch loop keeps the lasting listeners behind it, loses nobody ahead of it, and makes progress |
| Emitters.Emitter.Emit | unio/inc/jcu-unio/emitter.h:123-133 | count, calls and the list left behind of a dispatch; other types only gain what callbacks registered |
| Emitters.Emitter.On | unio/inc/jcu-unio/emitter.h:135-139 | a lasting listener goes to the end of its type's list, the other lists unchanged |
| Emitters.Emitter.Once | unio/inc/jcu-unio/emitter.h:141-145 | the same for a once-listener |
| Emitters.Emitter.Off | unio/inc/jcu-unio/emitter.h:147-156 | the type is forgotten and no other |
| Emitters.Emitter.OffAll | unio/inc/jcu-unio/emitter.h:158-165 | erasing while iterating leaves nothing |
| Emitters.Emitter.GetEventCount | unio/inc/jcu-unio/emitter.h:167-176 | the length of the type's list, an absent type having none |
| EmitterLog.SameListener | unio/inc/jcu-unio/emitter.h:72-83 | the list iterator stands at the next live entry of the flat log |
| EmitterLog.StepAgrees | unio/inc/jcu-unio/emitter.h:72-165 | table and flat log can take the same steps and stay in agreement, at any nesting depth |
| EmitterLog.TableRefinesLog | unio/inc/jcu-unio/emitter.h:72-165 | every trace: same traces allowed, same calls in the same order, same counts, same listeners left |
| EmitterRuns.TurnRuns | unio/inc/jcu-unio/emitter.h:74-81 | one turn on the object is the machine's call, the callback's registrations and the return |
| EmitterRuns.EmitIsRun | unio/inc/jcu-unio/emitter.h:72-133 | what the object's `Emit` promises is what a dispatch of the table machine does, so the flat log's guarantees are the object's |
| EmitterRuns.OffIsRun | unio/inc/jcu-unio/emitter.h:147-165 | removing a type, or all, does to the machine's table what it does to the object's |
| InitProtocol.ExactlyOnePlace | unio/inc/jcu-unio/emitter.h:179-199 | in every interleaving a listener is in exactly one place, told at most once, all told the same status, the handle initialised once |
| InitProtocol.AllTold | unio/src/handle.cc:16-21 | once init has run and the loop has drained, everybody has been told |
| InitProtocol.ToldTheAnswer | unio/src/net/tcp_socket.cc:86-95 | every listener of every run, early or late, is told what `uv_tcp_init` answered, and that is what is stored for the late ones |
| InitProtocol.ListedAsAsked | unio/inc/jcu-unio/emitter.h:179-199 | over every run the listeners in the list are lasting or not as they were registered, and the dispatch leaves the lasting ones |
| InitProtocol.StepInv | unio/inc/jcu-unio/handle.h:47-52 | every action between mutex operations keeps the protocol's invariant |
| InitProtocol.StuckIffCrossWait | unio/inc/jcu-unio/emitter.h:179-188 | in a reachable state with a mutex held, whoever is inside can go on unless the two mutexes wait for each other, and then nobody can do anything |
| InitProtocol.HolderMoves | unio/src/loop.cc:30-46 | a thread that is inside always has an enabled step outside a cross wait |
| InitProtocol.CrossWaitIffPolicy | unio/src/net/tcp_socket.cc:259-266 | the deadlock is reachable under a policy exactly when it allows off-loop registration and, besides what initialises the handle, a further queued task that takes the init mutex; `create` alone does not |
| InitProtocol.DisciplineAvoidsCrossWait | unio/inc/jcu-unio/emitter.h:179-199 | a run that obeys a policy without that risk never reaches it, nor gets stuck |
| InitProtocol.OneInitRun | unio/src/net/tcp_socket.cc:259-266 | with the one init that `create` queues, none by hand and no queued registration, registering late from any thread never jams |
| InitProtocol.CrossWaitReachable | unio/src/net/tcp_socket.cc:259-266 | the deadlock is reachable with nothing but the init that `create` queues, an init by hand and a late listener |
| InitProtocol.DispatchRuns | unio/inc/jcu-unio/emitter.h:99-103 | the machine's dispatch, left to itself, tells every waiting listener in order and keeps the lasting ones, as the object's `Init` does |
| InitProtocol.InitRuns | unio/inc/jcu-unio/handle.h:47-52 | the machine's init, left to itself, leaves what the object's `Init` promises, for every answer of `uv_tcp_init` |
| InitProtocol.InitHandle.Register | unio/inc/jcu-unio/emitter.h:179-199 | early listeners wait in the list, late ones go to the loop, never both |
| InitProtocol.InitHandle.Init | unio/inc/jcu-unio/handle.h:47-52 | the first call tells every waiting listener the status in order and keeps the lasting ones; later calls tell nobody |
| TcpRequests.ExactlyOnce | unio/inc/jcu-unio/uv_helper.h:146-197 | a request is in flight or has had its one delivery, routed the same whether refused at once or completed later |
| TcpRequests.DeliveredAsReported | unio/inc/jcu-unio/uv_helper.h:146-197 | over every run callers are told exactly the refusals and completions libuv reported, request and status, in its order |
| TcpRequests.ConnectRefsMatch | unio/src/net/tcp_socket.cc:196-232 | the connect and shutdown references alive are those libuv or a running callback holds, and every other has been deleted exactly once |
| TcpRequests.NoDoubleDelete | unio/inc/jcu-unio/uv_helper.h:158-197 | no reference of any kind is deleted twice; one is deleted exactly when its request is over and is not a refused write |
| TcpRequests.AllRefsMatchIff | unio/src/net/tcp_socket.cc:182-194 | the same for every request, and everything is released after the close, exactly when no write was refused |
| TcpRequests.RefusedWriteLeaks | unio/src/net/tcp_socket.cc:182-194 | a run that ends closed with the reference of a refused write still allocated |
| TcpRequests.LiveOwner | unio/src/net/tcp_socket.cc:86-113 | the owner is set exactly while libuv owns the handle, so every stream, close and request callback finds one; initialised once, closed once |
| TcpRequests.OpenedIff | unio/src/net/tcp_socket.cc:86-95 | the handle comes to life exactly when the first and only `uv_tcp_init` succeeded |
| TcpRequests.ConnectedIff | unio/src/net/tcp_socket.cc:196-223 | over every run `isConnected` holds exactly when the last of a successful connect, a shutdown completing and a close is the connect |
| TcpRequests.ConnectedNeedsConnect | unio/src/net/tcp_socket.cc:196-205 | `isConnected` only after a connect libuv completed, and not just after a call of `close` |
| TcpRequests.NotConnectedOnceClosed | unio/src/net/tcp_socket.cc:107-113 | when connects cancelled by a close complete with an error, `isConnected` stays false from the close on |
| TcpRequests.TcpSocket.Init | unio/src/net/tcp_socket.cc:86-95 | the object takes an owner only if libuv initialised the handle, and only once |
| TcpRequests.TcpSocket.CreateRef | unio/inc/jcu-unio/uv_helper.h:180-197 | a refused connect or shutdown is deleted and reported once |
| TcpRequests.TcpSocket.ResetRef | unio/inc/jcu-unio/uv_helper.h:163-178 | a refused write is reported once, its reference staying allocated |
| TcpRequests.TcpSocket.RequestCallback | unio/src/net/tcp_socket.cc:175-223 | a completion has its effect on the connection, is delivered by its route, and then the reference is gone |
| TcpRequests.TcpSocket.Close | unio/src/net/tcp_socket.cc:107-113 | libuv is asked to close an open handle, and never a closing one |
| Engine.DrainConserves | unio/src/net/openssl_provider.cc:224-234 | a wrap moves the front of the outbound BIO into the window, as much as fits, and the rest stays queued in order |
| Engine.UnwrapConserves | unio/src/net/openssl_provider.cc:238-267 | one unwrap yields the next plaintext bytes; what each result code means about the record, the BIO and `SSL_read` |
| Engine.UnwrapShrinks | unio/src/net/openssl_provider.cc:252-265 | while a record lasts, "read more" means that it got shorter |
| Engine.UnwrapOutbound | unio/src/net/openssl_provider.cc:238-267 | an unwrap only adds to the outbound BIO, exactly what the engine produced |
| Engine.UnwrapFeeds | unio/src/net/openssl_provider.cc:238-246 | an unwrap feeds the BIO the front of its input, as much as `BIO_write` said, and uses that much of it up |
| Engine.UnwrapStoresErrors | unio/src/net/openssl_provider.cc:238-257 | exactly when an unwrap leaves an error stored: a fatal answer of the BIO, of the handshake step or of `SSL_read` |
| Engine.DoneAsAnswered | unio/src/net/openssl_provider.cc:247-251 | the handshake counts as finished exactly when OpenSSL's last answer said so |
| Engine.WrapReports | unio/src/net/openssl_provider.cc:215-236 | what `wrap` reports for every answer of `SSL_write`, and when it stores the error |
| Engine.FatalClasses | unio/src/net/openssl_provider.cc:97-129 | which error classes end the engine, by name |
| Engine.ShutdownOutcome | unio/src/net/openssl_provider.cc:269-276 | state and stored error after a shutdown, for every answer, its alert pending |
| Engine.UnwrapReachesHandshaked | unio/src/net/openssl_provider.cc:201-213 | exact condition under which an unwrap ends in the handshaked state |
| Engine.StatusNeverFails | unio/src/net/openssl_provider.cc:150-162 | in no state of the engine does the status say "failed"; in the error state it asks to wrap or to unwrap |
| Engine.ErrorIsNotReported | unio/src/net/openssl_provider.cc:172-213 | a fatal error of the first handshake step is stored, and the status hides it |
| Engine.UnwrapErrorIsNotReported | unio/src/net/openssl_provider.cc:247-251 | a fatal error of unwrap's handshake step is stored, hidden by the status, and unwrap itself says that all is well |
| Engine.OpenSslEngine.HandleError | unio/src/net/openssl_provider.cc:72-132 | the object's error state and flag: the named fatal classes set the state, only negative results are reported |
| Engine.OpenSslEngine.Wrap | unio/src/net/openssl_provider.cc:215-236 | the object's wrap is the modelled one, its failure path included, and advances the input by what was written |
| Engine.OpenSslEngine.Unwrap | unio/src/net/openssl_provider.cc:238-267 | the object's unwrap moves the input on by what the BIO took and hands out in its output window exactly what the modelled one does |
| Engine.OpenSslEngine.Shutdown | unio/src/net/openssl_provider.cc:269-276 | success exactly when `SSL_shutdown` was not negative, and only then the closing state |
| SslSocket.PumpConserves | unio/src/net/ssl_socket.cc:166-203 | `tlsProcess`, refused writes recursing, loses, repeats and reorders no outbound byte |
| SslSocket.FlushProgress | unio/src/net/ssl_socket.cc:171-182 | each call in NeedWrap strictly shrinks what is pending, by as many writes as it submits |
| SslSocket.FlushTakesCeilingWrites | unio/src/net/ssl_socket.cc:166-182 | n pending bytes and capacity c take exactly ceil(n/c) parent writes, whichever are refused, and all is handed over; a handshaked engine is not flushed, so pending bytes go exactly when it is not |
| SslSocket.HandshakedLeavesBytes | unio/src/net/ssl_socket.cc:185-192 | when an unwrap finishes the handshake, whatever flight it leaves, success is announced and nothing is handed over |
| SslSocket.CloseFollowsFlush | unio/src/net/ssl_socket.cc:193-195 | `tlsProcess` closes the parent only in the closing state with nothing pending |
| SslSocket.DisconnectActs | unio/src/net/ssl_socket.cc:217-227 | what a disconnect has done on return: reading is cancelled; a failed shutdown writes and closes nothing; a successful one has handed something over if anything is pending, alert included, and else closed the parent |
| SslSocket.OutboundCapacity | unio/src/net/ssl_socket.cc:172-175 | a missing outbound buffer is made with 8192 bytes, one that is there is cleared and keeps its size |
| SslSocket.DisconnectFlushesThenCloses | unio/src/net/ssl_socket.cc:217-227 | a successful disconnect hands over everything, close alert included, then closes the parent once and is stable |
| SslSocket.WriteConservesIff | unio/src/net/ssl_socket.cc:112-120 | the window a TLS write hands over is the engine's next output exactly when `SSL_write` did not fail or there was no room |
| SslSocket.DecryptPrefix | unio/src/net/ssl_socket.cc:83-95 | what the decrypt loop emits is a prefix of the decrypted stream, the rest being the rest of the record |
| SslSocket.DecryptDrains | unio/src/net/ssl_socket.cc:83-95 | the loop terminates, never with "read more" outstanding, and a last result of "read" means a drained record |
| SslSocket.LoopDrainsRecord | unio/src/net/ssl_socket.cc:83-95 | if the BIO takes the input, the handshake is or gets finished and `SSL_read` does not fail, the loop ends with the record drained unless the handler cancelled |
| SslSocket.TurnFeeds | unio/src/net/ssl_socket.cc:85-88 | one turn uses up exactly what the BIO took, so the next turn feeds only the rest |
| SslSocket.LoopFeeds | unio/src/net/ssl_socket.cc:83-95 | over the loop every byte of the event is fed once, in order, up to what the BIO would not take |
| SslSocket.SslSocketImpl.Flush | unio/src/net/ssl_socket.cc:171-182 | the object's round is the modelled one: buffer made if missing, one parent write of the window |
| SslSocket.SslSocketImpl.TlsProcess | unio/src/net/ssl_socket.cc:166-203 | the recursive object terminates and is the modelled `tlsProcess`, whichever writes the parent refuses |
| SslSocket.SslSocketImpl.CloseImpl | unio/src/net/ssl_socket.cc:241-250 | the first close cancels reading and closes the parent unless it came from there; later ones do nothing |
| SslSocket.SslSocketImpl.Disconnect | unio/src/net/ssl_socket.cc:217-227 | the object's disconnect is the one `DisconnectActs` is about, and reports whether the shutdown succeeded |
| SslSocket.SslSocketImpl.OnConnected | unio/src/net/ssl_socket.cc:139-155 | a fresh engine with the stored callback, its first flight flushed |
| SslSocket.SslSocketImpl.Write | unio/src/net/ssl_socket.cc:112-120 | exactly one parent write of the outbound window, whatever wrap returned |
| SslSocket.SslSocketImpl.OnParentRead | unio/src/net/ssl_socket.cc:77-95 | the do/while over real buffers terminates and computes the modelled decrypt loop |
| TlsStackPump.PumpIsRun | unio/src/net/ssl_socket.cc:166-203 | from a call of `tlsProcess` to its return the stack machine has a run that computes what the object's method does, synchronous refusals included |
| TlsStackAccount.OutboundConservation | unio/src/net/ssl_socket.cc:112-203 | in every reachable state: chunks handed over, windows of failed writes apart, then what is pending, are the engine's output in order; with those windows exactly when they held no bytes |
| TlsStackAccount.ConservationIff | unio/src/net/ssl_socket.cc:112-120 | over every run the account balances exactly when no write of the current engine failed in `SSL_write` with room in the buffer |
| TlsStackAccount.StaleOnlyFromFailedWrite | unio/src/net/openssl_provider.cc:217-223 | a step hands over stale bytes exactly when its `SSL_write` fails with room in the buffer |
| TlsStackAccount.StepAccount | unio/src/net/ssl_socket.cc:77-227 | every step of the stack keeps both byte accounts |
| TlsStackAccount.PlaintextPrefix | unio/src/net/ssl_socket.cc:83-95 | over every run the plaintext emitted is a prefix of the decrypted stream, even when handlers call back in |
| TlsStackAccount.CloseFollowsFlushOnRuns | unio/src/net/ssl_socket.cc:166-203 | whatever the interleaving, when `tlsProcess` closes the parent everything the engine produced, the close alert included, has been handed over in order, failed writes or not |
| TlsStackAccount.RefusedFlush | unio/inc/jcu-unio/uv_helper.h:163-178 | with every write refused, the synchronous recursion takes exactly ceil(n/c) writes, none if the engine is handshaked, and leaves nothing pending exactly when it is not |
| SslSocket.WritesIsCeiling | unio/src/net/ssl_socket.cc:166-182 | the number of rounds is the ceiling of the quotient |
| TlsStackDecrypt.LoopEndDrained | unio/src/net/ssl_socket.cc:83-95 | whatever handlers do between turns, the loop ends with the record drained unless the BIO refused, the handshake is unfinished, `SSL_read` failed, or the user had no buffer |
| TlsStackDecrypt.NoBufferMeansNone | unio/src/net/ssl_socket.cc:86-88 | the last of these is the user's doing: a turn that gets as far as reading lacks a buffer exactly when the user has none |
| TlsStackDecrypt.LoopTerminates | unio/src/net/ssl_socket.cc:85-95 | after its first turn the loop makes at most as many turns as the record has bytes, whatever handlers do between turns |
| TlsStackDecrypt.InboundConservation | unio/src/net/ssl_socket.cc:77-97 | in every reachable state the ciphertext fed, then the rest of the event, is what has arrived, exactly when no loop ended with bytes the BIO had not taken |
| TlsStackFlush.NoStrandedOutput | unio/src/net/ssl_socket.cc:166-203 | in every quiet state with no flush in flight, output is pending exactly when one of the four named steps left it and nothing has attended to it since |
| TlsStackFlush.ShutdownCloses | unio/src/net/ssl_socket.cc:217-227 | a disconnect ends in a close: in every quiet state with the engine shutting down, the socket is closing, a flush is in flight, or the last flush had no room |
| TlsStackFlush.DisconnectShutsDown | unio/src/net/ssl_socket.cc:217-220 | a disconnect whose `SSL_shutdown` does not fail starts a shutdown, the alert pending and a call of `tlsProcess` due |
| TlsStackFlush.StepDue | unio/src/net/ssl_socket.cc:166-182 | whatever user, libuv and library do, a call of `tlsProcess` that is due stays due until it happens |
| TlsStackTeardown.CloseOnce | unio/src/net/ssl_socket.cc:241-254 | over every run: parent closed at most once, uv_close at most once, each CloseEvent at most once, SSL's inside TCP's |
| TlsStackTeardown.TornDown | unio/src/net/tcp_socket.cc:97-105 | after the close callback both earlier listener tables are gone and no library reference leads back; none at all exactly when no write was refused |
| TlsStackTeardown.OwnerInCallbacks | unio/src/net/ssl_socket.cc:65-98 | every libuv callback into the stack finds the handle's owner set |
| TlsStackTeardown.StepTeardown | unio/src/net/ssl_socket.cc:241-254 | every step keeps the closing order and the listener tables consistent |
| TlsStackTeardown.ParentStep | unio/src/net/ssl_socket.cc:112-254 | every step of the stack is, for its parent, nothing or one of the parent's own enabled steps |
| TlsStackTeardown.StackRefinesParent | unio/src/net/ssl_socket.cc:112-254 | under every run of the stack the TCP socket goes through one of its own runs, so all that is proved of those holds |
| TlsStackTeardown.StepRequests | unio/src/net/tcp_socket.cc:175-232 | every step of the stack keeps the parent's request, reference and owner invariant |
| TlsStackOutcome.ConnectOutcome | unio/src/net/ssl_socket.cc:122-156 | a connect callback is called at most once; success needs its engine handshaked, an error a failed TCP connect; a null callback is never called |
| TlsStackTold.NullConnectIsSilent | unio/src/net/ssl_socket.cc:185-192 | once the handshake is found finished, somebody has been told of the connect exactly when it was made with a callback |
| TlsStackTold.FailureToldIff | unio/src/net/ssl_socket.cc:139-143 | a connect callback is told of an error exactly when there is one and libuv reported that the TCP connect failed |
| TlsStackTold.StepRemembers | unio/src/net/ssl_socket.cc:145-192 | every step keeps the current connect's callback stored until it has been called, and forgets only what has been called |
| TlsStackSettings.SettingsOfRun | unio/src/net/ssl_socket.cc:104-110 | over every run the read buffer is that of the last read not cancelled, disconnected or closed since; closing, handshaked and the listeners are as the calls say |
| TlsStackSettings.OutboundSizeOfRun | unio/src/net/ssl_socket.cc:100-175 | over every run writes and flushes go through a buffer of the size the user last set, else of the 8192 bytes the first flush makes |
| TlsStackSettings.ReadErrorCloses | unio/src/net/ssl_socket.cc:78-82 | after a read event with an error the socket is closing once the loop is quiet |
| TlsStackSettings.DisconnectsAnswered | unio/src/net/ssl_socket.cc:205-227 | every call of disconnect is answered once, success or failure, by the time its caller is done |
| TlsStackSettings.UserCalledBy | unio/src/net/ssl_socket.cc:77-156 | which completions and turns of the decrypt loop call user code, and which do not |
| TlsStackSettings.UserCalledBack | unio/src/net/ssl_socket.cc:112-227 | which of the user's own calls come back to user code before they return: refused requests and failed disconnects |
| TlsStackOutcome.ErrorTellsNobody | unio/src/net/ssl_socket.cc:166-203 | a step that leaves the engine in the error state calls no connect callback, failing TCP connects apart |
| TlsStackOutcome.ShakenByItsEngine | unio/src/net/openssl_provider.cc:201-213 | a connect counts as handshaked only through its own engine |
| TlsStackOutcome.StepInv | unio/src/net/ssl_socket.cc:185-192 | a callback that re-enters `tlsProcess` before it is cleared is still called only once |
| TlsStackOutcome.EngineThere | unio/src/net/ssl_socket.cc:166-170 | `tlsProcess` never runs without an engine |
| TlsStackWitness.StaleWrite | unio/src/net/ssl_socket.cc:112-120 | a run in which an `SSL_write` before the end of the handshake fails and the parent sends four bytes no engine produced |
| TlsStackWitness.SilentConnect | unio/src/net/ssl_socket.cc:185-192 | a run in which a connect without a callback goes through its handshake, succeeds, and nobody is told |
| TlsStackWitness.SuccessBeforeFlush | unio/src/net/openssl_provider.cc:150-162 | a run in which an unwrap ends the handshake, success is announced, the last flight is pending, and nothing is in flight |
| TlsStackWitness.SilentFailure | unio/src/net/ssl_socket.cc:196-201 | a run in which the handshake fails for good and the stored callback is not called |
| TlsStackWitness.StrandedWrite | unio/src/net/ssl_socket.cc:112-120 | a run in which a write on an established connection, through a buffer too small for it, leaves output with no flush in flight |
| TlsStackWitness.ClosedDown | unio/src/net/ssl_socket.cc:241-254 | a run of close to its end, both CloseEvents emitted |

## Left out

- libuv and OpenSSL internals, cryptography, the record format, `tls1Prf`: environment choices under the premises above.
- Timer: it repeats the TCP handle's init and close.
- `listen`, `accept`, `bind` and the listen callback's body: wrappers. Their callback counts as a stream callback for the owner property.
- The logger, error texts and names, address and hostname parameters, the loop implementations, event value classes.
- C++ typing (`typeid`, `dynamic_cast`): event types are numbers.
- Delivery of bytes after they are handed to a parent write, and overlapping writes of the shared outbound buffer: the code does not promise it.
- Delivery of everything when several records arrive at once: the decrypt loop stops at the end of a record, and the code does not promise more.
- TlsStack.Step: the re-entrant stack is a machine on values with an explicit stack of pending calls, not classes, because Dafny's methods cannot be suspended in a user callback; the classes of `SslSocket.dfy`, `Engine.dfy` and `TcpRequests.dfy` cover the in-place updates of single calls.
- SslSocket.SslSocketImpl.TlsProcess: the connect callback it calls is recorded, not run; TlsStack runs it.
- TlsStack.Enabled: the user does not make raw requests or reads on the parent, nor removes the SSL socket's listeners there; an SSL write without a callback is not modelled. The TCP socket emits ErrorEvent for a failed read, so a read event with an error comes only from other parents; both are covered.
- TlsStackTeardown.TornDown: references held by tasks still on the loop's queue (a queued read start or late InitEvent callbacks) are not counted.
- SslSocket.SslSocketImpl.OnConnected: the hostname handed to the engine and the buffer and read started on the parent are not represented; the parent's read events are steps of TlsStack.
- TlsStackDecrypt.InboundConservation: which bytes are lost is not said, only that some are; the code drops what the BIO did not take when the loop ends.
- TlsStackFlush.ShutdownCloses: one way only; the socket may also be closing for other reasons.
- TcpRequests.TcpSocket.Close: the buffer it drops by `cancelRead` is in ReadPath, not in this state.
- ReadPath.TcpReader.Read: the start it queues is a step of the ReadPath machine, not a field of the object.
- Emitters.Emitter.Emit: callbacks of the object register listeners; emitting other types and removing them from a callback is in EmitterLog.
- InitProtocol.InitHandle.Init: one critical section of one thread; the interleavings are the machine's.
- InitProtocol.ExactlyOnePlace: `off` and `offAll` of InitEvent listeners are excluded.
