# A model of the ADB host: transports, listeners, file sync, installs

The Dafny files in this directory model the stateful parts of the ADB port under `porting/adb` and prove properties of
that model. `dafny verify dfyconfig.toml` checks all of it.

## What is modelled

**Transports** (`TransportLifecycle`, `ReconnectHistory`, `PacketLifetime`, `TransportServer`). A socket transport is
registered in the pending list, moves to the transport list on the looper, loses its connection, waits in the
reconnect queue, is tried again, and is registered again or deleted. `TransportLifecycle` is a state machine whose
steps are the regions under one lock and the closures of the looper; a run is any interleaving of API callers,
connection threads, the reconnect thread and the looper, with time as an integer. `ReconnectHistory` adds the history
of the reconnect handler and holds the main results: what is tracked, retried and removed in every run.
`PacketLifetime` puts the closures for received packets into the same run queue, with the read threads, the TLS
handshakes that restart them and the stages of `Stop`, and shows that no packet is ever handled on a deleted
transport, lost or overtaken. In `TransportServer` the same steps are methods of a class over the C++ globals, each
proved to be the step of the state machine. Every allocation of a transport is a new identity.

**The connection adapter** (`ConnectionAdapter`, `PeerStream`). The write thread, the read threads (a TLS handshake
starts a second one), and any number of `Stop` and `Reset` calls interleave around one mutex and one once-flag.
`StopJoinsEveryThread` states exactly when `read_thread_` still owns a thread that nobody joins at the end of `Stop`:
when a handshake ended after `Stop` had moved the thread objects out. `EarlyHandshakesAreJoined` excludes it if no
handshake begins once `stopped_` is set, and `LateHandshakeOutlivesStop` is a run in which one does. That thread can
read nothing any more, because the handshake began on a closed connection (`LateHandshakesReadNothing`). Every failure
is reported before its thread has ended, and no join of `Stop` is ever stuck (`StopCanFinish`). `PeerStream` joins the
adapter to the packet framing of `PacketStream`: the peer parses a prefix of the packets enqueued, wherever the stream
is cut.

**Listeners** (`Listeners`). The table of listeners and the disconnect lists of the transports point at each other;
every operation, including the callbacks that erase listeners while a disconnect list is walked, keeps them in
agreement. `install_listener` is proved against a function on the rows of the table.

**File sync** (`SyncAcks`, `SyncResponses`, `SyncTransfer`, `SyncPush`, `RemoteTree`, `RemoteRoutes`, `RemoteList`,
`SyncPull`, `MkdirBatches`). The socket is a sequence of bytes that arrives in arbitrary pieces.
`ReadAcknowledgements` is proved to compute the parse of the whole stream however it is cut, and `SyncResponses` ties
that parse to what the daemon writes, byte by byte; DATA/DONE framing round-trips in both directions; a push with
timestamp checks sends exactly the files whose stat reply differs; every push keeps at most 128 files outstanding and
balances two ledgers, and it is stated exactly when it reads a stat reply for another path or before an
acknowledgement: never as long as no step has failed. A remote directory is a finite tree of path components.
`RemoteRoutes` says which places of it can be reached, without reference to the list: the list holds one entry for
each of them, every directory before its contents, and a pull receives exactly the reachable ordinary files.

**Texts** (`Banner`, `StdinEscape`, `MultiInstall`, `PacketStream`, `Bytes`). The connection banner, the escape
sequences of standard input, the decimal session number in a status line, and the packet header are each a printer and
a parser with a round trip, and the condition under which it holds is exact.

**Multi-package install** (`MultiInstall`). The transaction runs against a device whose reply to the n-th command is
an arbitrary function of n, and against files that may fail to be examined, opened or copied. The main results speak
about the commands sent, by position: what was written before a commit, and what is abandoned without one.

**The event context** (`Fdevent`). The map and the set of installed events, the poll duration, the run queue, and what
handlers and closures do to them: they open and close descriptors and queue further closures.

## Conventions and assumptions

- `transport.h`, `adb.h`, `file_sync_protocol.h`, `sockets.cpp`, `transport_local.cpp`, `adb_utils.cpp` and the
  android-base library are not part of this model. Constants that only they define (`MAX_PAYLOAD` of 1 MiB,
  `SYNC_DATA_MAX` of 64 KiB, message ids, the version that skips checksums) are taken from the protocol by name;
  `Split`, `Join` and `strtol` follow their documented behaviour.
- Words are little-endian on the wire, as on every host the port builds for.
- Identifiers of new objects, listener ports that the system chooses and session numbers come from outside. A resolved
  port is not in use by another listener, and a listener that is not a smart socket has a transport.
- Stat replies and acknowledgements share one socket. The model keeps them apart, as a sequence of replies and a
  stream of bytes, and records in `crossed` when a stat reply is read where an acknowledgement is due or for another
  path. That `ReadAcknowledgements` may meet an unread stat reply is not recorded.
- `transport_destroy` and every other caller of `Stop` outside the looper hold `transport_lock` for the whole call, so
  `transport_destroy` goes on when no other `Stop` is under way (`PacketLifetime`). The first read of a thread that a
  handshake on a closed descriptor starts fails.
- Safety, and of `Stop` that it can finish. `ReconnectHandler::Run` waits without a predicate
  (porting/adb/transport.cpp:217), so nothing is claimed about when a thread gets to run.

## Where the code differs from what one might expect

- `TrackTransport` forgets a transport when the handler is not running: `State.dropped`, bounded by `NothingIsLost`.
- `remove_listener` ignores its transport argument: it removes the first listener of that name.
- `SendSmallFile` sends a file of any size in one DATA frame; beyond 64 KiB a receiver gives up. `SmallFileRoundTrip`
  gives the exact bound.
- After a failed step `do_sync_push` goes on to the next argument, and a stat reply can then be read for another path
  than the one it answers: when acknowledgements are outstanding, or when the check of an earlier directory stopped at
  a path that is too long and left replies unread. `DoSyncPush` says exactly when (`SomeCross`): the second part
  follows from the arguments alone, the first from the record of the acknowledgements at each turn; `CrossedPush` is
  such a push.
- A transport that is already offline, as after the default branch of A_AUTH, keeps its listeners (`HandleOffline`,
  `RefuseAuth`).
- A colon in a product text hides the features that a device announces: the parser stops before them
  (`ColonHidesFeatures`, `ColonWitness`). Other separators in it do no harm to the features.
- `remote_build_list` gives a directory's own entry the last component of the local path in its remote path (`Own`);
  nothing reads that path.
- An escape byte that ends a line breaks the escape round trip (`EscapeRoundTrip`, `EscapeFails`). An escape at the
  end of the input is swallowed.
- The feature list of one empty name is written like the empty list (`FeaturesRoundTrip`).
- If the finalising command of a multi-package install cannot be sent, nothing is abandoned (`Transaction`).
- `HandleEvents` calls at most one handler and leaves the other events to the next poll.

## Model

| member | source | states |
|---|---|---|
| ReconnectHistory.ListsAreConsistent | porting/adb/transport.cpp:742-785 | in every reachable state the pending and transport lists are duplicate-free and disjoint, hold exactly the allocated transports, and no two of these share a serial |
| ReconnectHistory.NothingIsUsedAfterDeletion | porting/adb/transport.cpp:742-785 | nothing is deleted twice; no list, no queue entry, neither the reconnect thread nor a closure that registers, fails or removes a transport holds a deleted one; what is queued or in flight for reconnection is in the transport list with a dead connection |
| PacketLifetime.PacketsPrecedeDeletion | porting/adb/transport.cpp:1144-1166 | in every run, every closure for a received packet stands before the one that deletes its transport, a transport that is read from is allocated, and no packet is handled on a deleted one |
| PacketLifetime.LateHandshakesReadNothing | porting/adb/transport.cpp:371-436 | a handshake that ends after Stop has moved the thread objects out starts no thread that can read, and after the join no thread reads |
| PacketLifetime.PacketsAreConserved | porting/adb/transport.cpp:1144-1158 | in every run the packets that HandleRead accepted are those handled followed by those in the run queue, in order: none is lost and none overtakes another |
| PacketLifetime.PlayIsSound | porting/adb/transport.cpp:371-436 | the invariant of adapters, read threads and run queue holds after every interleaving |
| PacketLifetime.ProjectsToLifecycle | porting/adb/transport.cpp:742-860 | leaving out the packets gives a run of the lifecycle |
| ReconnectHistory.NothingIsLost | porting/adb/transport.cpp:186-197 | each allocated transport is in exactly one hand; only a stopped handler drops one |
| ReconnectHistory.TrackingIsConserved | porting/adb/transport.cpp:165-277 | accepted tracks equal readmissions plus removals plus queued plus in flight; at most one removal, at most 21 attempts per track, none before its deadline |
| ReconnectHistory.TheEarliestIsTried | porting/adb/transport.cpp:203-245 | the attempt taken is due, not kicked, and has the least deadline in the queue |
| ReconnectHistory.StopIsFinal | porting/adb/transport.cpp:165-184 | once stopped and drained, with no attempt in flight, nothing is queued or tried again in any continuation, whether or not the thread was ever started |
| ReconnectHistory.DrainStops | porting/adb/transport.cpp:165-184 | from every reachable state after the join, or with no thread to join, draining hands all queued transports to remove_transport and leaves the handler halted |
| ReconnectHistory.RunHistory | porting/adb/transport.cpp:165-277 | the conservation, budget, order and uniqueness invariants hold after every run |
| ReconnectHistory.OnlyTcpIsTracked | porting/adb/transport.cpp:839-860 | over every run: a step starts tracking a transport, or drops it, exactly when it is the closure that fails it and it is a TCP transport that was not kicked |
| ReconnectHistory.LostTcpIsQueued | porting/adb/transport.cpp:845-853 | when such a transport fails and the handler runs, one attempt is queued for it, due in 250 ms with 20 left after it, and nothing is added to the looper |
| ReconnectHistory.OtherLostIsRemoved | porting/adb/transport.cpp:839-860 | every other transport that fails is removed: its removal is queued at once, and in every continuation it is still queued or done, and the transport is never tracked again |
| TransportLifecycle.NextKeeps | porting/adb/transport.cpp:742-860 | each step of any thread keeps the per-transport invariant and uses no deleted transport |
| TransportLifecycle.RunKeeps | porting/adb/transport.cpp:742-860 | the invariant holds after every interleaving of steps |
| TransportServer.Server.ValidateTransportList | porting/adb/transport.cpp:1484-1497 | true exactly when no transport of the list has the serial |
| TransportServer.Server.RegisterSocketTransport | porting/adb/transport.cpp:1499-1523 | succeeds exactly when no allocated transport has the serial, and then puts the new transport, idle and not kicked, at the front of the pending list and changes nothing else |
| TransportServer.Server.RegisterTransport | porting/adb/transport.cpp:829-832 | queues the registration closure behind the others; the transports stay as they are |
| TransportServer.Server.HandleError | porting/adb/transport.cpp:1160-1166 | the connection is dead and the closure that destroys the transport is queued behind the others |
| TransportServer.Server.KickTransport | porting/adb/transport.cpp:585-605 | kicks the transport if it is in the transport list, and no other |
| TransportServer.Server.Emplace | porting/adb/transport.cpp:186-197 | inserts into the queue ordered by deadline and address |
| TransportServer.Server.TrackTransport | porting/adb/transport.cpp:186-197 | when running, one attempt is queued, due in 250 ms with 20 left after it; otherwise the transport is dropped |
| TransportServer.Server.TransportDestroy | porting/adb/transport.cpp:839-860 | a TCP transport that was not kicked is queued for reconnection, due in 250 ms with 20 attempts left, and nothing is added to the looper; for every other one the removal is queued and the attempts stay as they are |
| TransportServer.Server.MoveToTransportList | porting/adb/transport.cpp:755-785 | a started transport moves from the pending to the front of the transport list if it is still pending |
| TransportServer.Server.RunOnce | porting/adb/transport.cpp:203-245 | one pass of the reconnect thread: the removals of exactly the kicked transports are queued; if an attempt is left that is due, the earliest is taken |
| TransportServer.Server.Reconnected | porting/adb/transport.cpp:246-277 | success: the transport is idle and its registration is queued; a retry with attempts left: queued again, due in 3 s with one attempt less; otherwise its removal is queued |
| TransportServer.Server.DrainQueue | porting/adb/transport.cpp:165-184 | the removal of every queued transport is queued, in order, and the queue is empty |
| TransportServer.Server.FlushOne | porting/adb/fdevent/fdevent.cpp:167-182 | the looper takes the oldest closure and performs it as one step: what it registers, reconnects, removes or deletes is stated for each kind |
| ConnectionAdapter.PacketsStayInOrder | porting/adb/transport.cpp:307-446 | in every interleaving: enqueued packets equal dequeued ones followed by the queue; those handed to the connection are a prefix with at most one in flight; none follows a failed write |
| ConnectionAdapter.NothingIsTakenAfterStop | porting/adb/transport.cpp:400-436 | once stopped_ is set no step of any thread dequeues a packet |
| ConnectionAdapter.ErrorIsReportedOnce | porting/adb/transport.cpp:307-436 | HandleError fires at most once, has fired when the stopping Stop returns, and at most one call passes the check |
| ConnectionAdapter.WriteFailureIsReported | porting/adb/transport.cpp:313-337 | a failed write is the last: in every continuation nothing else is dequeued or handed over, and once the write thread has ended the error has been reported |
| ConnectionAdapter.WrittenPacket | porting/adb/transport.cpp:313-335 | a write that works hands over the packet taken, and the thread waits for the next one |
| ConnectionAdapter.ReadFailureIsReported | porting/adb/transport.cpp:342-369 | in every continuation of a failed read, the error has been reported once that read thread has ended; a thread that ends for a TLS handshake reports nothing |
| ConnectionAdapter.HandshakeRestartsReading | porting/adb/transport.cpp:371-379 | a handshake whose read thread has ended starts one more, which read_thread_ owns; without a stop all others have ended |
| ConnectionAdapter.StopCanFinish | porting/adb/transport.cpp:400-436 | from every reachable state without a handshake under way, steps of the stopping caller and of the two threads that it joins lead to the end of Stop: no join is stuck |
| ConnectionAdapter.StopLeavesQuiet | porting/adb/transport.cpp:400-436 | when Stop returns the write thread has ended and so has every read thread, except one that a late handshake started |
| ConnectionAdapter.QuietIsForever | porting/adb/transport.cpp:400-446 | after that no packet is handed over and no error is reported in any continuation |
| ConnectionAdapter.StopJoinsEveryThread | porting/adb/transport.cpp:371-436 | when Stop returns, read_thread_ owns an unjoined thread exactly when a handshake ended after Stop had moved the thread objects out; otherwise all read threads have ended |
| ConnectionAdapter.EarlyHandshakesAreJoined | porting/adb/transport.cpp:371-436 | that does not happen if no handshake begins once stopped_ is set |
| ConnectionAdapter.LateMeans | porting/adb/transport.cpp:371-436 | the history bit of the model is set exactly by a handshake that ends after the move |
| ConnectionAdapter.LateHandshakeOutlivesStop | porting/adb/transport.cpp:371-436 | one run from the start in which Stop returns while a read thread that a late handshake started is still reading |
| ConnectionAdapter.NextKeeps | porting/adb/transport.cpp:307-446 | every step keeps the invariant of the adapter |
| ConnectionAdapter.BlockingConnectionAdapter.Start | porting/adb/transport.cpp:307-340 | both threads run and read_thread_ owns the new read thread (a second call is fatal in the code) |
| ConnectionAdapter.BlockingConnectionAdapter.Write | porting/adb/transport.cpp:438-446 | appends to the queue and nothing else |
| ConnectionAdapter.BlockingConnectionAdapter.TakeNext | porting/adb/transport.cpp:313-335 | takes the oldest packet, or ends the write thread if stopped |
| ConnectionAdapter.BlockingConnectionAdapter.CheckReset | porting/adb/transport.cpp:381-398 | proceeds to Stop exactly when started and not stopped |
| ConnectionAdapter.BlockingConnectionAdapter.CheckStop | porting/adb/transport.cpp:400-414 | only the first call after the start proceeds, and it sets stopped_ |
| ConnectionAdapter.BlockingConnectionAdapter.MoveThreads | porting/adb/transport.cpp:422-429 | both thread objects exist and are moved out; the caller joins these |
| ConnectionAdapter.BlockingConnectionAdapter.ReportStop | porting/adb/transport.cpp:431-436 | reports unless an error was reported before |
| PeerStream.PeerReceivesAPrefix | porting/adb/transport.cpp:307-511 | from any cut of the bytes written in any interleaving the peer reads a prefix of the packets enqueued, and all that were handed over exactly when no byte is missing |
| PacketStream.HeaderRoundTrip | porting/adb/transport.cpp:476-511 | a header is read back from its 24 bytes |
| PacketStream.HeaderUnique | porting/adb/transport.cpp:476-511 | every 24 bytes are the encoding of the header read from them |
| PacketStream.HeaderLayout | porting/adb/transport.cpp:476-511 | the six words of the header lie in the order command, arguments, length, checksum, magic |
| PacketStream.FdConnection.Write | porting/adb/transport.cpp:497-511 | appends exactly the header and as much of the payload as it says, or a prefix of them on failure |
| PacketStream.FdConnection.Read | porting/adb/transport.cpp:476-495 | a packet is returned exactly when the header, a length of at most 1 MiB and the whole payload are there; header, payload and what is left make up the input |
| PacketStream.ReadAfterWrite | porting/adb/transport.cpp:476-511 | a well-formed packet is read back unchanged, with whatever follows it left over |
| PacketStream.ReadIsUnique | porting/adb/transport.cpp:476-511 | a packet that was read is well-formed and its encoding is what was consumed |
| PacketStream.ReadTruncated | porting/adb/transport.cpp:476-495 | no packet is read from a proper prefix of one |
| PacketStream.WholeStreamRoundTrip | porting/adb/transport.cpp:476-511 | any sequence of well-formed packets is read back from its bytes |
| PacketStream.StreamRoundTrip | porting/adb/transport.cpp:476-511 | from the first n bytes exactly the packets that lie completely within them are read |
| PacketStream.Checksum | porting/adb/client/adb.cpp:111-117 | the sum of the payload bytes modulo 2^32, which within the payload limit does not wrap |
| PacketStream.SumOfAll | porting/adb/client/adb.cpp:111-117 | each byte adds its value, whatever the order |
| PacketStream.SendPacket | porting/adb/transport.cpp:564-583 | fills in magic, the complement of the command, and checksum, and nothing else; check_header accepts the packet exactly when its data length is within the maximum |
| PacketStream.DamageIsRefused | porting/adb/transport.cpp:1690-1705 | a packet whose command or magic alone was changed is refused; a changed length is refused exactly beyond the maximum |
| Listeners.ListenerTable.Install | porting/adb/adb_listeners.cpp:190-259 | a name in use: the smart socket is an error, without rebinding nothing changes, else only that row gets the new target and transport; a new name adds a row if the socket can be bound; names stay unique and both structures agree |
| Listeners.ListenerTable.Rebind | porting/adb/adb_listeners.cpp:195-218 | the listener moves from the old transport's disconnect list to the end of the new one; all others are unchanged |
| Listeners.ListenerTable.Bind | porting/adb/adb_listeners.cpp:221-259 | a new row under the given or the resolved name, or none if the socket cannot be bound |
| Listeners.ListenerTable.Erase | porting/adb/adb_listeners.cpp:64-71 | the destructor unlinks exactly the erased listener |
| Listeners.ListenerTable.RemoveListener | porting/adb/adb_listeners.cpp:146-156 | found exactly when a listener has that name; only that one goes |
| Listeners.ListenerTable.RemoveAllListeners | porting/adb/adb_listeners.cpp:158-170 | exactly the listeners that connect to a name with a star at its head stay, in order; the disconnect lists lose the others |
| Listeners.ListenerTable.CloseSmartSockets | porting/adb/adb_listeners.cpp:181-188 | exactly the smart sockets go, the rest stays in order |
| Listeners.OnlySplit | porting/adb/adb_listeners.cpp:181-188 | what a removal keeps stays at its place, member by member |
| Listeners.ListenerTable.Disconnected | porting/adb/adb_listeners.cpp:117-127 | the callback erases its own listener and no other |
| Listeners.ListenerTable.RunDisconnects | porting/adb/transport.cpp:1269-1282 | no listener refers to the transport afterwards; all others are unchanged and in order |
| Listeners.ListenerTable.HandleOffline | porting/adb/client/adb.cpp:174-196 | no listener refers to the transport afterwards exactly when it was not offline before or none did |
| Listeners.ListenerTable.RefuseAuth | porting/adb/client/adb.cpp:466-469 | the default branch of A_AUTH leaves every listener linked |
| SyncAcks.ParseResumes | porting/adb/client/file_sync_client.cpp:811-897 | the parse of a stream is that of its first part followed by that of the left-over bytes with the second part |
| SyncAcks.ChunkIndependent | porting/adb/client/file_sync_client.cpp:811-897 | two connections that sent the same files and consumed the same bytes agree on answers, outstanding files and buffer, however the bytes were cut |
| SyncAcks.OldestIsAnswered | porting/adb/client/file_sync_client.cpp:803-897 | the i-th settling response belongs to the i-th file sent, the outstanding files are the others, and the buffer holds no complete response |
| SyncAcks.RestIsIncomplete | porting/adb/client/file_sync_client.cpp:811-897 | what is left over never begins with a complete response |
| SyncResponses.FirstFrameMeans | porting/adb/client/file_sync_client.cpp:821-878 | a stream begins with a response exactly when its bytes spell it: OKAY and a zero, OKAY and a length, or FAIL, a length of at most 65536 and the message |
| SyncResponses.RejectedMeans | porting/adb/client/file_sync_client.cpp:821-878 | a stream is given up exactly when eight bytes are there and nothing that may follow makes it begin with a response |
| SyncResponses.ResponsesRoundTrip | porting/adb/client/file_sync_client.cpp:811-897 | whatever responses the daemon writes are read back in order, and what follows is left |
| SyncResponses.ResponsesWereSpelled | porting/adb/client/file_sync_client.cpp:811-897 | conversely every stream is what the daemon writes for the responses read from it, followed by what is left |
| SyncResponses.AnswersAreTheDaemons | porting/adb/client/file_sync_client.cpp:803-897 | if the daemon wrote these responses and the beginning of another, the i-th oldest file was settled by the i-th response, the others are outstanding, and that beginning is in the buffer |
| SyncAcks.SyncConnection.ReadUntil | porting/adb/client/file_sync_client.cpp:830-853 | fills the buffer to the amount and not beyond, or says why not; only a call that may not block is put off |
| SyncAcks.SyncConnection.RecordFileSent | porting/adb/client/file_sync_client.cpp:313-316 | the file joins the end of the outstanding ones (the count of files is kept by Record) |
| SyncAcks.SyncConnection.CopyDone | porting/adb/client/file_sync_client.cpp:803-809 | the oldest outstanding file is the one that is settled, and the buffer is emptied |
| SyncAcks.SyncConnection.ReadResponse | porting/adb/client/file_sync_client.cpp:821-878 | a response is returned exactly when the buffer holds it completely and nothing beyond it |
| SyncAcks.SyncConnection.ReadAcknowledgements | porting/adb/client/file_sync_client.cpp:811-897 | on success every response read was an OKAY that settled one file, fewer than 128 are left, and none with read_all; a failure has one of four named reasons, found in this call |
| SyncTransfer.FramesRoundTrip | porting/adb/client/file_sync_client.cpp:767-788 | DATA and DONE frames of any chunks of at most SYNC_DATA_MAX bytes parse back to the content with nothing left over |
| SyncTransfer.TimeRoundTrip | porting/adb/client/file_sync_client.cpp:767-788 | the chunks and the time in the closing frame are read back too |
| SyncTransfer.FrameBytes | porting/adb/client/file_sync_client.cpp:767-788 | the letters DATA, DONE and SEND stand before their words, low byte first, and the data follows |
| SyncTransfer.ReceivedWasFramed | porting/adb/client/file_sync_client.cpp:1119-1156 | every input that is received is the framing of what was received, followed by what is left |
| SyncTransfer.SmallFileRoundTrip | porting/adb/client/file_sync_client.cpp:582-626 | the DATA and DONE parts of a small file are received as its content exactly up to 65536 bytes |
| SyncTransfer.SendLargeFileLegacy | porting/adb/client/file_sync_client.cpp:741-789 | writes the frames of the file's content as it is read |
| SyncTransfer.SendSmallFile | porting/adb/client/file_sync_client.cpp:582-626 | refused exactly for a name of more than 1024 bytes; else the buffer is filled exactly to its end with request, name, data and closing frame |
| SyncTransfer.Download.ReceiveFile | porting/adb/client/file_sync_client.cpp:1119-1156 | receives exactly what the parse of the input says and leaves what follows |
| SyncPush.SyncSession.Record | porting/adb/client/file_sync_client.cpp:308-326 | both ledgers grow alike, so the global one stays the sum of all transfers |
| SyncPush.SyncSession.NewTransfer | porting/adb/client/file_sync_client.cpp:304-306 | resets the current ledger and keeps the sum |
| SyncPush.SyncSession.FinishStat | porting/adb/client/file_sync_client.cpp:476-529 | the next reply; records whether it was read for another path or before an acknowledgement |
| SyncPush.SyncSession.SendLstat | porting/adb/client/file_sync_client.cpp:343-358 | the request is sent exactly when the path has at most 1024 bytes and the connection takes it |
| SyncPush.SyncSession.SyncSend | porting/adb/client/file_sync_client.cpp:1054-1105 | the file is left out exactly when checking, its path can be asked for and the next reply is a Stat with its time; otherwise it is sent; states exactly when the reply is crossed |
| SyncPush.SyncSession.CheckTimestamps | porting/adb/client/file_sync_client.cpp:1415-1433 | succeeds exactly when every path has at most 1024 bytes and the connection takes all requests; item i is then skipped exactly when it is special or reply number i of the check is a Stat of its own size and time; states exactly when a reply is crossed |
| SyncPush.SyncSession.SendItems | porting/adb/client/file_sync_client.cpp:1435-1449 | the files not skipped are sent in order; sent plus skipped is the length of the list |
| SyncPush.SyncSession.CopyLocalDirRemote | porting/adb/client/file_sync_client.cpp:1354-1455 | on success the items sent, in order, are all but the special ones and, with a check, those whose reply is a Stat of their own size and time; transferred plus skipped is the length of the list; nothing is outstanding as long as no step failed; states exactly when a reply is crossed |
| SyncPush.SyncSession.PushSource | porting/adb/client/file_sync_client.cpp:1500-1552 | on success an argument advances the counts, the replies read and the files sent as specified; a directory onto an existing file ends the push |
| SyncPush.PushingNext | porting/adb/client/file_sync_client.cpp:1500-1552 | one more argument keeps what the push has done equal to what its arguments call for |
| SyncPush.SyncSession.DoSyncPush | porting/adb/client/file_sync_client.cpp:1457-1559 | which arguments have their turn, and true exactly when all have, all succeed and no step has failed; then the items sent are, in order, exactly those of all arguments that the checks do not leave out, each was answered OKAY, none is outstanding and every file is counted; at most 128 files were outstanding without a failed step; a stat reply is crossed exactly when some argument crosses one, given the recorded acknowledgements at its turn |
| SyncPush.UnchangedIsNotSent | porting/adb/client/file_sync_client.cpp:1415-1433 | if every reply to the checks of a push carries the local size and time, nothing is sent |
| SyncPush.ChangedIsSent | porting/adb/client/file_sync_client.cpp:1415-1433 | every ordinary item whose reply differs is among the files sent; for a single file the time alone decides (line 1060) |
| SyncPush.EveryPathIsAsked | porting/adb/client/file_sync_client.cpp:1415-1421 | as long as every path can be asked for, one request per item goes out, and the replies of an argument follow those of the arguments before it |
| SyncPush.RecordedTurn | porting/adb/client/file_sync_client.cpp:1500-1552 | the record begins with the state before the push; with timestamp checks acknowledgements are outstanding at a turn only if an argument before has failed |
| SyncPush.RecordedGrows | porting/adb/client/file_sync_client.cpp:1500-1552 | files sent, bytes read and answers at a turn lie between those before and after the push |
| SyncPush.OutstandingMeans | porting/adb/client/file_sync_client.cpp:803-897 | acknowledgements are outstanding exactly when more files were sent than responses settled |
| SyncPush.CrossedAfterUnread | porting/adb/client/file_sync_client.cpp:1415-1433 | with nothing outstanding, replies are crossed only after a directory whose requests stopped behind the first |
| SyncPush.UnreadAfter | porting/adb/client/file_sync_client.cpp:1415-1421 | an argument leaves replies unread exactly when its requests stop behind the first |
| SyncPush.CrossedPush | porting/adb/client/file_sync_client.cpp:1415-1421 | a push of two directories in which the second is checked against the reply for the first |
| SyncPush.OneOkayEach | porting/adb/client/file_sync_client.cpp:1554-1558 | with all answers OKAY and none outstanding the daemon sent as many OKAYs as files and no FAIL |
| MkdirBatches.MakeDirectories | porting/adb/client/file_sync_client.cpp:1386-1413 | the commands partition the directories in order, none is bare or longer than 32769 bytes, none could have taken the next directory; a path over 16384 bytes stops with a prefix done |
| MkdirBatches.Begin | porting/adb/client/file_sync_client.cpp:1399-1407 | closing a batch and beginning another keeps the partition |
| MkdirBatches.CommandNames | porting/adb/client/file_sync_client.cpp:1386-1413 | a command is mkdir and, for each directory of its batch in order, a blank and its escaped name |
| RemoteRoutes.ListIsComplete | porting/adb/client/file_sync_client.cpp:1561-1622 | behind its own entry, the list holds for each place of the tree that a path of named nodes through directories and links to directories leads to, and that is no link whose stat fails, one entry with the path, kind, size, time and skip flag of what is there; and no other entry |
| RemoteRoutes.ListableMeans | porting/adb/client/file_sync_client.cpp:1561-1622 | a tree can be listed exactly when it and every directory that can be reached in it can be read |
| RemoteTree.DirectoriesComeFirst | porting/adb/client/file_sync_client.cpp:1561-1622 | the first entry is the directory itself and every other comes after the entry of the directory it is in |
| RemoteList.FileList.RemoteBuildList | porting/adb/client/file_sync_client.cpp:1561-1622 | true exactly when every directory that can be reached can be read; then appends the entry of the directory and one entry for each place that counts, with the path, size, time and skip flag of what is there |
| RemoteList.FileList.TakeListing | porting/adb/client/file_sync_client.cpp:1572-1595 | files are listed in order, directories and links are put aside, dot entries ignored |
| RemoteList.FileList.TakeLinks | porting/adb/client/file_sync_client.cpp:1597-1610 | a link becomes a file or a directory according to stat, or nothing |
| SyncPull.ListCounts | porting/adb/client/file_sync_client.cpp:1653-1683 | the list receives every ordinary file of the tree and skips every special one |
| SyncPull.LocalTree.CopyRemoteDirLocal | porting/adb/client/file_sync_client.cpp:1637-1686 | true exactly when every directory that can be reached can be read and every local step works; then exactly the reachable ordinary files were received, once for each place, from their paths to theirs, with all directories created, and the ledger counts them and the special ones |
| Banner.BannerRoundTrip | porting/adb/client/adb.cpp:267-378 | without a colon in the product, the features of the other side are restored exactly when no name holds a separator and the list is not the one of an empty name; the state is the one of the type, always |
| Banner.FeaturesNeedNoColon | porting/adb/client/adb.cpp:267-356 | every such list is restored exactly when the product holds no colon |
| Banner.ColonHidesFeatures | porting/adb/client/adb.cpp:336-338 | with a colon in the product the result does not depend on the features |
| Banner.ColonWitness | porting/adb/client/adb.cpp:336-338 | a device whose name begins with a colon is left without features |
| Banner.ProductRoundTrip | porting/adb/client/adb.cpp:267-356 | the product texts are restored exactly when none holds a separator, over texts that hold none |
| Banner.FeaturesAreReadable | porting/adb/client/adb.cpp:324-356 | whatever the banner, names read from it hold no separator and delayed acknowledgements are on exactly when both sides name them |
| Banner.StaleFeaturesAreCleared | porting/adb/client/adb.cpp:331-333 | the features after parsing depend on the banner alone |
| Banner.LastPropertyCounts | porting/adb/client/adb.cpp:324-356 | for any banner: of the properties that give a key a value the last counts; without one a product text stays and the features are gone |
| Banner.StateIsNamed | porting/adb/client/adb.cpp:358-378 | for any banner: the state is the one that the first piece names, and host if it names no other |
| Banner.FeaturesRoundTrip | porting/adb/transport.cpp:1239-1250 | a list without commas is restored exactly when it is not the list of one empty name |
| Banner.SplitOfJoin | porting/adb/transport.cpp:1239-1250 | splitting undoes joining when no piece holds the separator |
| Banner.JoinOfSplit | porting/adb/transport.cpp:1239-1250 | joining undoes splitting |
| Banner.Transport.ParseBanner | porting/adb/client/adb.cpp:324-378 | the loop computes the parse |
| Banner.GetConnectionString | porting/adb/client/adb.cpp:267-289 | the banner is the type, two colons, and the properties between semicolons: the features alone from a host, the three product texts before them from a device |
| StdinEscape.RunsByLine | porting/adb/client/commandline.cpp:528-597 | for an escape byte that does not end a line the machine does what the line-by-line specification says |
| StdinEscape.FirstLineIsALine | porting/adb/client/commandline.cpp:583-585 | the first line and the rest make the text; the line ends with the first line end, if there is one |
| StdinEscape.DisconnectsAtDot | porting/adb/client/commandline.cpp:563-577 | the machine disconnects exactly when some line of the text begins with the escape byte and a dot, and the escape byte is no dot |
| StdinEscape.PlainIsSent | porting/adb/client/commandline.cpp:563-585 | a text in which every escape byte at the head of a line is followed by something other than itself or a dot is sent as it is |
| StdinEscape.EscapedIsSent | porting/adb/client/commandline.cpp:559-585 | from the start or the middle of a line, the escaped text makes the machine send the text |
| StdinEscape.EscapeRoundTrip | porting/adb/client/commandline.cpp:528-597 | doubling the escapes at line starts makes the machine send every text unchanged without disconnecting, exactly when the escape byte does not end a line |
| StdinEscape.EscapeFails | porting/adb/client/commandline.cpp:563-585 | a text that is sent changed when the escape byte ends a line |
| StdinEscape.HandleByte | porting/adb/client/commandline.cpp:563-585 | the buffer afterwards holds what the machine sends, one or two bytes |
| StdinEscape.ReadLoop | porting/adb/client/commandline.cpp:531-597 | sends what the machine says, or everything when escapes are off, or a prefix of it when a write fails |
| MultiInstall.SessionIsRead | porting/adb/client/adb_install.cpp:785-794 | a session number in brackets is read back exactly when it fits an int |
| MultiInstall.NoSession | porting/adb/client/adb_install.cpp:785-794 | a line that does not begin with Success or lacks a bracket names no session |
| MultiInstall.Installer.CreateChildSession | porting/adb/client/adb_install.cpp:831-866 | the command is sent, and a session is returned exactly when the reply names one |
| MultiInstall.Installer.WriteSplit | porting/adb/client/adb_install.cpp:872-913 | success exactly when the file can be examined and opened and its write succeeded; nothing is sent for a file that cannot be examined or opened |
| MultiInstall.Installer.StreamPackages | porting/adb/client/adb_install.cpp:831-916 | the commands sent are, package by package, its create and its writes in order, up to the first failure; on success all were sent and succeeded; the sessions returned are those created |
| MultiInstall.Installer.StreamAndLink | porting/adb/client/adb_install.cpp:825-935 | success exactly when everything was sent and succeeded, including the link naming all children in order; otherwise the last command failed or the next split cannot be used, and nothing was sent after that |
| MultiInstall.Installer.Finalize | porting/adb/client/adb_install.cpp:937-991 | commit or abandon, then nothing more if it could not be sent or the commit succeeded, else all sessions and the parent are abandoned in order |
| MultiInstall.Linked | porting/adb/client/adb_install.cpp:918-935 | with the link, everything before it stays as it was, and the work is a success exactly when the linking command succeeded |
| MultiInstall.Installer.InstallMultiPackage | porting/adb/client/adb_install.cpp:773-992 | past the parent one finalising command is attempted; it commits exactly when all the work succeeded; the code is 0 exactly when the commit did; otherwise, if a reply was read, every child and the parent are abandoned |
| MultiInstall.CommitWritesEverything | porting/adb/client/adb_install.cpp:831-991 | after a commit every split of every package was written once, with its size, name and the number of its package, to the session created for that package, behind that create and before the next one, in order, and each succeeded; nothing else was written |
| MultiInstall.FailureAbandonsEverything | porting/adb/client/adb_install.cpp:965-991 | unless the commit succeeded or the finalising command could not be sent, the sessions created are abandoned in the order of their packages, then the parent, and nothing else is sent |
| Fdevent.Context.Create | porting/adb/fdevent/fdevent.cpp:63-89 | map and set gain the same new event with a new number |
| Fdevent.Context.Destroy | porting/adb/fdevent/fdevent.cpp:91-109 | map and set lose the same event and its descriptor is returned |
| Fdevent.Context.CalculatePollDuration | porting/adb/fdevent/fdevent.cpp:128-153 | the least remaining time of the events with a timeout, none if there are none |
| Fdevent.PollEndsInTime | porting/adb/fdevent/fdevent.cpp:128-153 | waiting that long passes no deadline that has not passed, and falls short of the earliest by less than a millisecond |
| Fdevent.Context.HandleEvents | porting/adb/fdevent/fdevent.cpp:155-165 | the function of the first event that is still installed is called, and no other; its effects come first, then the queue is drained: what is queued, run and installed afterwards is stated as for FlushRunQueue |
| Fdevent.Context.FlushRunQueue | porting/adb/fdevent/fdevent.cpp:167-182 | the closures that ran are those queued at the start, those that other threads queued, and those that the closures queued themselves, in this order, each behind the closure that queues it; the events installed afterwards are those that all their effects leave |
| Fdevent.AddedAt | porting/adb/fdevent/fdevent.cpp:167-182 | before the i-th closure is taken the i-th arrivals are queued, behind it what it queues |
| Fdevent.Context.Perform | porting/adb/fdevent/fdevent.cpp:63-109 | a closure queues exactly what it posts, in order, and leaves the events installed that its opens and closes leave |
| Fdevent.FdsAfterMeans | porting/adb/fdevent/fdevent.cpp:63-109 | a descriptor has an event afterwards exactly if it was opened and not closed later, or had one and was never closed |
| Fdevent.PostsAre | porting/adb/fdevent/fdevent.cpp:190-197 | the closures queued by some effects are those of its posts, each once and in order |
| Fdevent.FirstInstalledMeans | porting/adb/fdevent/fdevent.cpp:155-165 | the event handled is the first of the pending ones that is installed, and there is none exactly if none is |
| Fdevent.Context.Post | porting/adb/fdevent/fdevent.cpp:190-197 | the closure joins the end of the queue |

## Left out

- Sockets, polling, TLS, keys, the file system, threads and clocks: they are parameters, byte streams and steps.
- Compression and the second version of the send and receive requests: the codecs' contracts are not visible.
- `handle_packet` and everything about local and remote sockets; what `handle_offline` does to sockets. Listeners
  that are linked to a transport between its going offline and its deletion.
- Liveness of reconnection; of `Stop` only that it can always finish, not that the scheduler lets it.
- USB transports, the mDNS and the device tracker code, `launch_server`, `clear_transport_list` and
  `reinstall_all_listeners`.
- `acquire_one_transport` and `MatchesTarget`: a search that keeps no state.
- `register_socket_transport` after the unlock: waiting for the connection to be established.
- The loop over parent directories in `copy_local_dir_remote` (porting/adb/client/file_sync_client.cpp:1367): it
  ends only for an absolute path, and `Dirname` is not part of this model. `local_build_list` is a parameter.
- `do_sync_pull`, `do_sync_sync` and `sync_ls` beyond the directory copies; the I/O errors in `FinishStat`,
  `FinishLs` and `WriteOrDie` that end the process.
- Expected byte totals, progress lines and transfer rates.
- The arguments forwarded to `install-commit`, and `escape_arg`.
- `parse_install_mode` and the single-package installs of `adb_install.cpp`.
- The poll loop, which moves the last activity of every pending event even if its handler is not called.
- RemoteList.FileList.RemoteBuildList: says nothing about the list when it returns false, which no caller reads.
- Listeners.ListenerTable.Install: a listener that is not a smart socket needs a transport, without which the code
  dereferences null on rebinding, and a resolved port is one that no listener has.
- Listeners.ListenerTable.Bind: the same assumptions as Install.
- SyncTransfer.SendLargeFileLegacy: the request before the frames, the local stat and the open are not in it.
- TransportServer.Server.FlushOne: one closure at a time; running the queue to its end is in `Fdevent`.
