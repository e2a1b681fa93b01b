# PersistShell verification models

PersistShell keeps shells alive across client, daemon and terminal disconnects. These Dafny
modules model its most stateful parts and prove what its clients rely on. `dafny verify
dfyconfig.toml` checks everything.

**The Holder** (`crates/persist-holder`) is a single-threaded event loop that owns the terminals.
- `RingBuffer`, `ByteQueue`, `Connection`, `Reactor` and `HolderRuntime` are its parts, as classes
  with the source's fields, each method proved against a function.
- `HolderFrames`, `HolderState` and `HolderSteps` say what every handler does to the whole state, for
  every answer of the kernel, the peers, the children and the log worker. An I/O error that the source
  lets end the Holder is a terminal state.
- `HolderInvariant`, `HolderKeeps`, `HolderData` and `HolderRuns` prove one invariant of every event:
  ownership of sessions, the tables and their sizes, write interest, what every client has been told,
  and the account of every session's output and exits. Histories are kept per session id and never
  reset, because a connection may stay attached while a session is retired and started again.
- `HolderTheorems` draws the consequences for every reachable state and run; `HolderExample` gives
  runs that lead to an attached writer with output and to input that nobody will be woken for.
- `HolderOutcomes`, `HolderAnswers`, `HolderClients` and `HolderDelivery` say what each event comes to,
  in the terms of those it happens to: which connection stays and which goes, when exactly a request
  succeeds, what is sent to whom; `HolderNotices` follows the controller over whole runs.
- `HolderMoves` and `HolderServer` are the server object itself: its methods change the tables in the
  source's order, with its recursion and its loops over hash maps in any order, and every event
  method is proved to be a step of the proved run. All indexing into the connection table is in range.

**The session logs**: `LogQueue` (the bounded queue and the worker under any interleaving), `LogFiles`,
`LogOutcomes` and `LogRetention` (numbered rotation, with every system call allowed to fail), and
`AttachHistory` (the reader in the daemon that must reconstruct the end of the stream).

**The command history**: `HistoryFormat` (a binary log, its parser and printer, compaction under two
limits) and `CommandHistory` (three ways to append, crash states, whole histories).

**The daemon protocol**: `Framing` (incremental and blocking frame readers), `AttachCodec` and
`SessionListCodec`; `Text` has UTF-8 as section 4 of RFC 3629 defines it, and `WireLayouts` says where
every byte of these formats and of the history lies.

**The daemon's bookkeeping**: `SessionStore` (the sessions table), `DaemonLifecycle` (the daemon's
steps, with client threads, reconciliation and crashes interleaving, and the ids it hands out),
`SessionStatuses` (what the table says of every session after every step and run),
`ExitProtocol` (a rule under which exits are recorded before sessions are retired), `ExitRecords`
(when exactly they are, for every run and every interleaving), `ExitRaces` (runs in which they are
not) and `IsoTime` (timestamps against the Gregorian calendar and
section 5.6 of RFC 3339).

## What turned out not to hold

- A failed terminal write leaves accepted input queued but not armed for writing
  (`HolderTheorems.FailedWriteLosesTheWakeup` says exactly when, `HolderExamples.LostWakeupIsReachable`
  shows that it happens).
- A history append that crashes before its header update is tolerated once; a second one in a row makes
  the file unreadable (`CommandHistory.SecondCrashIsFatal`, `SecondCrashHappens`), and an append after
  sequence number 2^64 - 1 does too (`AppendKeepsTheLongestSuffix` gives the exact condition,
  `LastSequenceIsFatal` a file).
- The blocking frame reader accepts terminal traffic that the incremental one refuses
  (`Framing.ReadersAgree`, `ReadersDiffer`).
- Exits are not always recorded before sessions are retired. In every run, a session leaves the Holder
  with its exit on record if and only if that exit is the last thing that was said in its row before
  (`ExitRecords.RetiredIffLastWritten`), and it stays on record exactly as long as nothing else is said
  there (`StaysIffLastWritten`). Where two operations on one session meet, the order of their row writes
  decides, whatever happens in between: a close that comes before the row is committed writes nothing
  (`CloseAndCommit`); reopening the row wipes what a close or a pass wrote before (`CloseAndReopen`,
  `PassAndReopen`, `ReopenAlone`); of a close and a pass the later one stands, and the pass says what its
  snapshot says (`CloseAndPass`). It is enough that operations on one session keep out of each other's
  way (`ExitProtocol.Orderly`), but the source does not see to that; `ExitRaces` has a run for each way
  in which it goes wrong. Sessions left in the Holder by a crash before their row was committed are safe:
  they are hidden from clients before any is served.
- Timestamps stop sorting as text in the year 10000 (`IsoTime.OrderBreaksInTheYear10000`).

## Model

| member | source | states |
|---|---|---|
| `RingBuffers.RingBuffer.constructor` | crates/persist-core/src/ringbuf.rs:20-28 | a new buffer of the given positive capacity is empty |
| `RingBuffers.RingBuffer.Write` | crates/persist-core/src/ringbuf.rs:31-49 | whatever the wrap-around and however much is written at once, the buffer then holds exactly the last `capacity` bytes of what it held followed by the data |
| `RingBuffers.RingBuffer.WriteSome` | crates/persist-core/src/ringbuf.rs:36-48 | one turn of the copy loop makes progress and slides the window over the bytes it took |
| `RingBuffers.RingBuffer.CopyPiece` | crates/persist-core/src/ringbuf.rs:38-46 | copying up to the end of the array and wrapping the position keeps the chronological reading of the array right |
| `RingBuffers.PieceShiftsWindow` | crates/persist-core/src/ringbuf.rs:38-46 | overwriting at the write position equals appending and forgetting from the front, full or not, at the end of the array or not |
| `RingBuffers.RingBuffer.Len` | crates/persist-core/src/ringbuf.rs:52-58 | the number of bytes a reader would get |
| `RingBuffers.RingBuffer.ReadAll` | crates/persist-core/src/ringbuf.rs:61-68 | all stored bytes, oldest first |
| `RingBuffers.RingBuffer.ReadReplay` | crates/persist-core/src/ringbuf.rs:71-79 | the last `min(max, stored)` bytes, oldest first |
| `RingBuffers.ReplayIsStreamTail` | crates/persist-core/src/ringbuf.rs:31-79 | after any run of writes a replay is the last `min(max, capacity, length)` bytes of the whole stream |
| `ByteQueues.PushAppends` | crates/persist-holder/src/connection.rs:92-106 | queueing appends to the pending bytes and keeps the byte count exact |
| `ByteQueues.AdvanceWrites` | crates/persist-holder/src/connection.rs:112-119 | taking bytes off the front moves exactly them from pending to written, across chunk boundaries |
| `ByteQueues.Drain` | crates/persist-holder/src/connection.rs:108-125 | against any kernel behaviour, written bytes followed by what is left are what was pending, and offset and count stay sound |
| `ByteQueues.FlushBreaks` | crates/persist-holder/src/runtime.rs:258-279 | a flush loop gives up exactly when a write fails outright, and finds the other side gone exactly when one takes nothing, all writes before it having taken something and together less than was pending |
| `ByteQueues.EmptiedIsAllTaken` | crates/persist-holder/src/connection.rs:108-125 | it ends with nothing left exactly if the answers take all that was pending |
| `ByteQueues.TakenAndLeft` | crates/persist-holder/src/connection.rs:112-119 | what was taken is the beginning of what was pending, and what is left the rest |
| `ByteQueues.EachAnswerCounts` | crates/persist-holder/src/connection.rs:112-119 | each write that takes something takes just what it says, as far as the front chunk goes |
| `ByteQueues.TakingGoesOn` | crates/persist-holder/src/connection.rs:112-119 | so many answers that take something take at least so many bytes, or everything |
| `ByteQueues.BreaksByCount` | crates/persist-holder/src/runtime.rs:258-279 | in terms of the reported counts alone, when every write takes what it reports |
| `Connections.Connection.constructor` | crates/persist-holder/src/connection.rs:34-51 | a new connection is pending, speaks the baseline minor and has an empty queue |
| `Connections.Connection.Queue` | crates/persist-holder/src/connection.rs:92-106 | refuses exactly the frames that cannot be encoded or would exceed 1 MiB pending, and then changes nothing; otherwise the frame is behind everything queued before |
| `Connections.EnqueueKeeps` | crates/persist-holder/src/connection.rs:92-106 | bytes the socket took followed by bytes pending remain the encoding of all frames queued so far, within the limit |
| `Connections.Connection.Flush` | crates/persist-holder/src/connection.rs:108-125 | the loop does what its specification says for every script of kernel answers; what that means for the connection is `HolderOutcomes.WritableOutcome` |
| `Connections.Connection.TakeFront` | crates/persist-holder/src/connection.rs:112-119 | offset, count and front chunk after a partial or complete write of the front chunk |
| `Connections.FlushKeeps` | crates/persist-holder/src/connection.rs:108-125 | flushing only moves bytes from pending to sent: what the socket took stays a prefix of the queued frames |
| `Connections.Connection.WantsWrite` | crates/persist-holder/src/connection.rs:127-129 | whether anything is pending |
| `Reactors.Reactor.constructor` | crates/persist-holder/src/reactor.rs:18-29 | no registrations; the first token is 1 |
| `Reactors.Reactor.Add` | crates/persist-holder/src/reactor.rs:31-38 | if the kernel accepts, both tables gain the registration under a token not handed out before, and the successor skips zero; if not, only the token is used up |
| `Reactors.Reactor.Modify` | crates/persist-holder/src/reactor.rs:40-46 | fails exactly on unregistered descriptors and when the kernel refuses, without a change; otherwise only the interest changes |
| `Reactors.Reactor.Remove` | crates/persist-holder/src/reactor.rs:48-55 | the descriptor leaves both tables and nothing else does |
| `Reactors.Reactor.FdForToken` | crates/persist-holder/src/reactor.rs:57-59 | the descriptor a token currently stands for, if any |
| `Reactors.RegisterKeeps` | crates/persist-holder/src/reactor.rs:31-38 | the two tables stay mutual inverses and old tokens keep their meaning |
| `Reactors.BurnKeeps` | crates/persist-holder/src/reactor.rs:31-34 | a refused registration uses up its token and changes nothing else |
| `Reactors.UnregisterKeeps` | crates/persist-holder/src/reactor.rs:48-55 | the two tables stay mutual inverses, and no token changes its meaning |
| `Reactors.ResolvesOnlyIfContinuous` | crates/persist-holder/src/server.rs:128-140 | a token that still resolves after any steps named the same descriptor at every moment in between |
| `HolderRuntimes.Runtime.constructor` | crates/persist-holder/src/runtime.rs:64-71 | no sessions, generation zero |
| `HolderRuntimes.Runtime.Install` | crates/persist-holder/src/runtime.rs:102-144 | the session, its terminal entry and one generation step, as specified |
| `HolderRuntimes.CreatedKeeps` | crates/persist-holder/src/runtime.rs:77-145 | terminals and sessions stay in bijection and the inventory changes only with a new generation |
| `HolderRuntimes.Runtime.DrainOutput` | crates/persist-holder/src/runtime.rs:195-231 | ring, chunks, dropped bytes and the first degradation after any sequence of reads; stops on a read error |
| `HolderRuntimes.DrainFillsRing` | crates/persist-holder/src/runtime.rs:206-219 | the replay ring takes in exactly the chunks that will be published, in order |
| `HolderRuntimes.DrainOutputKeeps` | crates/persist-holder/src/runtime.rs:195-231 | draining keeps every session sound, and a degradation never goes without a new generation |
| `HolderRuntimes.FlushSessionInput` | crates/persist-holder/src/runtime.rs:258-279 | the write loop does what its specification says for every script of kernel answers |
| `HolderRuntimes.Runtime.FlushInput` | crates/persist-holder/src/runtime.rs:258-279 | only that session changes, as its flush specifies |
| `HolderRuntimes.FlushSessionKeeps` | crates/persist-holder/src/runtime.rs:258-279 | what the terminal took grows and stays a prefix of the accepted input |
| `HolderRuntimes.Runtime.QueueInput` | crates/persist-holder/src/runtime.rs:233-256 | refused exactly when unknown, exited, empty or above 1 MiB pending; otherwise queued behind earlier input and flushed |
| `HolderRuntimes.QueueInputKeeps` | crates/persist-holder/src/runtime.rs:233-256 | queue, offset, count and bound stay sound across any write outcome |
| `HolderRuntimes.InputIsOrderedAndBounded` | crates/persist-holder/src/runtime.rs:233-279 | accepted input grows by exactly an accepted payload; the terminal has a prefix of it; the rest is counted exactly and at most 1 MiB |
| `HolderRuntimes.Runtime.CloseSession` | crates/persist-holder/src/runtime.rs:312-328 | marks a running session as closing and answers whether the session is known |
| `HolderRuntimes.Runtime.ReapExited` | crates/persist-holder/src/runtime.rs:390-425 | every child found dead gets its code, loses its terminal and is reported with the context and the closing flag it had |
| `HolderRuntimes.Runtime.ReapChild` | crates/persist-holder/src/runtime.rs:397-423 | one child: code, context, terminal and one generation step |
| `HolderRuntimes.ReapAllKeeps` | crates/persist-holder/src/runtime.rs:390-425 | terminal table and sessions stay in bijection, and an exit code is there exactly when the terminal is gone |
| `HolderRuntimes.ReapAllNamed` | crates/persist-holder/src/runtime.rs:397-417 | each reaped session ends with its own code |
| `HolderRuntimes.ReapAllOther` | crates/persist-holder/src/runtime.rs:390-425 | sessions not found dead are untouched |
| `HolderRuntimes.Runtime.RetireExited` | crates/persist-holder/src/runtime.rs:371-388 | only an exited session whose state could be cleaned up is dropped; every other case is answered without a change |
| `HolderRuntimes.RetireKeeps` | crates/persist-holder/src/runtime.rs:371-388 | retiring keeps the tables in bijection and is visible in the generation |
| `HolderRuntimes.Runtime.MarkLogFailed` | crates/persist-holder/src/runtime.rs:427-438 | degrades a session once, with one generation step |
| `HolderRuntimes.LogFailedKeeps` | crates/persist-holder/src/runtime.rs:427-438 | log failures are visible in the generation and touch nothing else |
| `HolderStates.Split` | crates/persist-holder/src/server_handlers.rs:313-319 | replay pieces concatenate to the replay and hold 1 to 64 KiB each |
| `HolderInvariants.NoControllerNoWriters` | crates/persist-holder/src/server_handlers.rs:440-457 | without a controller there is neither a writer nor a data connection |
| `HolderInvariants.QueueFrameKeeps` | crates/persist-holder/src/server_handlers.rs:394-400 | queueing keeps ownership, tables and arming, and adds exactly that frame |
| `HolderInvariants.RemoveAllKeeps` | crates/persist-holder/src/server_handlers.rs:440-457 | dropping connections keeps every invariant as long as the data connections go with the controller |
| `HolderInvariants.DisconnectKeeps` | crates/persist-holder/src/server_handlers.rs:440-457 | disconnecting anyone, including the controller, keeps every invariant and every other client's view |
| `HolderInvariants.QueueOrDisconnectKeeps` | crates/persist-holder/src/server_handlers.rs:402-406 | an overflow in mid-handler leaves a sound state |
| `HolderInvariants.SendControlKeeps` | crates/persist-holder/src/server_handlers.rs:388-392 | telling the controller keeps everything, even when it is dropped for it |
| `HolderInvariants.DetachConnectionKeeps` | crates/persist-holder/src/server_handlers.rs:408-416 | detaching gives up exactly the session this connection was writing to |
| `HolderInvariants.CastKeeps` | crates/persist-holder/src/server.rs:283-302 | one event sent to everybody attached and recorded: every view stays complete |
| `HolderInvariants.PublishKeeps` | crates/persist-holder/src/server.rs:283-302 | a batch of chunks: the session's history grows by exactly them and every attached client has them, in order |
| `HolderInvariants.RevokeKeeps` | crates/persist-holder/src/server_handlers.rs:300-306 | whoever stops being the writer is told so or is dropped |
| `HolderInvariants.ReleaseWriterKeeps` | crates/persist-holder/src/server_handlers.rs:427-438 | after a release nobody still believes to be the writer |
| `HolderInvariants.DetachSessionKeeps` | crates/persist-holder/src/server_handlers.rs:418-425 | nobody is left attached, and the writer entry is gone |
| `HolderKeeps.ControlHelloKeeps` | crates/persist-holder/src/server_handlers.rs:10-66 | every outcome of a control hello, including taking over from a controller that hung up, keeps the invariant |
| `HolderKeeps.DropPrior` | crates/persist-holder/src/server_handlers.rs:22-29 | dropping the previous controller and its data connections leaves the newcomer connected and untouched |
| `HolderKeeps.DataHelloKeeps` | crates/persist-holder/src/server_handlers.rs:68-110 | every outcome of a data hello keeps the invariant; an accepted peer belongs to the controller's process |
| `HolderKeeps.CapabilityKeeps` | crates/persist-holder/src/server_handlers.rs:207-256 | the upgrade changes the controller's minor and nothing the invariant speaks of |
| `HolderKeeps.CreateKeeps` | crates/persist-holder/src/server_handlers.rs:138-148 | creating a session keeps the invariant and opens an account for its exit |
| `HolderKeeps.ControlKeeps` | crates/persist-holder/src/server_handlers.rs:112-205 | every control request keeps the invariant and leaves its sender connected |
| `HolderData.InputKeeps` | crates/persist-holder/src/server_handlers.rs:265-272 | input from the writer keeps the invariant for every outcome of the terminal write |
| `HolderData.FlushPtyKeeps` | crates/persist-holder/src/server.rs:275-279 | after a flush a terminal is armed exactly when input is left |
| `HolderData.HandOverGood` | crates/persist-holder/src/server_handlers.rs:299-307 | the new writer differs from the previous one, who is told or dropped, while the new one stays |
| `HolderData.TakeOverGood` | crates/persist-holder/src/server_handlers.rs:298-308 | taking over a session leaves the attaching connection in place, joined at the end of the history |
| `HolderData.QueueAllReads` | crates/persist-holder/src/server_handlers.rs:309-344 | what a client reads out of a run of queued frames is what the frames say |
| `HolderData.WelcomedIsFaithful` | crates/persist-holder/src/server_handlers.rs:309-344 | answer, replay and grant together give the new client a complete view |
| `HolderData.AttachKeeps` | crates/persist-holder/src/server_handlers.rs:289-345 | every outcome of an attach keeps the invariant; on success the view is complete at once |
| `HolderData.DataKeeps` | crates/persist-holder/src/server_handlers.rs:258-287 | every data request keeps the invariant and leaves its sender connected |
| `HolderData.FrameKeeps` | crates/persist-holder/src/server.rs:354-367 | every frame in every role keeps the invariant; its sender is still registered afterwards, so the next frame finds it |
| `HolderRuns.ProcessFrames` | crates/persist-holder/src/server.rs:336-341 | frames in order until one is refused |
| `HolderRuns.ReadHalf` | crates/persist-holder/src/server.rs:318-345 | the read half of a connection event: sound state, and the connection is there if the write half is to run |
| `HolderRuns.AlreadyArmed` | crates/persist-holder/src/server.rs:349-351 | setting the interest after an event changes nothing that was not already so |
| `HolderRuns.DrainPtyGood` | crates/persist-holder/src/server.rs:271-274 | draining and publishing keep the invariant |
| `HolderRuns.HandleTerminal` | crates/persist-holder/src/server.rs:270-281 | a terminal event keeps the invariant or stops the Holder |
| `HolderRuns.AnnounceKeeps` | crates/persist-holder/src/server.rs:185-246 | announcing one exit unregisters its terminal, records the code once, and keeps every view complete |
| `HolderRuns.AnnounceAllKeeps` | crates/persist-holder/src/server.rs:185-247 | a batch of exits: each session's history grows by its own exit and no other |
| `HolderRuns.ChildrenGood` | crates/persist-holder/src/server.rs:180-249 | reaping and announcing together settle the account of every session |
| `HolderRuns.LogTroubleGood` | crates/persist-holder/src/server.rs:254-268 | log failures keep the invariant |
| `HolderRuns.AcceptGood` | crates/persist-holder/src/server.rs:167-175 | a new peer keeps the invariant |
| `HolderRuns.Step` | crates/persist-holder/src/server.rs:125-165 | every event leads from a sound state to a sound one that extends it, or stops the Holder |
| `HolderRuns.Exec` | crates/persist-holder/src/server.rs:125-165 | so does every run; histories only grow, generations only move forward, tokens keep their meaning |
| `HolderTheorems.InitialGood` | crates/persist-holder/src/server.rs:98-123 | the state at start-up is sound |
| `HolderTheorems.EveryRunKeepsTheInvariant` | crates/persist-holder/src/server.rs:125-165 | every reachable state is sound |
| `HolderTheorems.WritersAreLive` | crates/persist-holder/src/server_handlers.rs:10-110 | in every reachable state a writer is a live data connection attached to its session, the control connection is the controller, and losing the controller leaves no writers |
| `HolderTheorems.DataPeersAreTheController` | crates/persist-holder/src/server_handlers.rs:68-110 | in every reachable state all data connections belong to the controller's own process |
| `HolderTheorems.DescriptorsPlayOnePart` | crates/persist-holder/src/reactor.rs:31-59 | in every reachable state listener, peers and terminals are disjoint and exactly they are registered |
| `HolderTheorems.StaleEventsAreDropped` | crates/persist-holder/src/server.rs:125-155 | an event is dispatched only if its registration has stood since the batch was taken, even if the number was reused |
| `HolderTheorems.GapFreeDelivery` | crates/persist-holder/src/server_handlers.rs:289-345 | in every reachable state the output an attached client has been sent is a gap-free suffix of the session's whole byte stream, beginning exactly min(replay bytes asked for, ring capacity, bytes printed since the session began) bytes before the point where it joined |
| `HolderTheorems.RingHoldsTheTail` | crates/persist-holder/src/runtime.rs:195-231 | in every reachable state a replay ring holds exactly the end of what its session has printed since it began |
| `HolderTheorems.SocketsTakeAPrefix` | crates/persist-holder/src/connection.rs:92-125 | in every reachable state a socket has taken a prefix of its queued frames; the rest is counted exactly and at most 1 MiB |
| `HolderTheorems.AttachReplaysTheTail` | crates/persist-holder/src/server_handlers.rs:289-345 | a successful attach joins at the end of the history, remembers what it asked for, and replays exactly the last `min(replay, ring)` bytes |
| `HolderTheorems.ClientsKnowWhetherTheyMayWrite` | crates/persist-holder/src/server_handlers.rs:299-343 | in every reachable state what a client was last told about writing is true |
| `HolderTheorems.NoLostOutputWakeups` | crates/persist-holder/src/server_handlers.rs:394-400 | in every reachable state a connection is armed for writing exactly when output is pending |
| `HolderTheorems.ExactlyOneExitEach` | crates/persist-holder/src/server.rs:177-249 | in every reachable state each session started under an id is still running or has exited exactly once |
| `HolderTheorems.ExitIsTheLastWord` | crates/persist-holder/src/server.rs:177-249 | while an exited session is listed, clients that joined before its exit have the exit code as the last thing they were sent |
| `HolderTheorems.ExitNoticesMatchExits` | crates/persist-holder/src/server.rs:208-228 | an attached client has one notice per exit since it joined |
| `HolderTheorems.SilentUntilRestarted` | crates/persist-holder/src/server.rs:177-252 | over any run, nothing is emitted under an id with nothing running until a session is started again |
| `HolderTheorems.AnnouncementInOrder` | crates/persist-holder/src/server.rs:185-246 | a client attached at the exit gets the revocation first if it was the writer, then exactly one notice in the form of its minor |
| `HolderTheorems.EqualGenerationEqualInventory` | crates/persist-holder/src/runtime.rs:440-442 | two states of one run with equal generation report the same inventory, below 2^64 changes |
| `HolderTheorems.TerminalsTakeAPrefix` | crates/persist-holder/src/runtime.rs:233-279 | in every reachable state a terminal has a prefix of the accepted input, and a session has an exit code exactly when it has no terminal |
| `HolderTheorems.PendingInputIsArmed` | crates/persist-holder/src/runtime.rs:258-279 | in every reachable state pending input is armed unless a terminal write failed outright |
| `HolderTheorems.FailedWriteLosesTheWakeup` | crates/persist-holder/src/server_handlers.rs:265-272 | the exception, exactly: accepted input ends pending and unarmed if and only if the terminal was not armed before and a write fails outright before everything was taken |
| `HolderTheorems.OnlyTheWriterIsHeard` | crates/persist-holder/src/server_handlers.rs:265-272 | a frame adds to a session's input only if it is input from its recorded writer while it runs, and then adds its payload |
| `HolderTheorems.FrameRuntime` | crates/persist-holder/src/server_handlers.rs:112-287 | no other request touches accepted input |
| `HolderTheorems.DaemonLearnsTheExit` | crates/persist-holder/src/runtime.rs:342-369 | in every reachable state a daemon asking for an exit is told the code, the one the session's clients were told, exactly when the session is held and has exited |
| `HolderExamples.Onward` | crates/persist-holder/src/server.rs:125-165 | whatever an event makes of a reachable state is reachable |
| `HolderExamples.AnAttachedWriterIsReachable` | crates/persist-holder/src/server.rs:125-165 | for any non-empty data a run of seven events exists after which a writer is attached and has been sent exactly what the session printed, so that the results on reachable states are about something |
| `HolderExamples.LostWakeupIsReachable` | crates/persist-holder/src/server_handlers.rs:265-272 | a run after which a session has input pending on an unarmed terminal |
| `HolderOutcomes.WritableOutcome` | crates/persist-holder/src/server.rs:346-351 | a writable connection: the Holder stops exactly if a write fails outright with something pending; the connection goes exactly if a write takes nothing with something pending, or it was marked to close and everything pending was taken; if it stays, the socket has taken what the kernel says it took and nothing else has changed; if it was the controller, the data connections go with it |
| `HolderOutcomes.ReadableOutcome` | crates/persist-holder/src/server.rs:318-345 | a readable connection stays exactly if its reads succeed, it has not been hung up, and every frame is accepted |
| `HolderOutcomes.OneFrame` | crates/persist-holder/src/server.rs:333-338 | a frame that is refused costs its sender the connection, and an accepted one does not |
| `HolderOutcomes.NewPeerIsConnected` | crates/persist-holder/src/server.rs:167-175 | a new peer is pending, registered and unarmed, with the identity the kernel reports; nobody else notices |
| `HolderOutcomes.QueueAllOutcome` | crates/persist-holder/src/server_handlers.rs:315-344 | a run of frames is queued exactly if all can be encoded and together fit 1 MiB with what is pending |
| `HolderOutcomes.DisconnectDrops` | crates/persist-holder/src/server_handlers.rs:440-457 | who goes with whom, and what happens to the writers: exactly the data connections, if it was the controller |
| `HolderOutcomes.ControlHelloIsAnswered` | crates/persist-holder/src/server_handlers.rs:10-66 | a control hello in the baseline minor: a hung-up controller makes way with all data connections; the newcomer becomes the controller exactly if uid and pid are its own and there is none then; it is told how it went, and marked to close if turned down |
| `HolderOutcomes.DataHelloIsAnswered` | crates/persist-holder/src/server_handlers.rs:68-110 | a data hello is accepted exactly from the controller's own process with its instance, nonce and minor; the peer is told, and marked to close if turned down |
| `HolderOutcomes.NoHelloIsRefused` | crates/persist-holder/src/server_handlers.rs:2-8 | anything else from a pending peer is refused |
| `HolderOutcomes.TurnedDownIsClosed` | crates/persist-holder/src/connection.rs:108-133 | a peer marked to close stays marked, and is gone once its answer has been taken |
| `HolderAnswers.CloseIsAnswered` | crates/persist-holder/src/runtime.rs:312-328 | closing marks a running session and no other, changes nothing else, and is not found only for an unknown one |
| `HolderAnswers.KillIsAnswered` | crates/persist-holder/src/runtime.rs:330-340 | the answer to a kill in every case; nothing else changes |
| `HolderAnswers.RetireIsAnswered` | crates/persist-holder/src/runtime.rs:371-388 | only an exited session that could be cleaned up goes, under a new generation; every case has its answer |
| `HolderAnswers.ExitContextIsAnswered` | crates/persist-holder/src/runtime.rs:342-369 | exit code and what was captured for an exited session, and why not otherwise; the environment only in the current minor |
| `HolderAnswers.InventoryIsAnswered` | crates/persist-holder/src/server_handlers.rs:122-132 | a request that decodes is answered with the page it asks for |
| `HolderAnswers.ShutdownIsAnswered` | crates/persist-holder/src/server_handlers.rs:193-203 | a shutdown is remembered exactly if its answer could be queued |
| `HolderAnswers.CreateIsAnswered` | crates/persist-holder/src/runtime.rs:77-145 | every outcome of a creation; on success the session runs with an empty ring, healthy log if logged, no input, an unarmed terminal, a new generation, and an account of its own |
| `HolderAnswers.CapabilityIsAnswered` | crates/persist-holder/src/server_handlers.rs:207-256 | the upgrade happens exactly for the controller, from the baseline to the current minor, with the right instance and nonce; the answer is already in the new minor |
| `HolderAnswers.OtherRequestsAreRefused` | crates/persist-holder/src/server_handlers.rs:112-205 | what does not decode, comes under another minor or is no control request is refused and does nothing |
| `HolderClients.AttachIsAnswered` | crates/persist-holder/src/server_handlers.rs:289-345 | an attach to a held session succeeds exactly if answer, replay pieces and grant encode and together fit what the connection has pending; then it has been queued just these, is attached, and writes if it asked to; the previous writer has been told or had no room and is gone; nobody else notices; an unknown session is answered as not found |
| `HolderClients.DetachSucceeds` | crates/persist-holder/src/server_handlers.rs:261-264 | the client is attached to nothing and writes to nothing, and nothing else changes |
| `HolderClients.InputIsAnswered` | crates/persist-holder/src/server_handlers.rs:265-272 | input is heard exactly if its sender may write to a running session and it is not empty and within 1 MiB with what is pending; then it extends the accepted input, the terminal has been given what the kernel says it took, and it is refused only if a write fails outright; otherwise it does nothing |
| `HolderClients.TerminalIsFlushed` | crates/persist-holder/src/server.rs:276-280 | a writable terminal: the Holder stops exactly if a write fails outright with something pending; otherwise the terminal has been given what the kernel says it took, and stays armed exactly while something is left |
| `HolderClients.WriterRequests` | crates/persist-holder/src/server_handlers.rs:273-284 | resizing and signalling are accepted exactly from the writer of a running session, if valid and applied |
| `HolderClients.OtherDataIsRefused` | crates/persist-holder/src/server_handlers.rs:258-287 | everything else from a data client is refused and does nothing |
| `HolderDeliveries.TerminalIsRead` | crates/persist-holder/src/runtime.rs:195-231 | a terminal is read up to the first read that brings nothing, one chunk a read; what the log worker refused is what is dropped, if the session is logged |
| `HolderDeliveries.OutputReaches` | crates/persist-holder/src/server.rs:283-303 | a client attached to a session that prints stays exactly if it has room for all of it, and gets all of it in order; nobody else notices |
| `HolderDeliveries.OutputIsDelivered` | crates/persist-holder/src/server.rs:270-316 | a readable terminal: the Holder stops exactly if a read fails; otherwise ring, log state, generation and history are as what was printed makes them, every client got it or had no room, and the controller was told exactly what the log has lost, if anything |
| `HolderDeliveries.ExitIsAnnounced` | crates/persist-holder/src/server.rs:185-246 | for every connection, what an exit announcement makes of it: an attached client gets its revocation and one notice in the form of its minor, and is detached if the exit was asked for; the controller gets exactly one notice in the form of its minor; who has no room is gone, with the data connections if it is the controller; nobody else notices |
| `HolderDeliveries.ChildIsReaped` | crates/persist-holder/src/runtime.rs:390-425 | a child found dead: its session has the code and what was captured or had been, its terminal is gone, the generation moves, and this is what is announced |
| `HolderDeliveries.ChildrenAreReaped` | crates/persist-holder/src/server.rs:177-249 | the same for any batch after the last output has been read; the Holder stops exactly if a terminal cannot be read |
| `HolderDeliveries.LogFailureIsTold` | crates/persist-holder/src/server.rs:254-268 | a reported log failure degrades its session, once, and the controller is told of it or had no room |
| `HolderNotices.StepHeard` | crates/persist-holder/src/server.rs:125-165 | whatever the event, a controller that is still the controller after it has been told of exactly the exits it brought to light, in order |
| `HolderNotices.ControllerHearsEveryExit` | crates/persist-holder/src/server.rs:177-249 | over any run during which the controller stays, the exit notices queued to it are exactly the exits that came to light, with their codes and contexts, each once and in order |
| `HolderMoves.RemoveTwice` | crates/persist-holder/src/server_handlers.rs:440-457 | dropping connections one after another comes to dropping them together |
| `HolderMoves.DetachThenDrop` | crates/persist-holder/src/server_handlers.rs:441-443 | unregistering, detaching and removing, in the source's order, is dropping |
| `HolderMoves.DropNobody` | crates/persist-holder/src/server_handlers.rs:440-457 | disconnecting a descriptor that is already gone changes nothing |
| `HolderMoves.BroadcastOneMore` | crates/persist-holder/src/server.rs:283-302 | serving targets one at a time, in any order and with drops on the way, adds up to the broadcast |
| `HolderServers.HolderServer.constructor` | crates/persist-holder/src/server.rs:98-123 | the new server is in the initial state, which is sound |
| `HolderServers.HolderServer.QueueFrame` | crates/persist-holder/src/server_handlers.rs:394-400 | fails exactly when the connection is gone or refuses the frame, without a change; otherwise queued and armed |
| `HolderServers.HolderServer.DetachConnection` | crates/persist-holder/src/server_handlers.rs:408-416 | in place, exactly the specified detachment |
| `HolderServers.HolderServer.Drop` | crates/persist-holder/src/server_handlers.rs:441-447 | one connection leaves reactor, writers, table and, if it was the controller, that too |
| `HolderServers.HolderServer.Unhook` | crates/persist-holder/src/server_handlers.rs:441-443 | unregistered and detached, in the source's order |
| `HolderServers.HolderServer.Disconnect` | crates/persist-holder/src/server_handlers.rs:440-457 | the recursion over the data connections removes exactly the connection and, with the controller, all of them |
| `HolderServers.HolderServer.QueueOrDisconnect` | crates/persist-holder/src/server_handlers.rs:402-406 | queued, or dropped with everything that goes with it |
| `HolderServers.HolderServer.SendControl` | crates/persist-holder/src/server_handlers.rs:388-392 | to the controller if there is one |
| `HolderServers.HolderServer.ReleaseWriter` | crates/persist-holder/src/server_handlers.rs:427-438 | the entry goes first, then the former writer is told or dropped |
| `HolderServers.HolderServer.DetachSession` | crates/persist-holder/src/server_handlers.rs:418-425 | the loop detaches exactly the connections attached to that session |
| `HolderServers.HolderServer.Respond` | crates/persist-holder/src/server_handlers.rs:369-386 | an answer carrying the request id and the current generation |
| `HolderServers.HolderServer.ServeOne` | crates/persist-holder/src/server.rs:299-301 | one target of a fan-out, present or already gone |
| `HolderServers.HolderServer.Cast` | crates/persist-holder/src/server.rs:299-301 | the loop over the targets, in any order, is the broadcast; for exits every index into the table is in range |
| `HolderServers.HolderServer.Tell` | crates/persist-holder/src/server.rs:214-233 | the broadcast is recorded, and whoever is left of the audience is still registered |
| `HolderServers.HolderServer.PublishOutput` | crates/persist-holder/src/server.rs:283-302 | targets looked up once, chunks in order, clients dropped early passed over: everybody still attached gets every chunk |
| `HolderServers.HolderServer.TellExit` | crates/persist-holder/src/server.rs:208-233 | everybody attached at the exit gets one notice in the form its minor calls for |
| `HolderServers.HolderServer.AnnounceExit` | crates/persist-holder/src/server.rs:185-246 | terminal, revocation, notices, detachment and controller notice in the source's order |
| `HolderServers.HolderServer.AnnounceExits` | crates/persist-holder/src/server.rs:185-247 | the loop over a batch of exits |
| `HolderServers.HolderServer.DrainTerminal` | crates/persist-holder/src/server.rs:271-274 | drain, publish, report dropped log bytes; fails exactly on a read error |
| `HolderServers.HolderServer.ReadTerminal` | crates/persist-holder/src/server.rs:271-272 | the drained output, with only the runtime changed |
| `HolderServers.HolderServer.DrainTerminals` | crates/persist-holder/src/server.rs:180-184 | the loop over the terminals before children are reaped |
| `HolderServers.HolderServer.FlushTerminal` | crates/persist-holder/src/server.rs:275-279 | write interest follows what is left pending; fails exactly on a write error |
| `HolderServers.HolderServer.HandlePty` | crates/persist-holder/src/server.rs:270-281 | the terminal event of a run step; the terminal is still in its table for the write half |
| `HolderServers.HolderServer.HandleChildren` | crates/persist-holder/src/server.rs:179-249 | the SIGCHLD event of a run step |
| `HolderServers.HolderServer.HandleLogFailures` | crates/persist-holder/src/server.rs:254-268 | takes everything the log worker has reported, once, and is the log-failure event of a run step for it |
| `HolderServers.HolderServer.NoteLogFailures` | crates/persist-holder/src/server.rs:255-267 | the loop over the reports |
| `HolderServers.HolderServer.AcceptConnection` | crates/persist-holder/src/server.rs:167-175 | the accept event of a run step |
| `HolderServers.HolderServer.Dispatch` | crates/persist-holder/src/server.rs:133-155 | an event whose token no longer resolves is passed over; any other is the run step for what the token stands for |
| `HolderServers.HolderServer.DropGoneController` | crates/persist-holder/src/server_handlers.rs:22-29 | a controller that hung up is dropped with its data connections, and the newcomer is still there |
| `HolderServers.HolderServer.HandleControlHello` | crates/persist-holder/src/server_handlers.rs:10-66 | the specified handshake, in place |
| `HolderServers.HolderServer.HandleDataHello` | crates/persist-holder/src/server_handlers.rs:68-110 | the specified handshake, in place |
| `HolderServers.HolderServer.HandleCapability` | crates/persist-holder/src/server_handlers.rs:207-256 | the specified upgrade, in place |
| `HolderServers.HolderServer.HandleCreate` | crates/persist-holder/src/server_handlers.rs:138-148 | the specified creation, in place |
| `HolderServers.HolderServer.HandleControl` | crates/persist-holder/src/server_handlers.rs:112-205 | every control request as specified, in place |
| `HolderServers.HolderServer.HandleInventory` | crates/persist-holder/src/server_handlers.rs:122-132 | an inventory page for the sender, or a refusal |
| `HolderServers.HolderServer.HandleClose` | crates/persist-holder/src/server_handlers.rs:146-161 | marks the session as closing and answers whether it is known |
| `HolderServers.HolderServer.HandleKill` | crates/persist-holder/src/server_handlers.rs:146-161 | answers whether the session is known and could be signalled |
| `HolderServers.HolderServer.HandleGetExitContext` | crates/persist-holder/src/server_handlers.rs:162-181 | answers with the exit context as it stands |
| `HolderServers.HolderServer.HandleRetireExited` | crates/persist-holder/src/server_handlers.rs:182-192 | retires as specified and answers how that went |
| `HolderServers.HolderServer.HandleShutdownAll` | crates/persist-holder/src/server_handlers.rs:193-202 | a shutdown is remembered only once its answer is queued |
| `HolderServers.HolderServer.RequireWriter` | crates/persist-holder/src/server_handlers.rs:347-355 | the session this peer is attached to, recorded as writer of, and which is running |
| `HolderServers.HolderServer.HandleInput` | crates/persist-holder/src/server_handlers.rs:265-272 | input as specified, with the terminal's write interest |
| `HolderServers.HolderServer.Join` | crates/persist-holder/src/server_handlers.rs:308-308 | the attachment remembers where in the history it began and what it is owed |
| `HolderServers.HolderServer.TakeOver` | crates/persist-holder/src/server_handlers.rs:298-308 | writer table, previous writer, attachment, in the source's order; the attaching connection is still there |
| `HolderServers.HolderServer.HandOver` | crates/persist-holder/src/server_handlers.rs:299-307 | writer table first, then the previous writer is told or dropped |
| `HolderServers.JoinOrder` | crates/persist-holder/src/server_handlers.rs:298-308 | telling the previous writer before or after marking the attachment comes to the same |
| `HolderServers.HolderServer.Enter` | crates/persist-holder/src/server_handlers.rs:297-308 | leaving the old session and taking over the new one |
| `HolderServers.HolderServer.QueueEach` | crates/persist-holder/src/server_handlers.rs:309-344 | the loop queues until a frame does not fit |
| `HolderServers.HolderServer.Attach` | crates/persist-holder/src/server_handlers.rs:289-345 | the specified attach, in place |
| `HolderServers.HolderServer.HandleData` | crates/persist-holder/src/server_handlers.rs:258-287 | every data request as specified, in place |
| `HolderServers.HolderServer.ProcessFrame` | crates/persist-holder/src/server.rs:354-367 | by role, as specified |
| `HolderServers.HolderServer.ProcessFrames` | crates/persist-holder/src/server.rs:336-341 | the loop over the frames; every index into the table is in range |
| `HolderServers.HolderServer.FlushConnection` | crates/persist-holder/src/server.rs:346-351 | flush, then close, stop or set the interest |
| `HolderServers.HolderServer.ReadHalf` | crates/persist-holder/src/server.rs:318-345 | the read half of a connection event, in place |
| `HolderServers.HolderServer.Settle` | crates/persist-holder/src/server.rs:346-351 | the write half, and the interest afterwards |
| `HolderServers.HolderServer.HandleConnection` | crates/persist-holder/src/server.rs:318-352 | the connection event of a run step |
| `LogFiles.SessionLog.Open` | crates/persist-holder/src/log_worker.rs:183-204 | creates a missing file, keeps an existing one, and counts what is there |
| `LogFiles.SessionLog.RotateLog` | crates/persist-holder/src/log_worker.rs:206-221 | the renaming loop does what its specification says for every pattern of failing calls |
| `LogFiles.SessionLog.WriteItem` | crates/persist-holder/src/log_worker.rs:125-181 | open if needed, rotate if needed, append; a failure also closes the handle; when it succeeds is `LogOutcomes.ItemOutcome` |
| `LogFiles.SessionLog.AppendItem` | crates/persist-holder/src/log_worker.rs:178-180 | all of the item, or a part of it and a failure |
| `LogOutcomes.ShiftSucceeds` | crates/persist-holder/src/log_worker.rs:208-213 | the renaming loop succeeds exactly if none of the files it must move is stuck |
| `LogOutcomes.RotationSucceeds` | crates/persist-holder/src/log_worker.rs:206-221 | a rotation succeeds exactly if none of its calls fails, and then the new file is empty |
| `LogOutcomes.ItemOutcome` | crates/persist-holder/src/log_worker.rs:165-181 | an item counts as written exactly if every call it needed has succeeded, and then the current file ends with all of it; otherwise the log has gained what was written before a call failed, and the next item looks at the file afresh |
| `LogRetention.ShiftKeeps` | crates/persist-holder/src/log_worker.rs:208-213 | moving the files up keeps what they hold in order even if the loop stops half way |
| `LogRetention.ShiftLosesNothing` | crates/persist-holder/src/log_worker.rs:208-213 | with the number above free nothing is lost, wherever the loop stops |
| `LogRetention.ShiftLosesTheOldest` | crates/persist-holder/src/log_worker.rs:208-213 | otherwise only the file whose place is taken |
| `LogRetention.RotateKeeps` | crates/persist-holder/src/log_worker.rs:206-221 | a rotation, complete or failing anywhere, only takes bytes off the front |
| `LogRetention.ItemKeepsOrder` | crates/persist-holder/src/log_worker.rs:165-181 | writing an item, whatever fails, leaves files that read oldest first are the end of what was written |
| `LogRetention.FilesAreTheEndOfWhatWasWritten` | crates/persist-holder/src/log_worker.rs:125-221 | the same for any run of items with any failures |
| `LogRetention.RotationRenumbers` | crates/persist-holder/src/log_worker.rs:206-221 | a clean rotation moves every file up by one and drops only the last |
| `LogRetention.RoomyRotation` | crates/persist-holder/src/log_worker.rs:206-221 | with a slot free a rotation loses nothing |
| `LogRetention.ItemStaysTidy` | crates/persist-holder/src/log_worker.rs:165-221 | numbers stay without gaps, files small, neighbours together above the limit, and loss only with every slot taken |
| `LogRetention.PairsAreBig` | crates/persist-holder/src/log_worker.rs:165-221 | k files after the current one hold at least half of (k + 1) limits |
| `LogRetention.TidyBounds` | crates/persist-holder/src/log_worker.rs:165-221 | never more than one full set, and more than half a set once anything is lost |
| `LogRetention.RetentionOfCleanRuns` | crates/persist-holder/src/log_worker.rs:165-221 | from an empty directory and without failures all of this holds after any run of items |
| `LogQueues.SharedQueue.Enqueue` | crates/persist-holder/src/log_worker.rs:74-90 | refused exactly above 8 MiB; otherwise last in line and counted |
| `LogQueues.SharedQueue.Take` | crates/persist-holder/src/log_worker.rs:128-139 | first in line, or wait, or finish only when empty and stopping |
| `LogQueues.OfferKeeps` | crates/persist-holder/src/log_worker.rs:74-90 | an item is refused exactly if it would take the backlog above 8 MiB; the count stays exact |
| `LogQueues.LookKeeps` | crates/persist-holder/src/log_worker.rs:128-139 | the first item is taken, and the count stays exact |
| `LogQueues.TurnKeeps` | crates/persist-holder/src/log_worker.rs:74-158 | every step of producer, owner or worker keeps order, counts, failure reports and files right |
| `LogQueues.Run` | crates/persist-holder/src/log_worker.rs:74-158 | so does every interleaving |
| `LogQueues.BytesAreConserved` | crates/persist-holder/src/log_worker.rs:74-158 | at every moment the bytes offered are refused, written, reported, in hand or queued, and the backlog is at most 8 MiB |
| `LogQueues.ItemsAreJudged` | crates/persist-holder/src/log_worker.rs:141-157 | every item dealt with is noted as written exactly if no call it needed has failed, and its file has gained all of it or the beginning that was written before |
| `LogQueues.EveryFileIsAccountedFor` | crates/persist-holder/src/log_worker.rs:74-158 | conservation in the bytes of every file: what was accepted for it has been appended to it, is missing of items reported as lost, is in hand or is queued |
| `LogQueues.FailuresAreReported` | crates/persist-holder/src/log_worker.rs:141-157 | the Holder is told of exactly the items for which a call failed, in order, and of their whole size |
| `LogQueues.CleanRunsReportNothing` | crates/persist-holder/src/log_worker.rs:141-157 | without failing calls nothing is reported as lost |
| `LogQueues.WorkerFinishes` | crates/persist-holder/src/log_worker.rs:112-158 | from every state, a worker told to stop deals with everything accepted and goes, whatever fails on the way |
| `LogQueues.ShutdownLosesNothing` | crates/persist-holder/src/log_worker.rs:112-158 | items are processed in the order accepted, and the worker is gone only after the last of them |
| `LogQueues.AcceptedOutputReachesTheLog` | crates/persist-holder/src/log_worker.rs:74-221 | after a shutdown without failures each file holds the end of everything accepted for it |
| `AttachHistory.ReadRotatedTail` | crates/persistd/src/attach_history.rs:26-66 | exactly the last `min(limit, retained)` bytes of the retained log; fails exactly on too many files or on something unsafe it had to look at |
| `AttachHistory.ReadFiles` | crates/persistd/src/attach_history.rs:45-65 | the loop from the newest file back, stopping as soon as the limit is reached |
| `AttachHistory.CollectMore` | crates/persistd/src/attach_history.rs:54-61 | one more file in front, cut to what is still wanted |
| `AttachHistory.FullTail` | crates/persistd/src/attach_history.rs:58-60 | once the limit is reached older files neither change the result nor are looked at |
| `AttachHistory.ReaderSeesTheEndOfTheStream` | crates/persistd/src/attach_history.rs:26-66 | whatever failed while writing, the last bytes of what the files hold are the last bytes ever written |
| `AttachHistory.ReadBack` | crates/persistd/src/attach_history.rs:26-66 | writer and reader together: the reader returns the last bytes ever written, as many as the files hold, and fails exactly on too many files or something unsafe it had to look at |
| `HistoryFormat.DecodeEncoded` | crates/persist-core/src/command_history_format.rs:80-144 | a printed record is read back, whatever follows it and whatever its reserved bytes hold |
| `HistoryFormat.DecodedIsEncoded` | crates/persist-core/src/command_history_format.rs:80-113 | everything the parser accepts is a printed record within limits, up to the reserved bytes |
| `HistoryFormat.DecodeEncodedAll` | crates/persist-core/src/command_history_format.rs:39-45 | any list of records is read back |
| `HistoryFormat.DecodeAppend` | crates/persist-core/src/command_history_format.rs:39-45 | records behind a readable run are read after it, and nothing before changes |
| `HistoryFormat.DecodedSize` | crates/persist-core/src/command_history_format.rs:156-162 | a readable body has the estimated size of its records |
| `HistoryFormat.ReprintIffCanonical` | crates/persist-core/src/command_history_format.rs:80-144 | printing what was read restores the bytes exactly when the reserved bytes are zero |
| `HistoryFormat.LoadOf` | crates/persist-core/src/command_history_format.rs:15-78 | what loading makes of any header: the count may lag by one, sequences must increase |
| `HistoryFormat.LoadPrinted` | crates/persist-core/src/command_history_format.rs:15-131 | a printed history is loaded as it was |
| `HistoryFormat.LoadedIsValid` | crates/persist-core/src/command_history_format.rs:15-59 | whatever loads is within limits and has the size its records call for |
| `HistoryFormat.CompactedIsLongest` | crates/persist-core/src/command_history_format.rs:146-154 | exactly the longest suffix within both limits |
| `HistoryFormat.CompactAgain` | crates/persist-core/src/command_history_format.rs:146-154 | dropping early or late makes no difference |
| `HistoryFormat.NewestSurvive` | crates/persist-core/src/command_history_format.rs:146-154 | the newest two records are never dropped |
| `HistoryFormat.LoadState` | crates/persist-core/src/command_history_format.rs:15-59 | the cursor loop is the parser |
| `HistoryFormat.WriteState` | crates/persist-core/src/command_history_format.rs:115-131 | the writing loop is the printer |
| `HistoryFormat.Compact` | crates/persist-core/src/command_history_format.rs:146-154 | the counting loop finds the first record to keep |
| `CommandHistory.InPlaceLoads` | crates/persist-core/src/command_history.rs:73-85 | what is loaded after one, two or all three writes of an in-place append, with and without a lagging header |
| `CommandHistory.InPlaceAppends` | crates/persist-core/src/command_history.rs:60-65 | the in-place branch means the longest suffix |
| `CommandHistory.RewriteAppends` | crates/persist-core/src/command_history.rs:66-70 | the rewriting branch means the longest suffix |
| `CommandHistory.AppendKeepsTheLongestSuffix` | crates/persist-core/src/command_history.rs:35-71 | all three branches: next number, exact header, exact size at most 4 MiB, newest record kept, and loads as the longest suffix if and only if a sequence number was left |
| `CommandHistory.FailedAppendsChangeNothing` | crates/persist-core/src/command_history.rs:35-40 | an append fails exactly on a command that cannot be recorded or a file that cannot be read, and then the file is as it was |
| `CommandHistory.RoomMeansInPlace` | crates/persist-core/src/command_history.rs:58-85 | with room for one more, in records and bytes, the record goes behind the end of the file and nothing but the two numbers in the header changes |
| `CommandHistory.FastEqualsSlow` | crates/persist-core/src/command_history.rs:60-70 | the in-place branch leaves the bytes of a full rewrite exactly when the reserved bytes were zero |
| `CommandHistory.CrashToleranceIsOneRecord` | crates/persist-core/src/command_history.rs:73-85 | a crash after the record is in place is tolerated if and only if the header was exact |
| `CommandHistory.SecondCrashIsFatal` | crates/persist-core/src/command_history.rs:73-85 | two such crashes in a row make the file unreadable |
| `CommandHistory.SecondCrashHappens` | crates/persist-core/src/command_history.rs:73-85 | a concrete file for it: one command, then two crashes |
| `CommandHistory.LastSequenceIsFatal` | crates/persist-core/src/command_history.rs:73-85 | a concrete file whose last record has number 2^64 - 1: the next append succeeds and leaves a file that no longer loads |
| `CommandHistory.FileHoldsTheNewestCommands` | crates/persist-core/src/command_history.rs:35-71 | after any number of appends: numbered from one, and the longest run of the newest that fits |
| `CommandHistory.FileIsAlwaysARewrite` | crates/persist-core/src/command_history.rs:35-85 | after any number of appends the bytes are those of a full rewrite |
| `CommandHistory.HistoryFile.AppendRecord` | crates/persist-core/src/command_history.rs:73-85 | three writes in place, in this order |
| `CommandHistory.HistoryFile.Append` | crates/persist-core/src/command_history.rs:35-71 | the specified branch, in place; errors leave the file alone |
| `Framing.VerdictsArePermanent` | crates/persist-ipc/src/protocol.rs:1123-1164 | a frame or an error, once found, is found again whatever else arrives |
| `Framing.DrainInStages` | crates/persist-ipc/src/protocol.rs:1119-1164 | draining before and after more bytes arrive equals draining once |
| `Framing.ChunkingIsInvisible` | crates/persist-ipc/src/protocol.rs:1119-1164 | any way of cutting a stream gives the frames, rest and first error of the whole |
| `Framing.SameStreamSameFrames` | crates/persist-ipc/src/protocol.rs:1119-1164 | two ways of cutting the same stream cannot be told apart |
| `Framing.WrittenFramesParse` | crates/persist-ipc/src/protocol.rs:178-200 | a written frame is parsed as itself within the limit of its type and refused above it |
| `Framing.RoundTrip` | crates/persist-ipc/src/protocol.rs:178-200 | any list of legal frames is read back in front of anything |
| `Framing.ReadersAgree` | crates/persist-ipc/src/protocol.rs:202-238 | the two readers agree except on terminal traffic above 64 KiB |
| `Framing.ReadersDiffer` | crates/persist-ipc/src/protocol.rs:202-238 | on terminal traffic between 64 KiB and 1 MiB they do differ: the blocking reader delivers it, the incremental one refuses it |
| `Framing.ReadersDifferOnOneByteMore` | crates/persist-ipc/src/protocol.rs:202-238 | 65537 bytes of terminal output, for example |
| `Framing.ReadN` | crates/persist-ipc/src/protocol.rs:240-254 | n bytes however they trickle in, or an error if the stream ends first |
| `Framing.ReadFrame` | crates/persist-ipc/src/protocol.rs:202-238 | the specified reader, whatever the reads deliver |
| `Framing.FrameAccumulator.TryRead` | crates/persist-ipc/src/protocol.rs:1123-1164 | the specified verdict; only a frame consumes bytes |
| `Framing.FrameAccumulator.ReadAvailable` | crates/persistd/src/server.rs:1736-1736 | reading until there is nothing more, or an error |
| `Framing.FrameAccumulator.Serve` | crates/persistd/src/server.rs:1717-1736 | feeding and reading in turns yields the frames, rest and error of the whole stream, however it arrives |
| `AttachCodec.FromPairsMeaning` | crates/persist-ipc/src/protocol.rs:363-383 | accepted exactly when at most eight, all admissible and no name twice; the map holds exactly them |
| `AttachCodec.DecodeEncodedPairs` | crates/persist-ipc/src/protocol.rs:422-466 | any list of admissible variables is read back |
| `AttachCodec.RoundTrip` | crates/persist-ipc/src/protocol.rs:415-472 | an environment comes back whatever order it was written in |
| `AttachCodec.TruncationIsNoticed` | crates/persist-ipc/src/protocol.rs:432-472 | every strict prefix is refused, except the bare session id, which means no environment |
| `AttachCodec.EncodeWithContext` | crates/persist-ipc/src/protocol.rs:415-430 | the writing loop is the printer |
| `AttachCodec.Decode` | crates/persist-ipc/src/protocol.rs:432-472 | the loop over the offset is the parser |
| `AttachCodec.DecodeVariables` | crates/persist-ipc/src/protocol.rs:449-467 | exactly as many variables as announced, and nothing behind them |
| `SessionListCodec.Str16RoundTrip` | crates/persist-ipc/src/protocol.rs:1088-1105 | strings within 16 bits are read back |
| `SessionListCodec.FlagsReadBack` | crates/persist-ipc/src/protocol.rs:961-985 | the eight flag bits are independent |
| `SessionListCodec.EntryRoundTrip` | crates/persist-ipc/src/protocol.rs:958-1083 | an entry is read back, up to the strings of an absent foreground process |
| `SessionListCodec.ListRoundTrip` | crates/persist-ipc/src/protocol.rs:953-1086 | of any list the first 65535 entries are read back, and what is written behind them is passed over |
| `SessionListCodec.ListSurvives` | crates/persist-ipc/src/protocol.rs:953-1086 | the list is unchanged exactly when it has at most 65535 entries and no foreground strings without a process |
| `SessionListCodec.EncodeSessions` | crates/persist-ipc/src/protocol.rs:953-1003 | the writing loop is the printer |
| `SessionListCodec.DecodeSessions` | crates/persist-ipc/src/protocol.rs:1005-1086 | the reading loop is the parser |
| `WireLayouts.FrameLayout` | crates/persist-ipc/src/protocol.rs:178-200 | every byte of a written frame: length, type, flags and request id, most significant byte first, and the payload |
| `WireLayouts.FrameVerdict` | crates/persist-ipc/src/protocol.rs:1123-1164 | what the parser makes of any bytes at all, with the types and limits as numbers |
| `WireLayouts.RecordLayout` | crates/persist-core/src/command_history_format.rs:133-144 | every byte of a printed record |
| `WireLayouts.HeaderLayout` | crates/persist-core/src/command_history_format.rs:115-123 | every byte of a printed header |
| `WireLayouts.LoadVerdict` | crates/persist-core/src/command_history_format.rs:15-61 | what loading makes of any bytes at all, up to the records |
| `WireLayouts.VariableMeans` | crates/persist-ipc/src/protocol.rs:363-383 | which variables can be handed over: the eight names, and values of 1 to 4096 bytes of UTF-8 without control characters |
| `WireLayouts.AttachLayout` | crates/persist-ipc/src/protocol.rs:415-430 | every byte of an attach request |
| `WireLayouts.EntryLayout` | crates/persist-ipc/src/protocol.rs:958-1002 | every byte of a session list entry |
| `WireLayouts.ListLayout` | crates/persist-ipc/src/protocol.rs:953-957 | every byte of a session list |
| `WireLayouts.TimeLayout` | crates/persist-metadata/src/store.rs:845-849 | every character of a timestamp up to the year 9999 |
| `SessionStore.RedoingIsHarmless` | crates/persist-metadata/src/store.rs:381-476 | redoing a close after a crash keeps the exit code, and captured context where nothing new was captured |
| `SessionStore.MetadataStore.CreateSession` | crates/persist-metadata/src/store.rs:192-211 | refuses exactly an id that has a row; otherwise adds one running row with the given directory and nothing else |
| `SessionStore.MetadataStore.NextSessionId` | crates/persist-metadata/src/store.rs:213-230 | one above the largest id, or an error exactly when 32 bits are exhausted |
| `SessionStore.MetadataStore.MarkRunning` | crates/persist-metadata/src/store.rs:339-361 | fails exactly without a row; otherwise the row is running under this instance with no code and no closing time |
| `SessionStore.MetadataStore.MarkExited` | crates/persist-metadata/src/store.rs:381-415 | fails exactly without a row; otherwise the row records the code under this instance, keeps the first closing time, and keeps directory and environment where nothing new was captured |
| `SessionStore.MetadataStore.MarkLost` | crates/persist-metadata/src/store.rs:417-438 | exactly the running, attached and detached rows become lost, under this instance; no other row and no other field changes |
| `SessionStore.MetadataStore.CloseSession` | crates/persist-metadata/src/store.rs:456-476 | closes a row if there is one, keeping its instance and whatever was not captured anew, and says nothing if there is not |
| `SessionStore.MetadataStore.ReopenSession` | crates/persist-metadata/src/store.rs:478-495 | fails exactly without a row; otherwise the row is running again with no code and no closing time |
| `DaemonLifecycle.StepKeepsIds` | crates/persistd/src/server.rs:867-911 | every step of every thread, crash or restart keeps all ids in use below the next one |
| `DaemonLifecycle.ReportedIdsAreDistinct` | crates/persistd/src/server.rs:181-211 | over any run with any crashes no id is reported twice, and the next one collides with neither metadata nor Holder |
| `DaemonLifecycle.OneFirstFree` | crates/persistd/src/server.rs:181-192 | there is only one first id a starting daemon can come up with |
| `SessionStatuses.PassReviews` | crates/persistd/src/holder/reconcile.rs:35-86 | a pass makes of every row what its snapshot shows: lost if active and absent or another Holder's, running without a code if shown as running, closed with the code and what was captured if shown as exited; otherwise the row stays as it is |
| `SessionStatuses.CutReviews` | crates/persistd/src/holder/reconcile.rs:35-86 | a pass that fails on the way has reviewed some rows and left the others alone |
| `SessionStatuses.ActiveAfterPass` | crates/persistd/src/holder/reconcile.rs:35-86 | after a pass the active rows are exactly those its snapshot shows as running and no other Holder owns |
| `SessionStatuses.NothingActiveAfterLoss` | crates/persistd/src/server.rs:257-286 | once the Holder is known to be lost no row is active: the active ones are lost, the others unchanged |
| `SessionStatuses.StepStatus` | crates/persistd/src/server.rs:2943-3002 | every step in every state writes a row the status it says, or leaves its status as it is |
| `SessionStatuses.StatusIsTheLastWritten` | crates/persistd/src/server.rs:2943-3002 | in every run from every state the status of a row is the last one written into it |
| `SessionStatuses.NoForeignSessionLooksAlive` | crates/persistd/src/holder/reconcile.rs:35-86 | over any run with any crashes, while clients are served every active row belongs to the Holder the daemon is connected to |
| `SessionStatuses.CloseWrites` | crates/persist-metadata/src/store.rs:456-476 | a close writes the exit it has seen and what was captured with it, and nothing else |
| `SessionStatuses.CloseKeepsWhatWasCaptured` | crates/persistd/src/server.rs:2943-3002 | observed, persisted and retired: the row the session leaves with has the code and what was captured when it was observed |
| `SessionStatuses.CreationSucceeds` | crates/persistd/src/server.rs:1756-1800 | created and committed: the session runs in the Holder under the next id, has a running row of this Holder, and the client is told that id |
| `SessionStatuses.IdsAreUsedUp` | crates/persistd/src/server.rs:1756-1775 | an id is used up whether or not the Holder takes it |
| `SessionStatuses.RestoreSucceeds` | crates/persistd/src/server.rs:2205-2235 | restored and reopened: the session runs again in the Holder and in its row, which no longer says how it ended |
| `SessionStatuses.GivingUpFrees` | crates/persistd/src/server.rs:867-896 | an operation that is given up leaves the thread free and table and Holder as they are |
| `SessionStatuses.PassListsExactly` | crates/persistd/src/holder/reconcile.rs:35-91 | a pass lists for retiring exactly the exits it has written, and for hiding exactly the sessions without a row of this Holder |
| `SessionStatuses.StartUp` | crates/persistd/src/server.rs:165-214 | from start-up to serving: a row is active exactly if the Holder runs that session and the row is not another Holder's, and everything else the Holder runs is hidden |
| `ExitProtocol.StepKeepsExits` | crates/persistd/src/server.rs:2943-3002 | every orderly step of every thread, crash or restart keeps what is known of sessions on their way out |
| `ExitProtocol.PassKeeps` | crates/persistd/src/holder/reconcile.rs:15-91 | a reconciliation pass keeps it, and lists for retiring only what it has written |
| `ExitProtocol.ExitsAreRecorded` | crates/persistd/src/holder/reconcile.rs:47-75 | every exit a pass lists has just been written with the code the Holder still has |
| `ExitProtocol.PassKeepsRecordIffCurrent` | crates/persistd/src/holder/reconcile.rs:35-86 | a pass keeps a recorded end exactly when its snapshot does not contradict it |
| `ExitProtocol.OrderlyRunsPersistFirst` | crates/persistd/src/server.rs:2943-3002 | a rule that is enough: over any run with any crashes in which operations on one session do not overlap, every session that left the Holder had its row closed with its exit code before, and still has |
| `ExitProtocol.OnRecordUntilRestored` | crates/persistd/src/server.rs:2943-3002 | and it stays so, through any crashes, until somebody restores the session |
| `ExitRecords.StepRecords` | crates/persistd/src/server.rs:2943-3002 | for every step in every state: what it says in a session's row, if anything, decides what is on record after it |
| `ExitRecords.RecordedIffLastWritten` | crates/persistd/src/server.rs:2943-3002 | for every run from every state: an exit is on record if and only if it is the last thing the run said in the row, or was there before and the run said nothing |
| `ExitRecords.LeavesAsItIs` | crates/persistd/src/server.rs:2974-2988 | a step retires at most one session, with its exit code and its row as they are at that moment |
| `ExitRecords.RetiredIffLastWritten` | crates/persistd/src/server.rs:2943-3002 | in every run a session leaves the Holder with its exit on record if and only if that exit is the last thing said in its row before |
| `ExitRecords.PersistedFirstIffLastWritten` | crates/persistd/src/server.rs:2943-3002 | persist before retire, exactly: a run has it if and only if that is so for every session that left |
| `ExitRecords.StaysIffLastWritten` | crates/persistd/src/server.rs:2943-3002 | afterwards, exactly: it stays on record as long as nothing else is said in the row |
| `ExitRecords.CloseAndCommit` | crates/persistd/src/server.rs:1756-1800 | closing and creating, with any steps in between: on record, at retirement and at any time after, exactly once the row was committed and then the exit written |
| `ExitRecords.CloseAndReopen` | crates/persistd/src/server.rs:2205-2235 | closing and restoring, with any steps in between, whichever of the two sessions the close has seen: its exit is on record from the close on unless the row is reopened after it |
| `ExitRecords.CloseAndPass` | crates/persistd/src/server.rs:215-242 | closing and a pass, with any steps in between: the later of the two row writes decides, and the pass says what its snapshot says |
| `ExitRecords.PassAndReopen` | crates/persistd/src/server.rs:215-242 | a pass and restoring, with any steps in between, whichever of the two sessions the snapshot has seen: what the pass says stands unless the row is reopened after it |
| `ExitRecords.ReopenAlone` | crates/persistd/src/server.rs:2205-2235 | restoring what is already closed and not yet retired, with any steps in between: the old exit is on record exactly until the row is reopened |
| `ExitRaces.ClosedBeforeItsRow` | crates/persistd/src/server.rs:1756-1800 | a run from nothing: closed between creation and commit, a session is retired with nothing on record |
| `ExitRaces.LostAnswer` | crates/persistd/src/server.rs:867-896 | a run in which the answer to a creation is lost and the session is closed before a pass has found it |
| `ExitRaces.ReopenedTooLate` | crates/persistd/src/server.rs:2205-2235 | a run in which the row is reopened between closing and retiring |
| `ExitRaces.PassedTooEarly` | crates/persistd/src/server.rs:215-242 | a run in which the row is reopened between a pass writing it and retiring the session |
| `ExitRaces.StalePassForgetsTheExit` | crates/persistd/src/server.rs:215-242 | runs in which a pass with an old snapshot overwrites a closed row, before the session is retired and after |
| `ExitRaces.SecondCloserRetiresTheNext` | crates/persistd/src/server.rs:2943-3002 | a run in which a second closer retires a session that has been restored since |
| `ExitRaces.SecondCloserWritesTheFirstExit` | crates/persistd/src/server.rs:2943-3002 | a run in which a second closer writes an old exit over a session that has been restored since |
| `ExitRaces.PassWritesTheFirstExit` | crates/persistd/src/server.rs:215-242 | a run in which a pass does |
| `IsoTime.Civil` | crates/persist-metadata/src/store.rs:806-842 | a valid Gregorian date and time of day whose distance from 1970 is the given seconds |
| `IsoTime.MonthAndDay` | crates/persist-metadata/src/store.rs:828-842 | the month is always found within the year, so the fallback is never used |
| `IsoTime.FormatIso` | crates/persist-metadata/src/store.rs:806-850 | the text of that date |
| `IsoTime.DatesAreUnique` | crates/persist-metadata/src/store.rs:806-850 | no other valid date is the same second |
| `IsoTime.StringOrderIsTimeOrder` | crates/persist-metadata/src/store.rs:845-849 | up to the year 9999 texts sort as times do |
| `IsoTime.FourDigitYears` | crates/persist-metadata/src/store.rs:845-849 | that is up to 253402300800 seconds |
| `IsoTime.OrderBreaksInTheYear10000` | crates/persist-metadata/src/store.rs:845-849 | and not one second longer |

## Left out

- The byte codec of Holder frames (`persist_ipc::holder`) is not part of this model: every result holds for an arbitrary encoder that may also fail. Requests arrive decoded, with `None` for a payload that does not decode.
- HolderServers.HolderServer.HandleInventory: pages are sent without their entries.
- HolderServers.HolderServer.AnnounceExit: an exit notice whose payload cannot be encoded stops the source's Holder before anything is queued; here it is a frame that does not fit, and its receiver is dropped.
- The server's own calls of `epoll_ctl` are taken to succeed; a refusal ends the source's Holder or the peer. A new terminal whose descriptor is still registered, or the 2^64th registration, cannot happen; such a creation counts as failed to start, such a peer is not accepted.
- A write reported as larger than its buffer cannot happen and is read as the whole buffer.
- Sessions are values in the runtime's map, and a session's replay ring is its contents; the ring buffer object is proved against the same contents separately. Timestamps, shell pids, state sequence numbers and capabilities are not kept.
- The two passes of `reap_exited` are one loop, and the children found dead are given; a child is named at most once and only while running.
- The log worker's answer to each output chunk is an input of the Holder's model; the queue itself is modelled beside it.
- The Holder's wait call, signals that end it and its return after a shutdown request: a run may end after any event.
- The writers table may keep the entry of an exited session that is retired while a client is attached read-write, and a data peer may speak another minor than the controller; neither is claimed.
- LogQueues.Run: shutting down takes the producer's handle away, so nothing is offered afterwards; the wait on the condition variable is a look that changes nothing.
- File ownership and permission checks of the log and history files, locking, and syncing to disk; a log file that fails validation is an input of the reader.
- CommandHistory.AppendKeepsTheLongestSuffix: a write torn inside one record or inside the rewrite is not considered, because the code does not promise to recover from it.
- Reading the history newest first with an offset and a limit adds nothing to loading it.
- SessionListCodec.Str16RoundTrip: strings above 65535 bytes are cut by the writer and bytes that are not UTF-8 are replaced by the reader; the model cuts them but reads bytes as they are.
- The agent-socket check and the remaining payload codecs of the daemon protocol are single-branch variations of those shown.
- ExitProtocol.OrderlyRunsPersistFirst: leaves out the two rollback paths that close a session after a failed metadata write (crates/persistd/src/server.rs:1797 and 2231), where nothing is persisted by design; the two statements that record a created session (inserted, then running) or a restored one (reopened, then running) are one step.
- DaemonLifecycle.ReportedIdsAreDistinct: creation stops at the last 32-bit id, where the source's counter would overflow.
- Holder generations in metadata rows, notes, tags, pins and locks, and the migration of the table: they take no part in ids or exits.
- The inventory cache of the daemon's Holder client: a pass may work from a snapshot of any age, while a close sees the Holder's own answer at one moment.
