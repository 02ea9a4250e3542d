# Verified model of the agent bridge

The bridge lets tools and agents drive a running game. A Go daemon keeps one
session per game instance, numbers every event into one stream, remembers which
writes have no known outcome, and serves local clients. A Python side restores
recorded entities into a world under guard. This project models the parts whose
guarantees are hardest to see from the code, and proves those guarantees:

- **Event streaming.** `Events` (categories, filters, pages as functions of the
  full history), `EventRing` (the bounded ring and its eviction tables as a
  class), `Follow` and `FollowProof` (`events --follow` as a step machine over
  daemon, link, read loop and consumer), `FollowStart` and `FollowResets` (counts,
  the start of the stream and its restarts), `FollowRuns` (a run that prints what it was to skip), `IpcClient`
  (the bounded client queue as a class, tied to the step machine), `Session`
  (the daemon's reconnect loop against the game server's own ring).
- **Writes without a known outcome.** `Wire` (framing), `Transport` (the control
  client's request path under every schedule), `Routing` (whether a reply finds
  its caller), `Closing` (what the end of a connection means for them), `Ledger` (the persisted ledger as
  a class), `WriteAhead` (crashing runs of the whole protocol), `Reconcile`
  (the pass after a reconnect, against a server whose ledger empties on a
  restart), `LedgerSteps` (the machine's ledger steps are what ledger and pass
  do).
- **Guarded restore.** `Snbt` (the hand-written splitter against a printer),
  `SnbtBlanks` (blanks, stray commas, texts that do not split),
  `Compare` (the snapshot verdict), `Destination` (collisions, clear commands,
  dimension), `Ticks` (what a list of requests does to the game's tick),
  `Restore` (freeze, clear, summon, verify and cleanup, with a failure or
  cancellation at every call and a watchdog at every wait).

Concurrent protocols are step machines: a run is a list of steps, a step that is
not enabled does nothing, and the theorems quantify over all lists. Objects that
the code updates in place are classes with ghost histories. The environment's
choices (a save that fails, a reply that never comes) are `*`; in a restore they
are a schedule fixed in advance, of which the theorems assume nothing, so that a
run under one schedule can be followed too. `dafny verify dfyconfig.toml` checks
everything.

## Where the code does less than it says

Each of these is stated as a lemma or method, with the exact condition under
which the promise holds:

- A full eviction table loses its oldest key when it updates a key it already
  holds, so a follower of the lost key is told that nothing was dropped
  (`EventRing.FullTableForgets`). The table stays exact if and only if it has a
  free slot or the freed slot is the updated key's own
  (`EventRing.RemembersExactly`).
- A category flag of `*`, or one padded with blanks, subscribes to live events
  that no replay page returns (`Events.LiveAgreesWithReplayExact`).
- Dropped live events are counted too low: a count is right if and only if at
  most one event was lost since the last one (`IpcClient.Client.TakeDropped`,
  `IpcClient.TwoDropsCountOnce`). What is conserved is the number of overflows
  (`FollowStart.OverflowsAreCounted`).
- An overflow before the first delivery replays from sequence 0, not from the
  requested cursor, and prints events the follower was told to skip
  (`FollowRuns.EarlyOverflowPrintsBelow`). A number at or below the cursor is
  printed if and only if such a recovery was answered while the ring still held
  a matching event there (`FollowStart.SkipsExactlyUnlessRestarted`). Its marker
  carries `to` 0 and stands for what was evicted up to the page it announces.
- A daemon that restarts within one game run counts its session from 0, and its
  stored cursor falls below the persisted one (`Session.CursorRegresses`). It is
  below if and only if no event from there on was in when the cursor was stored
  (`Session.StoredBelow`, `Session.TargetSession.StoredCursor`); in a first
  connection that is until its 64th event (`Session.FirstConnectionStores`).
- A request id used again in one game run can lose its second entry
  (`WriteAhead.ReusedIdLosesAnEntry`). Claiming an id is safe over everything
  that may follow if and only if no earlier call of it is still open and the
  game's current run has not received it, or will not be asked about it
  (`WriteAhead.ReclaimIsSafeExactly`). So an id may be used again when nothing of
  its first call was sent, and a retry while its entry is recorded is refused and
  always safe. Nothing is lost in a run that claims no id twice
  (`WriteAhead.LossMeansReuse`).
- A watchdog release that takes effect before the clear's own re-freeze is
  undone by it, and a world found running stays frozen: a whole restore that
  ends so is `Restore.LateRefreezeStays`. With working tick commands the world is as
  found if and only if that did not happen (`Restore.PutBack`).
- The control client releases its writer slot before it poisons the connection,
  contrary to its comment; frames stay whole all the same, because the buffered
  writer's first error sticks (`Transport.WireIsWholeFrames`).
- A reply can miss its caller: when an id is used again after its reply arrived,
  and the first caller then leaves without reading it, the second caller's
  registration goes too (`Routing.ACallerIsRobbed`). A step loses a registration
  if and only if it is such a leaving (`Routing.RegistrationIsLostExactly`), and
  callers of different ids never do that to each other
  (`Routing.DifferentIdsRobNobody`).
- An expected dimension of blanks alone turns the dimension check off
  (`Destination.BlankExpectationIsNotChecked`).
- A comma after the last field of an object is read as if it were not there
  (`SnbtBlanks.SplitIgnoresBlanks`).
- A tick answer that contains "not frozen" reads as frozen
  (`Restore.RunningIsReadFrom`).
- A filter category that contains the separator character shares its table key
  with other events (`EventRing.AmbiguousFilter`).

## Model

| member | source | states |
|---|---|---|
| Events.CategorizeExactly | go/internal/protocol/protocol.go:215-235 | which types each category gathers: four name themselves alone, a sample prefix wins over an error suffix, and a category is its own category |
| Events.ReplayIsSubscribed | go/internal/ipc/ipc.go:230-270 | an event a replay page would return is always pushed to a follower started with the same filter |
| Events.LiveAgreesWithReplayExact | go/internal/cli/ops.go:242-248 | the live subscription selects what the replay filter selects if and only if the flag is neither `*` nor a padded known category |
| Events.SelectMembers | go/internal/daemon/daemon.go:914-932 | a selection holds exactly the wanted events of its range, each once, in ascending sequence |
| Events.SelectPrefix | go/internal/daemon/daemon.go:937-947 | a page cut at its limit is exactly the wanted events up to its last event, so `next` can be continued from |
| Events.PageResolves | go/internal/daemon/daemon.go:881-951 | a page is the matching part of what the ring held from the cursor up to the page's boundary, and `next` never runs ahead of it |
| Events.PageFills | go/internal/daemon/daemon.go:937-951 | a page is never longer than its limit, cut only when it is full and a matching event still in the ring lies past it, and otherwise none does |
| EventRing.PairKeyInjective | go/internal/daemon/daemon.go:867-877 | a category and target pair can be read back from its table key while categories hold no separator |
| EventRing.AmbiguousFilter | go/internal/daemon/daemon.go:901-913 | a category with the separator shares a key with an event it does not match |
| EventRing.RememberEvicted | go/internal/daemon/daemon.go:828-846 | one update stores a newer value; a full table first loses an oldest key, unless that key is newer than the update |
| EventRing.RemembersSound | go/internal/daemon/daemon.go:828-846 | whatever a table forgot, every value it still holds is the last eviction of its key |
| EventRing.RemembersExactly | go/internal/daemon/daemon.go:828-846 | an exact table stays exact if and only if it has a free slot or the updated key is its oldest |
| EventRing.FullTableForgets | go/internal/daemon/daemon.go:832-840 | with a full table, evicting a newer event of a recorded key forgets the oldest key although its event is gone |
| EventRing.RecordingKeeps | go/internal/daemon/daemon.go:850-878 | over any eviction history the tables stay sound, and exact while fewer than 256 keys were seen |
| EventRing.RecordIn | go/internal/daemon/daemon.go:850-878 | recording one evicted event extends the recorded history by exactly that event |
| EventRing.TableDecides | go/internal/daemon/daemon.go:901-913 | a table value beyond the cursor is always a genuine eviction of a matching event, and for a complete table the converse holds |
| EventRing.KeyWhenComplete | go/internal/daemon/daemon.go:863-877 | an evicted event is recorded under exactly the kinds of key that it has all parts of |
| EventRing.FilterRing | go/internal/daemon/daemon.go:914-932 | the filter loop yields the matching part of the history after the cursor that is still in the ring |
| EventRing.MakePage | go/internal/daemon/daemon.go:937-951 | the oldest `limit` events are kept, all of them without a limit; `next` is the last of them, an empty page points at the end |
| EventRing.PageHolds | go/internal/daemon/daemon.go:881-951 | a page holds exactly the matching events of the last `bufferSize` past the cursor, in order, up to where it was cut |
| EventRing.EventRing.constructor | go/internal/daemon/daemon.go:104-106 | an empty ring with the default size for a non-positive request |
| EventRing.EventRing.RecordEviction | go/internal/daemon/daemon.go:850-878 | one eviction moves the ring's lower end by one and keeps all three tables in step with the history |
| EventRing.EventRing.Ingest | go/internal/daemon/daemon.go:785-818 | the history grows by one event with the next sequence; the ring stays its last `bufferSize` events |
| EventRing.EventRing.EvictOverflow | go/internal/daemon/daemon.go:805-810 | after eviction the ring is exactly the last `bufferSize` events and every removed one is recorded |
| EventRing.EventRing.EvictedBeyond | go/internal/daemon/daemon.go:901-913 | the answer for a filter is genuine, and exact while its table saw fewer than 256 keys |
| EventRing.EventRing.RecentEvents | go/internal/daemon/daemon.go:881-951 | the page is the first `limit` matching events after the effective cursor among the last `bufferSize`, said of the history alone; it resets exactly for another stream or a cursor ahead of this one; for a filter without the key separator `dropped` is always genuine and exact below 256 keys; it is never set from cursor 0 |
| EventRing.EventRing.Recover | go/internal/cli/ops.go:182-219 | the paging loop ends for finitely many arrivals, resets at most once and exactly for an impossible cursor, prints in order without repeats, misses only evicted events, tells a positive cursor about them, and on a still ring prints the matching suffix |
| EventRing.PageFolds | go/internal/cli/ops.go:182-219 | following `next` joins pages without overlap or hole except for evicted events a flag reports |
| IpcClient.ReadTables | go/internal/daemon/daemon.go:894-913 | reading the tables after the ring was copied gives a flag that is genuine, and exact while the table is complete, for everything evicted by then |
| FollowProof.IngestKeeps | go/internal/daemon/daemon.go:785-818 | ring append and broadcast in one critical section keep the follow invariant |
| FollowProof.AnswerKeeps | go/internal/daemon/daemon.go:882-951 | a page with any flag the tables may give after the ring copy keeps the invariant |
| FollowProof.TakeKeeps | go/internal/ipc/ipc.go:620-630 | swapping the drop counter into the tag keeps the follow invariant, in which every loss is witnessed |
| FollowProof.OfferKeeps | go/internal/ipc/ipc.go:630-639 | enqueueing, or turning the event of a full queue into a drop to be counted, keeps the follow invariant |
| FollowProof.PageKeeps | go/internal/cli/ops.go:182-219 | printing or resetting on a page keeps the follow invariant, in which everything up to the page boundary is settled |
| FollowProof.PollKeeps | go/internal/cli/ops.go:221-265 | taking the counter after a complete replay, to go live or to start a recovery, keeps the follow invariant |
| FollowProof.EventKeeps | go/internal/cli/ops.go:291-312 | handling a queued event, tagged or not, keeps the follow invariant, in which no event is printed twice |
| FollowProof.SignalKeeps | go/internal/cli/ops.go:274-290 | answering a drop signal, even when its count has moved to a tag, keeps the follow invariant |
| FollowProof.StepKeeps | go/internal/cli/ops.go:140-317 | every atomic step of daemon, link, read loop and consumer keeps the invariant |
| FollowProof.NoSilentLoss | go/internal/cli/ops.go:173-317 | in every interleaving with complete eviction tables, a matching event past the start is printed, or evicted and covered by a gap marker that reaches it, before anything past it is printed |
| FollowProof.PrintsExactlyOnce | go/internal/cli/ops.go:182-316 | printed sequences strictly increase across pages, hand-off and recoveries; each line is an ingested event that passes the filter |
| FollowProof.QuietMeansComplete | go/internal/cli/ops.go:266-317 | a drained follower without pending drops has accounted for every matching event, with complete eviction tables |
| FollowStart.OverflowsAreCounted | go/internal/ipc/ipc.go:620-639 | every overflow of the queue is reported by one client marker or still on its way to one, never twice |
| FollowStart.GapsAreGenuine | go/internal/cli/ops.go:182-264 | every gap marker has a cause: a foreign cursor, an overflow no other marker reports, or an evicted matching event past the last delivered one |
| FollowResets.ResetIsReported | go/internal/cli/ops.go:182-202 | a restart from zero is reported if and only if the first answer came from a stream that cannot have given out the cursor: by one marker, ahead of every other line, never again |
| FollowResets.ForeignStartIsReported | go/internal/cli/ops.go:182-219 | a follower of another stream, or one that did not start where its cursor said, has told so first |
| FollowStart.SkipsExactlyUnlessRestarted | go/internal/cli/ops.go:173-265 | something at or below the requested cursor is printed if and only if a recovery restarted from zero while the ring still held it |
| FollowStart.SkipsWithoutEarlyMarker | go/internal/cli/ops.go:173-265 | without a client marker that reports nothing delivered yet, only events past the cursor are printed |
| FollowRuns.EarlyOverflowPrintsBelow | go/internal/cli/ops.go:175-263 | a run exists that prints what its cursor asked to skip: the queue overflows before the first delivery |
| FollowProof.DropEvidenceRemains | go/internal/ipc/ipc.go:575-639 | an unobserved drop is witnessed by a tag on the first later queued event, by the event in hand, or by an announced counter |
| IpcClient.Client.Receive | go/internal/ipc/ipc.go:620-639 | never blocks; queue, counter and token move as the uninterrupted read-loop steps do, and no evidence is lost or invented |
| IpcClient.Client.TakeDropped | go/internal/ipc/ipc.go:583 | the count read is one if anything was lost, so it is right if and only if at most one event was |
| IpcClient.Client.Next | go/internal/ipc/ipc.go:412 | a tag is one if anything was lost just before its event, so it is right if and only if at most one event was |
| IpcClient.ReceiveSteps | go/internal/ipc/ipc.go:620-639 | the four read-loop steps together append a tagged event or count one drop and set the token |
| IpcClient.TwoDropsCountOnce | go/internal/ipc/ipc.go:627-633 | two events dropped in a row are reported as one |
| IpcClient.AnswerIsTheRingsPage | go/internal/daemon/daemon.go:881-951 | the step machine's answer is the ring's page at the moment it was copied, with the flag the tables gave later |
| Session.Server.Push | go/internal/fakemod/fakemod.go:183-212 | numbers the event, keeps the last `ringSize`, and sends it on a live connection |
| Session.Server.Restart | go/internal/fakemod/fakemod.go:154-163 | a new run empties the stream and drops the connection |
| Session.Server.Welcome | go/internal/fakemod/fakemod.go:267-293 | replays exactly the ring after the usable cursor, and reports loss if and only if the cursor was unusable or events after it are gone |
| Session.TargetSession.Connect | go/internal/daemon/daemon.go:334-414 | offers the stored cursor; keeps the sequence within a run and restarts at 0 otherwise, with a restart notice and a gap; without a gap the replay starts right after the cursor; a restart is announced exactly when a known run or a known instance changed |
| Session.TargetSession.Announce | go/internal/daemon/daemon.go:383-411 | a connect notice, a restart notice for another run or instance, a gap when replay was lost; the gap answers for exactly what lies between the cursor and the replay |
| Session.TargetSession.Ingest | go/internal/daemon/daemon.go:421-436 | one event enters the stream in order, after a gap notice exactly when its number jumps |
| Session.TargetSession.Deliver | go/internal/daemon/daemon.go:417-436 | ingests the next event, after a gap notice if its number jumps |
| Session.TargetSession.Disconnect | go/internal/daemon/daemon.go:444-460 | drops what was not read and stores the cursor of the last ingested event |
| Session.TargetSession.CaughtUp | go/internal/daemon/daemon.go:417-436 | a live session with nothing in flight has ingested or reported every event of the run after its start |
| Session.EventKeeps | go/internal/daemon/daemon.go:510-526 | the next event in line keeps strict order and leaves nothing silent |
| Session.RunProcess | go/internal/daemon/daemon.go:314-469 | over any schedule of events, drops, reconnects and restarts, each event is ingested at most once, in order, and every earlier one was ingested or reported first; the stored cursor is below the persisted one if and only if nothing from there on was stored |
| Session.StoredBelow | go/internal/daemon/daemon.go:510-537 | the stored cursor is below a position if and only if no event from there on was in at any store |
| Session.TargetSession.StoredCursor | go/internal/daemon/daemon.go:369-380 | the same at every point of a process, for the cursor it really holds |
| Session.FirstConnectionStores | go/internal/daemon/daemon.go:510-537 | in a first connection the stored cursor is below the offered one exactly until the 64th event |
| Session.CursorRegresses | go/internal/daemon/daemon.go:369-380 | a fresh process in the same run stores cursor 0 if nothing arrives before the link drops |
| Wire.BigEndianRoundTrip | go/internal/control/wire.go:145-146 | a 32-bit length survives encoding |
| Wire.FirstByteCountsMost | go/internal/control/wire.go:145-146 | the length's first byte counts most |
| Wire.DecodeFrame | go/internal/control/wire.go:137-171 | a frame reads back if and only if its payload has 1 to 16 MiB |
| Wire.DecodeCut | go/internal/control/wire.go:157-171 | a frame cut short is never read as a frame |
| Wire.ReadAllInvertsStream | go/internal/control/wire.go:137-171 | whole frames followed by a cut one read back as exactly the payloads, in order |
| Wire.Reader.ReadFrame | go/internal/control/wire.go:157-171 | succeeds exactly on a complete valid frame and leaves the rest of the stream |
| Wire.Reader.ReadFrames | go/internal/control/client.go:501-565 | repeated reading gives every frame before the first error |
| Wire.Writer.Send | go/internal/control/wire.go:137-154 | succeeds exactly while healthy, for a payload of at most 16 MiB that the socket takes whole; otherwise the wire gains what the socket took of the frame and nothing ever after; an oversized payload writes nothing |
| Wire.WireReadsBack | go/internal/control/client.go:358-378 | what a healthy or failed writer left reads back as the sent payloads and perhaps the last one |
| Transport.CallEvolves | go/internal/control/client.go:275-463 | each step keeps every call's classification in line with the bytes it sent |
| Transport.StepKeeps | go/internal/control/client.go:275-585 | every step keeps classification, slot ownership and wire shape |
| Transport.ClassificationIsExact | go/internal/control/client.go:275-463 | a local ending is result-unknown if and only if it is that of a write whose attempt began; a call that never began put nothing on the wire and is retryable unless its id was in flight; one that began is retryable only if it reads and the connection was not lost under it; a reply carries its call's id and follows its whole frame |
| Transport.ClassificationIsSound | go/internal/control/client.go:275-463 | a write reported retryable put nothing on the wire; one that put a byte there ends with a reply that carries its id or as result-unknown with its id |
| Routing.RegistrationIsLostExactly | go/internal/control/client.go:286-469 | a call in flight stays registered under its id until its mail comes, unless an answered caller of the same id leaves |
| Routing.RepliesFindTheirCaller | go/internal/control/client.go:501-533 | in a run without such a leaving, a reply is delivered to the call in flight under its id |
| Routing.DifferentIdsRobNobody | go/internal/control/client.go:286-469 | callers of different ids never take each other's registration |
| Routing.ACallerIsRobbed | go/internal/control/client.go:441-469 | a run after which a caller waits for a reply that nobody will deliver to it |
| Closing.ClosedForGood | go/internal/control/client.go:473-500 | after a close, a poisoned write or the end of the read loop not a byte more goes out, and no further call comes to wait |
| Closing.LateCallersAreTurnedAway | go/internal/control/client.go:288-294 | registering on a stopped connection ends retryable |
| Closing.NobodyWaitsForever | go/internal/control/client.go:452-463 | once the read loop is over, everyone who still waits can leave |
| Closing.EndsComeInOrder | go/internal/control/client.go:473-585 | the read loop ends only on a stopped connection, whose socket is closed |
| Transport.WireIsWholeFrames | go/internal/control/client.go:302-378 | concurrent callers leave whole frames and at most one cut frame; a reader recovers the payloads in order, each of one call that attempted its write, none twice |
| Transport.OneWriter | go/internal/control/client.go:320-370 | no two calls own the writer slot |
| Ledger.KeyInjective | go/internal/daemon/unknown.go:57-59 | a target and request id can be read back from the key while targets hold no separator |
| Ledger.Listing | go/internal/daemon/unknown.go:260-269 | the list is oldest first, holds exactly the chosen entries, and loads back to them |
| Ledger.UnknownWrites.Load | go/internal/daemon/unknown.go:66-97 | the table is what the disk holds, above the cap too; a corrupt file is moved aside and reported; the load fails, unchanged, exactly when the file cannot be read, or is corrupt and cannot be moved |
| Ledger.UnknownWrites.SaveLocked | go/internal/daemon/unknown.go:99-117 | the disk becomes exactly the table, oldest first, or stays as it was |
| Ledger.UnknownWrites.Admit | go/internal/daemon/unknown.go:123-153 | claims exactly when the id is new, fewer than 512 are recorded and the save works; one claimant per id, on disk before it may send; an existing entry is returned unaltered; every refusal changes nothing |
| Ledger.UnknownWrites.NoteUnknown | go/internal/daemon/unknown.go:191-207 | rewrites state and message of an existing entry on disk and in memory, or nothing |
| Ledger.UnknownWrites.MarkUnresolved | go/internal/daemon/unknown.go:210-226 | marks an existing entry on disk and in memory, or nothing |
| Ledger.UnknownWrites.Resolve | go/internal/daemon/unknown.go:229-242 | removes the entry from disk and memory together, or from neither |
| Ledger.UnknownWrites.ForTarget | go/internal/daemon/unknown.go:246-257 | exactly one target's entries, each once, oldest first |
| WriteAhead.ClaimKeeps | go/internal/daemon/daemon.go:633-653 | every claim, saved or not, keeps every unanswered write recorded |
| WriteAhead.SettleKeeps | go/internal/daemon/daemon.go:654-673 | settling any outcome, saved or not, keeps every unanswered write recorded |
| WriteAhead.ReportKeeps | go/internal/daemon/daemon.go:688-766 | a status report, even one acting on a stale copy, keeps every unanswered write recorded |
| WriteAhead.UnansweredWritesAreRecorded | go/internal/daemon/daemon.go:605-673 | over all runs with crashes, reloads, failed saves, restarts of any target's game, refused retries, reuse of ids that were never sent, and overlapping passes, every unanswered write that was handed over is on disk, and memory equals disk while the daemon is up |
| WriteAhead.ReclaimIsSafeExactly | go/internal/daemon/daemon.go:571-766 | claiming an id keeps the promise over everything that may follow if and only if no earlier call of it is open and the game's run has not received it, or is not asked about it |
| WriteAhead.LosingSteps | go/internal/daemon/daemon.go:654-766 | any other claim has a continuation that loses its entry while it is unanswered |
| WriteAhead.FreshIdsAreSafe | go/internal/daemon/daemon.go:605-653 | an id that was never claimed may be claimed |
| WriteAhead.LossMeansReuse | go/internal/daemon/daemon.go:605-673 | whatever happens, an unanswered write can only be lost if some id was claimed twice |
| WriteAhead.CrashAndRestart | go/internal/daemon/unknown.go:66-97 | a crash takes calls and passes along, and the restarted daemon has the table that is on disk |
| WriteAhead.ReusedIdLosesAnEntry | go/internal/daemon/daemon.go:688-766 | an explicit run: an id is claimed, sent, answered and claimed again in one game run while a pass holds the first copy, and the second entry is lost while its call is unanswered |
| LedgerSteps.Claim | go/internal/daemon/daemon.go:571-653 | admission in the ledger object is the machine's claim step for the run that was read before it, and claims exactly when that takes effect |
| LedgerSteps.Settle | go/internal/daemon/daemon.go:654-673 | resolving or noting in the ledger object is the machine's settle step |
| LedgerSteps.Report | go/internal/daemon/daemon.go:700-765 | one entry of a pass is the machine's report step, and an enabled one: a final answer is about a copy of the current run and an id the game received |
| Reconcile.GameServer.StartWrite | go/internal/fakemod/fakemod.go:386-395 | a completed id is answered again from the ledger, any other one becomes pending |
| Reconcile.GameServer.CompleteWrite | go/internal/fakemod/fakemod.go:456-469 | a finished write is recorded as completed in this run's ledger |
| Reconcile.GameServer.RequestStatus | go/internal/fakemod/fakemod.go:481-496 | a state answer comes only from the run the connection belongs to |
| Reconcile.DecideExactly | go/internal/daemon/daemon.go:725-763 | completed and failed remove; unknown, an incapable server and one that does not find it mark, with everything else about the entry as it was; pending, any other failure and any other answer change nothing |
| Reconcile.ActOn | go/internal/daemon/daemon.go:725-765 | an answer has exactly that effect, if its save works |
| Reconcile.ReconcileEntry | go/internal/daemon/daemon.go:700-765 | an entry is asked about unless run, instance or credential contradict, and is then marked; it is removed only when the same run reported its id final; each answer has its effect on this entry alone |
| Reconcile.SettledStep | go/internal/daemon/daemon.go:688-766 | handling one entry settles it and leaves every other entry's fate as it was |
| Reconcile.ReconcileUnknown | go/internal/daemon/daemon.go:688-780 | over a whole pass each entry of the target gets what its own answer or scope says, all of them are reached while there is an adapter, nothing is added, other targets are untouched, and only status queries are sent |
| Snbt.ScannerAdvances | src/mc_agent_bridge/restore.py:504-539 | the scanner stays in bounds and advances if and only if it does not stand on a delimiter |
| Snbt.SkipString | src/mc_agent_bridge/restore.py:509-518 | ends just past the closing quote, escapes skipped, or at the end of the text |
| Snbt.SkipNested | src/mc_agent_bridge/restore.py:519-535 | ends just past the matching bracket, brackets in strings not counted |
| Snbt.SkipValue | src/mc_agent_bridge/restore.py:504-539 | ends just past one value |
| Snbt.SplitField | src/mc_agent_bridge/restore.py:475-500 | takes one field and its separator, or refuses where the code returns nothing |
| Snbt.SplitTopLevel | src/mc_agent_bridge/restore.py:462-501 | the loop computes the fields of the body |
| Snbt.ValuePrinted | src/mc_agent_bridge/restore.py:504-539 | scanning a printed value consumes exactly that value |
| Snbt.SplitInvertsPrint | src/mc_agent_bridge/restore.py:462-501 | splitting a printed compound gives exactly its keys and printed values, in order |
| Snbt.StripPrints | src/mc_agent_bridge/restore.py:542-557 | stripping keys is printing the compound without those fields |
| Snbt.StripIsIdempotent | src/mc_agent_bridge/restore.py:542-557 | stripping the same keys again changes nothing |
| Snbt.FragmentIsTopLevel | src/mc_agent_bridge/restore.py:560-584 | the inventory text is the printed top-level container, never a nested one |
| SnbtBlanks.SplitIgnoresBlanks | src/mc_agent_bridge/restore.py:462-501 | blanks between tokens and around the object, and a comma after the last field, change nothing in what is split |
| SnbtBlanks.FieldRebuilds | src/mc_agent_bridge/restore.py:475-500 | whatever is taken for a field is a quoted key that decodes, a colon, the value's own text and a comma or the end, with blanks between |
| SnbtBlanks.FragmentFallsBack | src/mc_agent_bridge/restore.py:575-584 | in a text that does not split the fragment is the container after the first place where the quoted key and a colon stand |
| SnbtBlanks.FragmentNeedsItsKey | src/mc_agent_bridge/restore.py:575-584 | without such a place there is none |
| Compare.Subsequence | src/mc_agent_bridge/restore.py:602-607 | true if and only if an order-preserving embedding exists |
| Compare.GreedyDecides | src/mc_agent_bridge/restore.py:602-607 | taking the first match every time finds an embedding whenever there is one |
| Compare.ViewOf | src/mc_agent_bridge/restore.py:591-599 | each non-empty identity with its first record, and nothing else |
| Compare.Malformed | src/mc_agent_bridge/restore.py:644-673 | true if and only if a destination record is unreadable or an identity repeats |
| Compare.CountKinds | src/mc_agent_bridge/restore.py:675-687 | the counters are the multiset of type names |
| Compare.ComparePairs | src/mc_agent_bridge/restore.py:697-762 | each field flag is set if and only if some paired records differ in that field |
| Compare.PairsAreFirsts | src/mc_agent_bridge/restore.py:697-702 | the pairs compared are exactly the first records of each shared identity |
| Compare.StrictDecides | src/mc_agent_bridge/restore.py:764-793 | in a readable destination, equal identity lists without a differing pair are the strict promise, and the other strict flags follow |
| Compare.LenientDecides | src/mc_agent_bridge/restore.py:793-803 | in a readable destination, an embedding without a differing pair is the lenient promise |
| Compare.StrictImpliesLenient | src/mc_agent_bridge/restore.py:791-803 | a strict match is also an ordered appearance |
| Compare.CompareSnapshots | src/mc_agent_bridge/restore.py:610-851 | the strict verdict is exact sameness with the dimension, the lenient one ordered appearance with it; every flag means what it is named for |
| Compare.DistanceIsEuclidean | src/mc_agent_bridge/restore.py:704-727 | the distance along an axis is how far it goes, and the axes add up as sides of right angles |
| Compare.WhatIsRequired | src/mc_agent_bridge/restore.py:704-745 | a velocity that was not recorded is not looked for, a recorded one must be there, and a position must be on both sides or neither |
| Compare.WhatDiffers | src/mc_agent_bridge/restore.py:698-760 | a type that differs is a difference, and so is any text if none is ignored |
| Compare.VelocityIsMeasured | src/mc_agent_bridge/restore.py:728-745 | recorded and found velocity agree exactly up to the tolerance |
| Compare.RecordingIsItself | src/mc_agent_bridge/restore.py:610-851 | a readable recording of different identities is the same as itself |
| Destination.RestorePlan | src/mc_agent_bridge/restore.py:293-318 | records are summoned or skipped by their flag, each exactly once, in order |
| Destination.Collisions | src/mc_agent_bridge/restore.py:864-922 | exactly the entities with a recorded identity, or a recorded type near its place, each counted once |
| Destination.WhatCollides | src/mc_agent_bridge/restore.py:864-922 | a recorded identity that is not empty, or a place within the radius of a recorded one of the same type |
| Destination.DimensionPasses | src/mc_agent_bridge/restore.py:1046-1078 | passes if and only if the destination reports what the caller expects, whatever was recorded, or without a word from the caller what was recorded, if anything |
| Destination.BlankExpectationIsNotChecked | src/mc_agent_bridge/restore.py:1061-1064 | an expectation of blanks alone is no expectation, and keeps the recorded dimension from being one |
| Destination.AnythingNear | src/mc_agent_bridge/restore.py:370-396 | true if and only if anything at all stands near a recorded position |
| Destination.ClearCommands | src/mc_agent_bridge/restore.py:399-434 | every command is aimed at a leftover; every leftover with a place has a command of its type there and one for the items it may have dropped; no command is repeated |
| Destination.HowFar | src/mc_agent_bridge/restore.py:399-434 | how far a kill reaches, and a kill of drops |
| Destination.ClearReaches | src/mc_agent_bridge/restore.py:399-434 | despite two roundings, every colliding entity with a position is hit by a command |
| Destination.ClearIsNarrow | src/mc_agent_bridge/restore.py:399-434 | whatever is hit stands within reach of a leftover and has its type, or is a dropped item |
| Ticks.SteadyStretch | src/mc_agent_bridge/daemon.py:684-867 | calls without a tick command, in a world held still before them, find it still all the way |
| Restore.RunningIsReadFrom | src/mc_agent_bridge/restore.py:1085-1098 | running is read from one phrase only; "not frozen" reads as frozen |
| Restore.UnreadableIsRefused | src/mc_agent_bridge/restore.py:1085-1098 | a text that names neither state is not read as either |
| Restore.Restore.CallMod | src/mc_agent_bridge/daemon.py:1094-1114 | a call is marked steady only if the world was frozen before and after it and no watchdog fired |
| Restore.HeldStillHolds | src/mc_agent_bridge/daemon.py:684-867 | commands that leave the world held before the baseline and after the clear keep it still for all evidence |
| Restore.Restore.WaitWith | src/mc_agent_bridge/daemon.py:1094-1114 | a watchdog that stays silent changes nothing; once it fired that is recorded for good; its release lets the world go after the commands sent so far |
| Restore.Restore.ResolvePrior | src/mc_agent_bridge/daemon.py:1047-1073 | the caller's word, or what the query says, exactly when it can be read; otherwise a refusal; at most a query is sent |
| Restore.Restore.Hold | src/mc_agent_bridge/daemon.py:689-698 | a running world gets exactly one freeze, with the watchdog armed over it; success means the world is held |
| Restore.Restore.ClearWindow | src/mc_agent_bridge/daemon.py:740-752 | success means exactly one unfreeze, all clear commands, the flush and one freeze were sent, in this order |
| Restore.Restore.Recheck | src/mc_agent_bridge/daemon.py:754-774 | passes exactly when the second look can be read, nothing in it collides, and nothing of any type stands at a recorded place |
| Restore.Restore.Clear | src/mc_agent_bridge/daemon.py:734-774 | after a clear nothing collides or stands in the way any more, and all kills were aimed at collisions |
| Restore.Restore.TakeBaseline | src/mc_agent_bridge/daemon.py:702-724 | goes on exactly when the baseline came, can be read, and reports the wanted dimension; its contents decide about collisions |
| Restore.Restore.CheckDestination | src/mc_agent_bridge/daemon.py:702-780 | a restore goes on only in the wanted dimension and, with duplicate checking, without a collision in the last snapshot taken, after exactly the baseline, the clear if one was needed, and its second look |
| Restore.Restore.Prepare | src/mc_agent_bridge/daemon.py:684-789 | the exact list of requests before the first summon, with the tick state it may rely on, or a refusal |
| Restore.Restore.SummonAll | src/mc_agent_bridge/daemon.py:813-834 | summons go out once and in order, up to a cancellation or the first failure unless told to go on; exactly those failed whose own request raised |
| Restore.Restore.MarkMissing | src/mc_agent_bridge/daemon.py:853-865 | exactly the attempted items that are absent from the check snapshot are added to the failures |
| Restore.Restore.Verify | src/mc_agent_bridge/daemon.py:836-867 | the verification is the comparison's verdict about what the check snapshot showed, and an unreadable check is a failed one |
| Restore.Restore.EvidenceHeld | src/mc_agent_bridge/daemon.py:684-867 | with exactly these requests the world was held still for every call from the baseline to the check, the clear apart |
| Restore.Restore.StopWatchdog | src/mc_agent_bridge/daemon.py:1075-1092 | afterwards no watchdog is asleep, and a silent one has changed nothing |
| Restore.Restore.ReturnedIsPutBack | src/mc_agent_bridge/daemon.py:689-878 | with exactly the tick commands that are due, the world is as found unless the clear froze it again over the watchdog's release |
| Restore.Restore.Release | src/mc_agent_bridge/daemon.py:870-878 | the bridge's own freeze is undone by one unfreeze unless the watchdog fired, and nothing else is sent; the world is as found exactly when no clear froze it over the watchdog's release |
| Restore.Restore.Abort | src/mc_agent_bridge/daemon.py:790-811 | from any point the preparation can fail at, the tick commands that are due are sent, the world is put back as far as that allows, and the area is let go where the caller asked for it |
| Restore.Restore.Run | src/mc_agent_bridge/daemon.py:678-926 | success means all summons worked, the check snapshot matched, nothing collided in the last look before, the watchdog was silent, exactly the due requests were sent, the world was held still from the baseline to the check, the clear apart, and is as found; every exit sends the tick commands that are due; every kill was aimed at a collision; and when nothing goes wrong, a restore is refused exactly for an unfit destination and succeeds exactly when everything is there and matches |
| Restore.LateRefreezeStays | src/mc_agent_bridge/daemon.py:684-878 | a whole restore of one record over a colliding destination, in which nothing fails and the watchdog lets go inside the clear, leaves a world frozen that was found running |

## Left out

- TLS, certificate pins, sockets, deadlines and clocks: only cancelled, failed after n bytes, and ended remain, as choices of the environment.
- JSON encoding, hashes, file permissions and directory syncing: payloads and event contents are opaque, and a rename is atomic.
- Webhook forwarding, configuration, discovery, command-line parsing, doctor, release tools, world copying: plumbing.
- The legacy line transport: a late reply reaches the next caller there, so the ledger's guarantees do not extend to it.
- The Python event buffer and `followEvents`: they do not have the paging and recovery properties proved here.
- IEEE arithmetic and number formatting in the restore: coordinates are reals, distances are compared squared, and rounding to three decimals is a parameter.
- Message texts, hints, report samples and the order of equal timestamps in a listing.
- Unicode blanks beyond the ASCII ones when a flag or an SNBT text is trimmed, and case folding of tick output.
- The JSON decoder of SNBT keys and the reading of a motion out of NBT text: they are parameters; the printer theorems ask that an escape-free key decodes to itself.
- Records that are no JSON objects: the comparison raises before it reaches its verdict, and restore reports the verification as failed.
- Reading of recordings, validation issues, endpoint proofs and dry runs of a restore: they end before the first tick command.
- `Record` of the ledger: nothing but its own tests calls it.
- Dial-time failures of a session and the reconciliation call inside the loop: neither moves a cursor or a sequence.
- Frames that the fake server's concurrent pushes would interleave with a replay, and a restart in the middle of a handshake: a connection carries its replay and then its live events in order.
- The server side's per-client send queue: a client it cannot keep up with is disconnected, which the follow machine allows at any time.
- Calls refused before they register (a malformed id, a missing capability) and the remote adapter, which hands calls and events on unchanged.
- EventRing.EventRing.EvictedBeyond: the eviction tables are read in one step; that the ring may have moved on since it was copied is in `IpcClient.ReadTables` and the step machine.
- FollowProof.NoSilentLoss: asks that the eviction tables are complete (fewer than 256 keys of the filter's kind were evicted) and that the filter's category holds no separator, because a full table forgets.
- WriteAhead.UnansweredWritesAreRecorded: asks that claims which take effect are of reclaimable ids; `WriteAhead.ReclaimIsSafeExactly` shows that nothing weaker will do.
- LedgerSteps.Report: asks that every game run has an id of its own, and that target names hold no separator; an entry or a server without a run id passes every scope test.
- Reconcile.GameServer.RequestStatus: an old connection that the fake server has not closed yet could be answered out of the new run's ledger; here the restart and the closing are one step.
- Session.RunProcess: is about one daemon process and run ids that are not reused; a restarted process may ingest again what its predecessor did.
- A write deadline that cannot be set: it ends a call as a context cancelled before the write does.
- Restore.Restore.Run: tick claims ask that the prior state was reported and read correctly and that tick commands took effect when they replied.
