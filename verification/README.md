# Session, match, room and pool logic of a card-game backend, in Dafny

The system is a set of Go services around a player's session. Gateways hold client
connections. SessionSvr keeps one session per player: the gateway the player is on, a few
connection tags, and the time of disconnection. It journals its changes and takes
snapshots. MatchSvr queues players and places matches, RoomSvr keeps rooms, and a
connection pool ties the services together.

The project models that logic and proves what holds of every run of it.

| file | contents |
|---|---|
| `Wrappers.dfy` | small shared notions |
| `Sessions.dfy`, `Replay.dfy` | one player's session under the live handlers and under replay, which are different code; when the two agree |
| `Recovery.dfy`, `RecoveryLimits.dfy` | SessionSvr with its disk as a state machine: handlers, expiry, each disk change of a snapshot, a crash anywhere; the exact conditions and the runs that show them |
| `SessionServer.dfy` | the same handlers as methods on objects, proved equal to the functions above |
| `Journal.dfy`, `TornWrite.dfy` | journal framing in bytes, torn writes, the store object; bytes to sessions |
| `Gateways.dfy`, `Protocol.dfy` | a gateway's callbacks; SessionSvr and any number of gateways over a network that reorders messages freely |
| `ServerAnswers.dfy` | what the server object sends is what the protocol answers |
| `Exchange.dfy`, `Handshake.dfy` | termination of exchanges, gateway switches, the reconnect handshake |
| `Connections.dfy` | what becomes of a connection: registration, the retry queue, tags that travel with the player |
| `Persisted.dfy` | the gateway protocol over SessionSvr's disk: the two machines together |
| `Matchmaking.dfy`, `Directory.dfy`, `MatchQueue.dfy`, `MatchServer.dfy` | load index, placement balance, the match directory, queue conservation; the handlers |
| `Rooms.dfy`, `RoomServer.dfy` | room structure, what members are told, membership from the requests alone; the handlers |
| `PoolEntries.dfy`, `PoolSync.dfy` | reconnect loops, removal, backoff, Sync alone and interleaved; the pool object |

`dafny verify dfyconfig.toml` checks the whole project.

## How the model relates to the code

* Code that changes fields in place is a class whose methods are proved equal to a pure
  function of the old state. Whole-run results are proved about those functions.
* A handler is one atomic step. In the source a session handler appends to the journal
  after it releases the session's lock (`session_router.go:62-64`), and the match and room
  handlers load and then store in a `sync.Map`.
* A snapshot is five steps, because the source captures the state before it takes the
  store's lock (`store.go:142` against `store.go:155`). Handlers may run between them.
* The clock is positive and never goes back.
* A nil tag map and an empty one are the same value. Both encodings drop empty maps.
* Map iteration order is open: a method that walks a map returns its walk as a ghost
  sequence, and the results hold for every walk.
* JSON entries are assumed to decode to what was encoded; a proper prefix of an entry not
  to decode; and neither a piece of an entry nor a whole one to decode when another entry
  follows on the same line (`Journal.Codec`). Every entry is one JSON object, so an object
  left open stays open, and a string left open ends at the first quote of the next entry,
  in front of a bare word. By section 7 of RFC 8259 an encoded entry has no raw newline byte.
* A gateway's `up` flag says whether the registry finds a connection to SessionSvr.
  Gateway IDs are distinct and not empty. `Protocol` follows one player with a non-zero ID.
* The force-leave and reconnected handlers of RoomSvr and MatchSvr are modelled, although
  the two entry points do not register their message IDs.

## Where the code keeps and misses what it promises

* `store.go:10-12` and `store.go:33` ask for an idempotent replay. For every table and every
  journal a second replay gives the same players, gateways and timestamps
  (`Recovery.ReplayIsIdempotent`). Tags can differ: a disconnect that is stale the first time
  may bring in its tags the second time (`ReplayFacts.SecondReplayMayAddTags`). Tags are the
  same if and only if the journal's last word on them is what the session has, or it has none
  and no disconnect gets to add some (`Recovery.ReplayIsIdempotentIff`). Gateways send tags
  with saves only, and then replay is idempotent without exception
  (`ReplayFacts.GatewayReplayIsIdempotent`).
* Recovery does not always agree with the live table. Each way has a run and its exact
  condition:
  a disconnect that finds no session is journaled and not replayed (`OrphanDisconnectIsLost`,
  `DisconnectKeepsAgreementIff`);
  an entry appended between capture and rotation is dropped (`SaveDuringSnapshotIsLost`,
  `RotationKeepsAgreementIff`);
  a save without tags clears tags live and not in replay (`ClearedTagsComeBack`,
  `SaveKeepsTagsIff`);
  expiry is not journaled (`ExpiredSessionIsResurrected`, `ExpiryPartsTablesIff`).
* A torn last line is never trimmed. Appends after it are read back if and only if the crash
  left no byte of it (`Journal.AppendsAfterCrashSurviveIff`); one byte is enough to lose them
  all (`Journal.OneTornByteLosesNextEntry`).
* `reconnectMaxBackoff` is 5 s, but the backoff is above it from the fifth failure on, or the
  third for an entry of Dial's (`PoolRuns.BackoffCountsFailures`), with peaks of 6.4 s and 8 s
  (`PoolRuns.BackoffPassesItsMaximum`).
* `healthy` does not mean that the connection is alive (`PoolRuns.HealthyEntryMayBeDead`,
  `PoolRuns.StepKeepsRoutesLiveIff`).
* A connection that opens while the session is not marked disconnected clears its tags
  (`Handshake.TagsSurviveIff`).

## Model

| member | source | states |
|---|---|---|
| Sessions.ReplayIsPerPlayer | apps/sessionsvr/internal/router/persist.go:92-147 | replaying a journal over a table is, for each player, replaying that player's own entries over their own session: no entry reaches another player |
| Sessions.ScanKeepsIff | apps/sessionsvr/internal/router/expiry.go:24-60 | a scan keeps exactly the sessions that are connected or marked less than 120 seconds ago, unchanged |
| ReplayFacts.AcceptedKeepsSound | apps/sessionsvr/internal/router/session_router.go:50-160 | after any accepted message that is not a disconnect for an unknown player, the live session and the replayed one still agree on gateway and timestamp, and the replayed one is what the last entry left |
| ReplayFacts.SetterForgetsBase | apps/sessionsvr/internal/router/persist.go:98-145 | a journal that holds a save or a reconnect gives the same gateway and timestamp whatever session it is replayed over |
| ReplayFacts.DownsSettle | apps/sessionsvr/internal/router/persist.go:110-130 | disconnects replayed over a session that has the gateway they end with leave it there, at the time they gave the first time if they gave any |
| ReplayFacts.EntryTwice | apps/sessionsvr/internal/router/persist.go:92-147 | one entry replayed twice is exactly one entry replayed once |
| ReplayFacts.ReplayTwice | pkg/persist/store.go:33 | for every session and every journal a second replay neither adds nor drops the session and changes no gateway or timestamp |
| ReplayFacts.ReplayTwiceIsSameIff | pkg/persist/store.go:33 | the second replay gives the same session, tags included, if and only if the journal's last tags are the session's, or it has none and the session does or every tagged disconnect is stale |
| ReplayFacts.GatewayReplayIsIdempotent | pkg/gateway/reconnect.go:112-127 | if only saves carry tags, as gateways send them, replay is idempotent on every journal |
| ReplayFacts.SecondReplayMayAddTags | apps/sessionsvr/internal/router/persist.go:117-126 | an input: a disconnect that is stale the first time adds its tags the second time |
| ReplayFacts.Rebase | pkg/persist/store.go:10-12 | replaying a journal over any session that agrees with what it gave agrees with it again, whatever it was written on top of |
| ReplayFacts.AcceptedKeepsTags | apps/sessionsvr/internal/router/session_router.go:56-62 | an accepted message keeps live and replayed tags equal, if a save without tags finds none in the journal or under it |
| ReplayFacts.RebaseTags | pkg/persist/store.go:10-12 | replaying the journal over the live session gives its tags back, if no save cleared tags that are in the journal |
| Recovery.StepKeeps | pkg/persist/store.go:141-179 | every handler, expiry, clock, snapshot and crash step keeps the recovery invariant of a player, if it is not one of the two steps that can lose an update of theirs |
| Recovery.StepKeepsTags | pkg/persist/store.go:141-179 | every such step keeps the tag invariant, if it is not a save that clears tags that are on disk |
| Recovery.CrashRecovery | apps/sessionsvr/internal/router/persist.go:58-147 | after any run, a crash at that point recovers every live player's gateway and timestamp and resurrects only sessions past their TTL; the run may lose nothing of this player's in the two known ways |
| Recovery.CrashRecoveryOfTags | apps/sessionsvr/internal/router/persist.go:99-108 | if also no save without tags found some of the player's on disk, the whole session is recovered |
| Recovery.ReplayIsIdempotent | pkg/persist/store.go:10-12 | for every table and every journal, replaying the journal a second time gives the same players with the same gateways and timestamps |
| Recovery.ReplayIsIdempotentIff | pkg/persist/store.go:10-12 | a player's whole session is the same after the second replay if and only if the journal keeps the tags it gave them |
| Recovery.SnapshotWindowIsHarmless | pkg/persist/store.go:141-179 | a crash between renaming the snapshot and removing the journal: over any table that agrees with what the journal gave, replaying it keeps gateways and timestamps and resurrects only what is past its TTL |
| Recovery.SnapshotWindowKeepsTags | pkg/persist/store.go:141-179 | and gives whole sessions back in runs that cleared no tags that are on disk |
| Recovery.ScanMergesRecoveredAndLive | apps/sessionsvr/internal/router/expiry.go:24-60 | one scan at any later time gives the recovered and the live table the same players, gateways and timestamps |
| Recovery.MarkHasProvenance | apps/sessionsvr/internal/router/session_router.go:97-118 | in every run that lost nothing of the player's, crashes included, a session carries a disconnect mark if and only if the last accepted message of its player was a disconnect, from the gateway it names and at that time |
| Recovery.MarkHasProvenanceWithoutCrash | apps/sessionsvr/internal/router/session_router.go:50-160 | without crashes the same holds in every run |
| RecoveryLimits.DisconnectKeepsAgreementIff | apps/sessionsvr/internal/router/persist.go:110-114 | a disconnect keeps live and recovered in agreement if and only if the player has a session, or recovery would resurrect one that this gateway's disconnect applies to |
| RecoveryLimits.RotationKeepsAgreementIff | pkg/persist/store.go:155-176 | removing the journal keeps agreement if and only if the player has no entry since the capture; or has a session and the snapshot says what the last of those entries says; or has none and the snapshot has none or a disconnected one |
| RecoveryLimits.SaveKeepsTagsIff | apps/sessionsvr/internal/router/persist.go:104-106 | a save keeps live and recovered tags equal if and only if it carries tags or recovery has none to keep |
| RecoveryLimits.NoTagsOnDiskIff | apps/sessionsvr/internal/router/persist.go:104-106 | when only saves carry tags, no tags on disk is the same as no tags in the session recovery would give |
| RecoveryLimits.ExpiryPartsTablesIff | apps/sessionsvr/internal/router/expiry.go:37-57 | a visit of the scanner to a live player parts the live and the recovered table if and only if the session is expired, and what recovery keeps is then expired too |
| RecoveryLimits.OrphanDisconnectIsLost | apps/sessionsvr/internal/router/session_router.go:97-123 | a run: a first disconnect leaves a live session that recovery does not restore |
| RecoveryLimits.SaveDuringSnapshotIsLost | pkg/persist/store.go:142-168 | a run: a save between capture and rotation is lost |
| RecoveryLimits.ExpiredSessionIsResurrected | apps/sessionsvr/internal/router/expiry.go:46 | a run: an expired and deleted session comes back, still expired |
| RecoveryLimits.ClearedTagsComeBack | apps/sessionsvr/internal/router/session_router.go:60 | a run: tags cleared by a save come back |
| RecoveryLimits.ReturnInTime | apps/sessionsvr/internal/router/session_router.go:17 | runs for every time: a player who comes back 119 seconds after the mark, with the scanner just gone by, gets the session with its tags |
| RecoveryLimits.ReturnTooLate | apps/sessionsvr/internal/router/expiry.go:31-46 | runs for every time: at 120 seconds the scan has deleted the session and a reconnect changes nothing |
| RecoveryLimits.WholeSnapshotIsExact | pkg/persist/store.go:141-179 | a snapshot that nothing interrupts leaves exactly the live table on disk, tags included, whatever was there before |
| SessionServer.SessionCell.SetSaved | apps/sessionsvr/internal/router/session_router.go:58-62 | the locked part of a save replaces gateway and tags and clears the mark |
| SessionServer.SessionCell.SetAttached | apps/sessionsvr/internal/router/session_router.go:139-145 | the locked part of a reconnect, and of a replayed save, keeps the old tags when none come with it |
| SessionServer.SessionCell.SetDown | apps/sessionsvr/internal/router/session_router.go:99-118 | a disconnect is refused exactly when it is stale; otherwise gateway and tags are filled in only if missing |
| SessionServer.Server.Overwrite | apps/sessionsvr/internal/router/session_router.go:56-62 | on the player's own session object, a save's locked section; no other object changes |
| SessionServer.Server.Reattach | apps/sessionsvr/internal/router/session_router.go:138-152 | a reconnect's locked section, with the gateway before and the session after |
| SessionServer.Server.Down | apps/sessionsvr/internal/router/session_router.go:97-118 | a disconnect's locked section: refused exactly when stale |
| SessionServer.Server.HandleSave | apps/sessionsvr/internal/router/session_router.go:50-68 | the table changes as `Handle` says, the entry is journaled, no other session object is touched |
| SessionServer.Server.HandleGet | apps/sessionsvr/internal/router/session_router.go:70-89 | every request is answered, for an unknown player with an empty session; nothing changes |
| SessionServer.Server.HandleDisconnect | apps/sessionsvr/internal/router/session_router.go:91-126 | the table changes as `Handle` says and the entry is journaled exactly when it is accepted |
| SessionServer.Server.HandleReconnect | apps/sessionsvr/internal/router/session_router.go:128-176 | the same for reconnects, with the reply and, exactly when the gateway changed, the invalidation of the old one |
| SessionServer.InvalidationNamesTheLeft | apps/sessionsvr/internal/router/session_router.go:146-175 | an invalidation for x is sent if and only if the session was with x and x is neither empty nor the new gateway; the reply comes first and carries the new session |
| SessionServer.Server.Visit | apps/sessionsvr/internal/router/expiry.go:25-59 | a visit deletes exactly an expired session and sends its notices |
| SessionServer.NoticesSay | apps/sessionsvr/internal/router/expiry.go:42-95 | exactly which notices a session's end causes, field by field: the match and the room's key, and the queue of the match type |
| SessionServer.Server.ScanExpired | apps/sessionsvr/internal/router/expiry.go:24-60 | a pass in any order deletes exactly the expired sessions, visits each player once, and sends exactly their notices in that order |
| SessionServer.PassSendsIff | apps/sessionsvr/internal/router/expiry.go:24-60 | a pass sends a message if and only if it is a notice of a visited player whose mark is 120 seconds old or older |
| SessionServer.Server.Snapshot | apps/sessionsvr/internal/router/persist.go:58-73 | the captured state is the table |
| SessionServer.Server.LoadSnapshot | apps/sessionsvr/internal/router/persist.go:75-90 | loading lays the snapshot over the table with new session objects |
| SessionServer.Server.ReplayOne | apps/sessionsvr/internal/router/persist.go:92-147 | one entry changes the table as `ReplayEntry` says |
| SessionServer.Recover | pkg/persist/store.go:95-107 | a new server that loads the snapshot and replays the journal holds exactly the table the recovery results speak of |
| Journal.ScanLines | pkg/persist/store.go:242-256 | the scanning loop reads the lines of `ScanAll`: carriage returns cut, empty lines skipped, stopped by a line of 64 KiB or more |
| Journal.FindNewline | pkg/persist/store.go:242-244 | finds the first newline, or the end |
| Journal.LinesAreClean | pkg/persist/store.go:244-251 | every line read is non-empty, has no newline and is below the limit |
| Journal.ScanPastFrame | pkg/persist/store.go:242-256 | whole entries are read first and unchanged, whatever bytes follow them |
| Journal.ScanReturnsEntriesIff | pkg/persist/store.go:122-138 | appended entries are read back exactly if and only if each is non-empty, has no newline, no trailing carriage return and is below the limit |
| Journal.ScanStopsAt64K | pkg/persist/store.go:242-262 | an entry of 65535 bytes is read and the scan goes on; one of 65536 loses itself and everything after it |
| Journal.ScanOfPrefix | pkg/persist/store.go:232-266 | any byte prefix reads as the wholly written entries and at most one more line, which is a prefix of the next entry |
| Journal.AppendAfterTornTail | pkg/persist/store.go:110 | an append after a torn line is read glued to it; later ones are read normally |
| Journal.TornAppendIsAllOrNothing | pkg/persist/store.go:122-138 | a crash at any byte of an append replays as the journal without the entry or with it |
| Journal.AppendsAfterCrashSurviveIff | pkg/persist/store.go:232-266 | appends made after a crash are read by the next recovery if and only if the crash left no byte of a torn entry; otherwise replay stops there and reads none of them, also when the glued line is too long for the scanner |
| Journal.OneTornByteLosesNextEntry | pkg/persist/store.go:110 | an input: one byte of a save and then a whole disconnect replay as nothing |
| Journal.TornBraceIsGlued | pkg/persist/store.go:244-251 | an input in bytes: an opening brace and an object appended after it are one line |
| Journal.Store.constructor | pkg/persist/store.go:109-115 | opening keeps the journal's bytes, torn tail included, or creates an empty one |
| Journal.Store.Append | pkg/persist/store.go:122-138 | succeeds exactly on an open store whose whole line is written; then a journal that frames a list frames the longer list; a short write leaves that much of the line, and later appends fail without writing |
| Journal.Store.Snapshot | pkg/persist/store.go:141-179 | how each outcome leaves the directory, and that every state on the way, the partly written .tmp included, has the old or the whole new snapshot and loses the journal only under the new one |
| Journal.Store.Close | pkg/persist/store.go:207-220 | closes the store without changing a file; an error if the journal's handle was closed already |
| TornWrite.CrashDuringAppend | pkg/persist/store.go:232-266 | from bytes to sessions: a crash inside a handler's append recovers the table before or after the message, by whether the entry's last byte was written |
| Gateways.CollectIsSyncable | pkg/gateway/reconnect.go:190-200 | collected tags hold only synced keys with values, and collecting changes nothing if and only if that held already |
| Gateways.CollectKeepsIff | pkg/connkey/connkey.go:20-22 | the synced tags are exactly the non-empty room_server_id, match_id and match_type |
| GatewayServer.Server.OnConnStart | pkg/gateway/server.go:62-68 | a new connection becomes the player's and, if SessionSvr is reachable, one request waits for its answer; other players untouched |
| GatewayServer.Server.TimeOut | pkg/gateway/reconnect.go:44-46 | a CheckReconnect that gives up drops its entry and nothing else |
| GatewayServer.Server.GoOn | pkg/gateway/reconnect.go:36-43 | a signalled CheckReconnect drops the queued disconnect and the waiting entry of its player |
| GatewayServer.Server.MarkDisconnected | pkg/gateway/reconnect.go:112-127 | a disconnect is sent, or queued exactly when SessionSvr is unreachable |
| GatewayServer.Server.OnConnStop | pkg/gateway/server.go:70-76 | the player's entry goes whichever connection it names, and the disconnect is sent or queued |
| GatewayServer.Server.CollectTags | pkg/gateway/reconnect.go:190-200 | collects exactly the synced, non-empty properties |
| GatewayServer.Server.RestoreTags | pkg/gateway/reconnect.go:77-79 | the connection's properties end overlaid with all the tags, in any order |
| GatewayServer.Server.Restore | pkg/gateway/reconnect.go:75-94 | a marked session's tags go onto the connection, its room is told, and a reconnect is sent if SessionSvr is reachable |
| GatewayServer.Server.HandleSessionGet | pkg/gateway/reconnect.go:50-108 | the answer signals the waiter; a marked session is restored; an unmarked one saves the connection's tags; a missing connection does nothing; other players untouched |
| GatewayServer.RoomNoticesSay | pkg/gateway/reconnect.go:158-177 | a restored session with a match causes one notice with that match, connection and route key, and one without causes none |
| GatewayServer.Server.HandleSessionInvalidate | pkg/gateway/reconnect.go:206-237 | only the gateway named acts, and not for player 0; it forgets the connection and stops exactly that one, if it is still there |
| GatewayServer.Server.SyncSessionTags | pkg/gateway/reconnect.go:130-155 | the connection's synced tags are saved if there are any, it has a player and SessionSvr is reachable |
| GatewayServer.Server.ApplyConnTags | pkg/gateway/response_router.go:66-79 | tags from a backend land on the connection, may make it another player's, and are saved for that player if any are synced ones |
| GatewayServer.Server.RetryPendingDisconnects | pkg/gateway/reconnect.go:250-266 | every queued player gets one disconnect, in any order, and leaves the queue; nothing happens while SessionSvr is unreachable |
| Protocol.StepKeepsWellFormed | apps/sessionsvr/internal/router/session_router.go:162-175 | every message in flight stays addressed to or sent by a known gateway |
| ServerAnswers.ReconnectAnswers | apps/sessionsvr/internal/router/session_router.go:146-175 | what HandleReconnect sends, with each invalidation to every gateway, is what the protocol's reconnect answers |
| ServerAnswers.GetAnswers | apps/sessionsvr/internal/router/session_router.go:70-89 | what HandleGet sends is what the protocol's request answers |
| ServerAnswers.OnlyTheLeftIsNamed | apps/sessionsvr/internal/router/session_router.go:162-175 | a gateway hears that x was left if and only if it is connected, the session was with x, and x is neither empty nor the new gateway |
| Exchange.DeliveryDecreases | pkg/gateway/session_router.go:17-26 | in any state, delivering any message uses up more weight than its consequences add |
| Exchange.ExchangesTerminate | pkg/gateway/session_router.go:17-26 | a run of deliveries and of connections coming to a stop is no longer than the weight of the messages in flight and twice the open connections: no exchange echoes forever, the stops that invalidations cause included |
| GatewaySwitch.LeftGatewayIsInert | apps/sessionsvr/internal/router/session_router.go:101-108 | while the session is with another gateway, no disconnect from g changes it, whether in flight, queued or caused by the invalidation, in any interleaving, until a save or reconnect from g or expiry |
| GatewaySwitch.DownTakesEffectIff | apps/sessionsvr/internal/router/session_router.go:97-118 | a delivered disconnect changes the session if and only if there is none, or it is with no gateway, or it is with that gateway and not marked at this second already |
| GatewaySwitch.SwitchInvalidatesOnlyTheLeft | apps/sessionsvr/internal/router/session_router.go:162-175 | a reconnect from g2 moves the session there with its tags, tells every gateway that g1 was left, sends nothing else but the reply, and only g1 acts on it |
| GatewaySwitch.SwitchIsSafe | pkg/gateway/reconnect.go:202-237 | after a move from g1 to g2 every disconnect from g1 is inert in every run that does not attach the player to g1 again |
| GatewaySwitch.DeliveryUndoesSwitchIff | apps/sessionsvr/internal/router/session_router.go:56-62 | of all messages in flight exactly a save or a reconnect from the left gateway undoes a switch |
| GatewaySwitch.SwitchIsFinal | pkg/gateway/reconnect.go:202-237 | once the left gateway has no client connection and no save or reconnect in flight, nothing any party sends brings the session back there until the player connects there again or the session expires |
| GatewaySwitch.LateDownAfterExpiry | apps/sessionsvr/internal/router/session_router.go:97-118 | once the session has expired a late disconnect from the left gateway makes a new one there |
| Handshake.NoiseIsInert | apps/sessionsvr/internal/router/session_router.go:103-108 | invalidations and stale disconnects from any other gateway change neither the session nor the new gateway, and cause no message |
| Handshake.HandshakeOutcome | pkg/gateway/reconnect.go:50-108 | in every delivery order, and whenever other gateways' connections stop, a connection's exchange sends one save, and one reconnect if and only if the session was marked; it ends attached to the new gateway with a marked session's tags on the connection and the synced ones of them in the session |
| Handshake.ReconnectRestores | pkg/gateway/reconnect.go:75-94 | a session marked disconnected gets all its tags back on the connection, and in the session if they are synced ones |
| Handshake.ConnectOverwrites | pkg/gateway/reconnect.go:95-107 | connecting to an unmarked or missing session leaves a session without tags |
| Handshake.TagsSurviveIff | pkg/gateway/reconnect.go:75-107 | a connection keeps the session's tags if and only if it was marked disconnected with synced tags only, or had none |
| Handshake.SessionTagsAreSyncable | pkg/connkey/connkey.go:20-22 | in every run every session holds only synced keys with values, so the condition on tags holds by itself |
| Connections.UnreachableSendsNothing | pkg/gateway/reconnect.go:92-126 | a gateway that cannot reach SessionSvr sends nothing in any callback and otherwise ends in the same state, but for the queued disconnect |
| Connections.AnswerWithoutConnection | pkg/gateway/reconnect.go:65-73 | an answer for a player without an open connection only signals the waiter |
| Connections.AnswerEffect | pkg/gateway/reconnect.go:75-107 | a marked session's tags override the connection's key by key, no other connection changes, and exactly one reconnect or save goes back |
| Connections.NothingToSend | pkg/gateway/reconnect.go:142-145 | tags without a synced one stay on the connection and are not sent; nothing queued means nothing retried |
| Connections.ConnectRegisters | pkg/gateway/server.go:62-68 | a new connection is the player's, without tags, and one request is in flight if SessionSvr is reachable; the rest stays |
| Connections.DropIsSentOrQueued | pkg/gateway/server.go:70-76 | a connection that ends is gone, and its disconnect is in flight or queued, by reachability |
| Connections.DownMarks | apps/sessionsvr/internal/router/session_router.go:110-118 | a delivered disconnect marks the session of its gateway and keeps the tags |
| Connections.QueuedDisconnectIsSent | pkg/gateway/reconnect.go:250-266 | in every run, a disconnect that could not be sent is sent, once, by the first retry that finds SessionSvr reachable, unless a CheckReconnect goes on in between |
| Connections.ProceedClearsQueue | pkg/gateway/reconnect.go:41-43 | a CheckReconnect that goes on leaves nothing queued, and goes on once |
| Connections.GivingUp | pkg/gateway/reconnect.go:44-46 | one that times out only stops waiting |
| Connections.GivenUpNeverProceeds | pkg/gateway/reconnect.go:36-46 | and in every run without a new connection no late answer makes it clear the queue |
| Connections.TagsReachSession | pkg/gateway/response_router.go:66-79 | tags from a backend are on the connection at once and, once their save is delivered, the session is with that gateway and holds the connection's synced tags |
| Connections.TagsTravel | pkg/gateway/reconnect.go:50-108 | from a backend's tags over a lost client to a connection at any gateway, in every run of that exchange: the synced tags are on the new connection and in the session |
| Persisted.DiskFollowsProtocol | apps/sessionsvr/internal/router/session_router.go:35-48 | whatever gateways and network do, what SessionSvr processes is a run of the machine with the disk, and leaves it at the protocol's session |
| Persisted.ProtocolSurvivesCrash | pkg/persist/store.go:66-107 | so a crash at any point of a protocol run that lost nothing of the player's recovers what the protocol holds |
| Persisted.HandshakeIsPersisted | pkg/gateway/reconnect.go:50-108 | a connection to a marked session, to one without tags, or to none with no tags on disk clears no tags that are on disk, and a crash after it recovers exactly the session it ends with |
| Persisted.FirstConnectionIsPersisted | pkg/gateway/reconnect.go:95-107 | in particular for a new player, whose first save has no tags |
| Matchmaking.LeastIndex | apps/matchsvr/internal/router/match_router.go:213-225 | the first of the servers with the least load |
| Matchmaking.FirstOf | apps/matchsvr/internal/router/match_router.go:295-302 | the first waiting entry of a player |
| Directory.StepDirectory | apps/matchsvr/internal/router/match_router.go:103-166 | a match is known after a step if and only if the step places it, or it was known and the step does not destroy it; a placed one is on the least loaded server and no other moves |
| Directory.StepLoads | apps/matchsvr/internal/router/match_router.go:228-280 | a placement adds one to the server it chooses, a destruction takes one from the match's server, and no other load changes |
| Directory.AllocateRecords | apps/matchsvr/internal/router/match_router.go:139-166 | exactly when each answer is given; an allocated match is recorded on the server answered, whose load is one more, and everything else is as before |
| Directory.AllocatedOnce | apps/matchsvr/internal/router/match_router.go:146-149 | after an allocation, in every run without its destruction, every allocation of that ID is refused |
| Directory.KnownUntilDestroyed | apps/matchsvr/internal/router/match_router.go:256-269 | a known match stays known in every run until its destruction, which ends that |
| Directory.EnterRecords | apps/matchsvr/internal/router/match_router.go:85-101 | a full group is recorded under its ID and leaves the front of its queue; a waiting player changes only the queue; other queues stay |
| Directory.GroupsAreTwoTeams | apps/matchsvr/internal/router/match_router.go:241-254 | a group is two teams of the size the type names, and a pair for any other type |
| Directory.DestroyedForgets | apps/matchsvr/internal/router/match_router.go:256-269 | a destruction forgets that match and no other, and an unknown one changes nothing |
| Directory.ForceLeaveRemovesFirst | apps/matchsvr/internal/router/match_router.go:283-303 | a forced leave takes out the player's first entry of that type and nothing else |
| Directory.ForceLeaveOfNobody | apps/matchsvr/internal/router/match_router.go:290-303 | and changes nothing if there is none |
| LoadIndex.PlaceKeepsExactIff | apps/matchsvr/internal/router/match_router.go:103-113 | a placement keeps the index exact if and only if its match ID is new |
| LoadIndex.DestroyedKeepsExact | apps/matchsvr/internal/router/match_router.go:256-280 | a destroy notification keeps it exact |
| LoadIndex.LoadIndexIsExact | apps/matchsvr/internal/router/match_router.go:228-231 | in every run with new generated IDs each server's count is the number of its active matches, and no entry is zero or negative |
| LoadIndex.EmptyIsExact | apps/matchsvr/internal/router/match_router.go:20-24 | the empty tables are exact, so every run from a start is |
| Balance.PlacementIsBalanced | apps/matchsvr/internal/router/match_router.go:208-231 | from empty, without destroys, n matches on k distinct fixed servers leave n/k on each, rounded down or up |
| Balance.PlacementRaisesTheMinimum | apps/matchsvr/internal/router/match_router.go:208-226 | with any loads a placement goes to a minimum and never lifts the maximum above the old maximum or the minimum plus one |
| MatchQueue.QueueIsConservedAndFifo | apps/matchsvr/internal/router/match_router.go:75-101 | in every run, the entries of a type less those force-removed while waiting are, in order, the matched groups followed by the queue; groups are full, the queue is never long enough for one, and only players named by a force-leave were removed |
| MatchQueue.KeptWithout | apps/matchsvr/internal/router/match_router.go:297-298 | removing one waiting entry drops that entry from the order and no other |
| MatchServer.Server.PickLeastLoaded | apps/matchsvr/internal/router/match_router.go:208-226 | returns the first least loaded server, or nothing if there is none |
| MatchServer.Server.IncreaseLoad | apps/matchsvr/internal/router/match_router.go:228-231 | counts one more, from zero if absent |
| MatchServer.Server.DecreaseLoad | apps/matchsvr/internal/router/match_router.go:271-280 | counts one less, dropping the entry at zero and ignoring an absent one |
| MatchServer.Server.MatchPool | apps/matchsvr/internal/router/match_router.go:103-135 | places one match and sends each member of the group one result naming all of them |
| MatchServer.Results | apps/matchsvr/internal/router/match_router.go:115-133 | one result per member, to that member's address, with the match, its server and type, and the whole group in order |
| MatchServer.Server.HandleEnter | apps/matchsvr/internal/router/match_router.go:75-101 | queues the player, and matches exactly the first full group; otherwise reports the queue size |
| MatchServer.Server.HandleAllocate | apps/matchsvr/internal/router/match_router.go:139-166 | refuses a known ID and a missing server, changing nothing; otherwise places the match |
| MatchServer.Server.HandleDestroyed | apps/matchsvr/internal/router/match_router.go:256-269 | the match is gone and its server's load lowered; repeated or unknown notifications change nothing |
| MatchServer.Server.HandleForceLeaveQueue | apps/matchsvr/internal/router/match_router.go:283-303 | removes the player's first entry of that type and keeps the order of the rest |
| Rooms.StepKeepsWellFormed | apps/roomsvr/internal/router/room_router.go:64-73 | every handler leaves every stored room non-empty with distinct players |
| Rooms.RunKeepsWellFormed | apps/roomsvr/internal/router/room_router.go:52-127 | so does every run |
| Rooms.DestroyedIffRoomGone | apps/roomsvr/internal/router/room_router.go:95-122 | MatchSvr is told exactly on the steps where the last member leaves or is removed and the room goes, and no other room comes or goes |
| Rooms.EveryOpeningIsClosedOnce | apps/roomsvr/internal/router/room_router.go:205-230 | over any run a room is announced destroyed once per opening, less once if it is open now |
| RoomViews.MemberViewsAreExact | apps/roomsvr/internal/router/room_router.go:155-165 | in every run, folding the events a member received since joining onto the membership at that join gives the current membership in order, and the last count received is the current size, across reconnects and force leaves |
| RoomViews.PushesGoToTheLatestAddress | apps/roomsvr/internal/router/room_router.go:169-193 | every push goes to the address of the member's latest join or reconnect |
| RoomRequests.StepMembership | apps/roomsvr/internal/router/room_router.go:64-118 | after a step a player is in a room if and only if the step is their join, or they were in it and the step is not their leave or forced leave |
| RoomRequests.MembersAreThoseWhoJoinedLast | apps/roomsvr/internal/router/room_router.go:52-236 | in every run from no rooms, a player is in a room if and only if their last join, leave or forced leave of it was a join |
| RoomRequests.JoinEffect | apps/roomsvr/internal/router/room_router.go:72-80 | a newcomer is put last, and each member there before is told once with the new size; other rooms stay |
| RoomRequests.LeaveEffect | apps/roomsvr/internal/router/room_router.go:110-122 | a member who leaves is cut out and the order of the rest kept, each of them is told once with the new size, and the room goes with its last member |
| RoomServer.Server.Find | apps/roomsvr/internal/router/room_router.go:101-106 | the position of a player, or the list's length |
| RoomServer.Server.BroadcastRoomEvent | apps/roomsvr/internal/router/room_router.go:155-165 | one push per member, in order |
| RoomServer.Server.HandleJoin | apps/roomsvr/internal/router/room_router.go:52-83 | refuses a player already there, changing nothing; otherwise appends and tells the others |
| RoomServer.Server.HandleLeave | apps/roomsvr/internal/router/room_router.go:85-127 | removes the member, tells the rest or announces the room's end, and replies to the address the room had |
| RoomServer.Server.HandleForceLeave | apps/roomsvr/internal/router/room_router.go:196-236 | the same on expiry of a session |
| RoomServer.Server.HandleReconnected | apps/roomsvr/internal/router/room_router.go:169-193 | replaces the member's address and nothing else |
| PoolEntries.FirstLive | pkg/pool.go:275-281 | the first entry of an address that is not stopped |
| PoolRuns.StepKeepsLoops | pkg/pool.go:368-384 | every callback, dial outcome, addition and removal keeps loops and flags matched |
| PoolRuns.ReconnectLoopsAreExclusive | pkg/pool.go:368-464 | in every interleaving at most one loop per entry is active, its flag is up, and on an entry not stopped the flag is up only with a loop |
| PoolRuns.RemovalIsFinal | pkg/pool.go:341-365 | once stopped, an entry's connections are in no later healthy list and chosen by no later hash route, even if a dial in flight succeeds |
| PoolRuns.HealthyConnsAreRoutable | pkg/pool.go:341-351 | the healthy connections are those of the healthy, connected entries that are not stopped, all of them, in order |
| PoolRuns.EveryHealthyConnIsReached | pkg/pool.go:61-69 | a hash routes to a healthy connection if there is one, and each of them is reached by some hash |
| PoolRuns.AddedServerIsRoutable | pkg/pool.go:216-270 | a server that connects in time is routable at once, one that times out never, and nothing changes for the others |
| PoolRuns.LostConnectionIsTended | pkg/pool.go:368-384 | an entry that loses its connection is not routable, and in every later state it is routable again, or has a loop at work, or was stopped |
| PoolRuns.DialDecides | pkg/pool.go:433-462 | a dial that connects makes the entry routable and ends its loop; one that fails keeps the loop exactly if the entry is not stopped |
| PoolRuns.ClosedPoolRoutesNowhere | pkg/pool.go:354-365 | a closed pool routes nowhere in any run without new servers, whatever its loops still do |
| PoolRuns.BackoffCountsFailures | pkg/pool.go:436-461 | in every run an entry's backoff is 200 ms doubled once per failed dial since the last connection, at most five times, or 1 s at most three times for one of Dial's; below twice the maximum, and above the maximum if and only if doubled that often |
| PoolRuns.BackoffPassesItsMaximum | pkg/pool.go:386-391 | runs: five failures reach 6.4 s, and three from Dial reach 8 s, with a maximum of 5 s |
| PoolRuns.StepKeepsRoutesLiveIff | pkg/pool.go:433-445 | a step keeps every routable connection alive if and only if it installs none that has already stopped |
| PoolRuns.RoutesStayLive | pkg/pool.go:341-351 | so every run that installs only live connections routes only to live ones |
| PoolRuns.HealthyEntryMayBeDead | pkg/pool.go:417-444 | a run: the loop installs a connection that has stopped, and no loop is left |
| PoolSync.SyncConverges | pkg/pool.go:308-338 | whatever its walks, Sync leaves exactly the wanted addresses that were there or connected in time, each once; every index keeps its entry, and only unwanted entries change, by being stopped |
| PoolSync.SecondSyncIsNoOp | pkg/pool.go:308-338 | a second Sync with the same servers changes nothing when nothing timed out |
| PoolSyncRuns.SyncConvergesInterleaved | pkg/pool.go:308-338 | the same for a Sync among any drops, failed dials and connections: exactly the wanted addresses that were there or connected in time, each once, every index with its address, and only unwanted entries stopped |
| PoolServer.ConnEntry.MarkDead | pkg/pool.go:373-381 | drops the connection, and starts a loop exactly when none runs and the entry is not stopped |
| PoolServer.ConnEntry.AfterDial | pkg/pool.go:433-462 | installs a connection and ends the loop, or ends it if stopped, or doubles the backoff below the maximum |
| PoolServer.ReconnectLoop | pkg/pool.go:393-464 | over any outcomes of its dials the loop leaves the entry of `LoopRun`, of which the next two rows speak |
| PoolServer.LoopEndsWithFirstConnection | pkg/pool.go:393-464 | the loop of an entry not stopped goes through every failure with a longer wait and ends with the first dial that connects, installed with the wait reset |
| PoolServer.StoppedLoopEnds | pkg/pool.go:450-454 | the loop of a stopped entry ends with its first dial and the entry stays stopped |
| PoolServer.Pool.AddServer | pkg/pool.go:216-270 | appends one entry, connected or stopped on timeout, and moves no other |
| PoolServer.Pool.RemoveServer | pkg/pool.go:273-292 | stops the first live entry of the address and its connection, and nothing else |
| PoolServer.Pool.ServerAddrs | pkg/pool.go:295-305 | the addresses of the entries not stopped |
| PoolServer.Pool.Sync | pkg/pool.go:308-338 | adds what is wanted and missing and removes what is there and unwanted, each once, in some order |
| PoolServer.Pool.HealthyConns | pkg/pool.go:341-351 | exactly the connections of healthy, connected, not stopped entries, in order |
| PoolServer.Pool.Close | pkg/pool.go:354-365 | stops every entry and every connection, and changes nothing else |
| PoolServer.Pool.OnDisconnect | pkg/pool.go:368-384 | changes one entry as `Disconnected` says and starts a loop accordingly |

## Left out

- Interleavings inside one handler: a save that runs between another handler's table update and its journal append, or between a load and a store of a `sync.Map`, is not a run of the model.
- Two snapshots at once: the source starts one timer per store.
- Protobuf and JSON encodings, a snapshot that does not decode, and the journal's unread millisecond timestamp.
- A handler that goes on after its journal append failed: the source only logs it, and `Recovery` has appends that succeed.
- GatewayServer.Server.HandleSessionGet: does not model a room that cannot be reached, which is only logged.
- GatewayServer.Server.ApplyConnTags: takes the player's number from the `playerId` tag as given; that the closing callback then no longer knows the connection's player is not modelled, because no service in the repository sets the tag.
- Handshake.HandshakeOutcome: assumes that SessionSvr is reachable for the answers and that no other message about the player is in flight when the client connects.
- Persisted.DiskFollowsProtocol: takes no snapshot during a protocol run; `Recovery` has snapshots and handlers in any order.
- SessionServer.Server.HandleReconnect: does not model a router without a server object, which sends no invalidation, because the service always sets it.
- SessionServer.Server.Visit: states the notices the scanner sends; that no connection to RoomSvr or MatchSvr may be found is not modelled.
- GatewayServer.Server.OnConnStart: models an authenticated connection; the wait of CheckReconnect ends in `GoOn` or `TimeOut`, which are steps of `Protocol`.
- RoomServer.Server.HandleForceLeave: takes the player's ID in the room's text form, where the source formats the number.
- MatchServer.Server.HandleEnter: takes the match ID that the source derives from the clock; that it is new is a stated hypothesis of the load results, with the exact condition.
- PoolServer.Pool.AddServer: runs to its end in one call; its parts interleave with everything else in `PoolRuns`.
- PoolServer.ReconnectLoop: runs with nothing else touching the entry; interleavings are in `PoolRuns`.
- Random and direct routes, the servers' IDs on connections, the router lists of pool entries, and log-once flags.
- That a gateway's player entry names the newest connection: it need not, because a stopping connection deletes the entry whichever connection it names.
- MatchSvr's query handler, the chat router, the broadcaster and the user service: single-branch lookups and forwarding.
- JWT, etcd, gRPC and NATS wrappers, configuration, the gateway's route table, generated code and clients.
