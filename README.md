# SpeedDate matchmaking core in Dafny

This project models the master-side matchmaking core of SpeedDate, a C#
client/server framework for multiplayer games, and proves properties of
that model. Seven modules follow the program's own parts:

- `Common` (`common.dfy`): big-endian 32-bit integers in bytes and decimal
  text for integers, with their round trips.
- `Wire` (`wire.dfy`): the incoming message (`IncomingMessage`), its reply
  helpers (`Respond`), and the frame parser of `MessageFactory.FromBytes`
  together with an encoder that it inverts.
- `Observable` (`observable_dictionary.dfy`): `ObservableBaseDictionary`,
  a dictionary that logs its changes, with its snapshot (`ToBytes` /
  `FromBytes`) and its change log (`GetUpdates` / `ApplyUpdates`).
- `Rooms` (`registered_room.dfy`): `RegisteredRoom`, the master's view of a
  game server. It hands out access tokens and admits players on them.
- `Spawners` (`registered_spawner.dfy`): `RegisteredSpawner`, the master's
  queue of spawn tasks for one spawner, with its process count.
- `Launcher` (`process_spawner.dfy`): `ProcessSpawnerRequestHandler`, the
  spawner side. It leases ports, builds the command line of a game server,
  answers the spawn request and reports the process's start and end.
- `Lobbies` (`lobby.dfy`): `Lobby`, with its teams, members, game master,
  properties, ready flags, manual and automatic start, and the spawn task
  and room of its game.

Each class of the source whose fields change is a Dafny `class` with those
fields. `Model()` reads the fields into a datatype. A pure step function on
that datatype gives the outcome of each operation, and every method
ensures `Model() == Step(old(Model()), ...)`. `Valid()` holds the class
invariant, and the methods keep it. The lemmas about the step functions
state what the source promises: outcomes, invariants, round trips and
scenarios.

Inputs from outside the core become parameters. Examples are a peer's
connection state, the time, the spawner's answer and the owner's answer.
Some of what the core emits is recorded as outputs: the status texts broadcast by a
lobby, the tasks it kills, the room's `Destroyed` event and a spawner's
sent requests. The lobby's own events and the message to a departing
peer are not recorded (see "## Left out").

## Model

| member | source | states |
|---|---|---|
| Common.UInt32At | SpeedDate/Network/MessageFactory.cs:34 | reading four bytes big-endian gives a value in [0, 2^32) |
| Common.Int32At | SpeedDate/Network/MessageFactory.cs:37 | reading four bytes big-endian as two's complement gives a value in [-2^31, 2^31) |
| Common.UInt32RoundTrip | SpeedDate/Network/MessageFactory.cs:34 | writing an unsigned 32-bit value then reading it back gives the value |
| Common.Int32RoundTrip | SpeedDate/Packets/ObservableDictStringInt.cs:51-64 | writing a signed 32-bit value then reading it back gives the value |
| Common.NatRoundTrip | SpeedDate.ClientPlugins.Spawner/ProcessSpawnerRequestHandler.cs:65-75 | the decimal digits of a natural number parse back to that number |
| Common.IntRoundTrip | SpeedDate.ClientPlugins.Spawner/ProcessSpawnerRequestHandler.cs:65-75 | an integer's decimal text (with `-` when negative) parses back to the integer |
| Wire.AsString | SpeedDate/Network/IncomingMessage.cs:160-163 | the default string when the message has no data, otherwise the decoded data |
| Wire.NewIncomingMessage | SpeedDate/Network/IncomingMessage.cs:17-31 | a new message keeps its op code, data and peer; it expects no response and carries no ack id |
| Wire.ParseFrame | SpeedDate/Network/MessageFactory.cs:28-75 | no message for a start outside the buffer, a short header or a negative length; otherwise op code, payload and ack ids come from the header fields, and the ack flags decide whether ids are present |
| Wire.FromBytes | SpeedDate/Network/MessageFactory.cs:28-75 | the imperative parser returns exactly what `ParseFrame` specifies |
| Wire.FrameRoundTrip | SpeedDate/Network/MessageFactory.cs:28-75 | parsing an encoded frame at its offset inside any surrounding bytes gives back the frame's message |
| Wire.ParsedAccessors | SpeedDate/Network/IncomingMessage.cs:62-65 | a parsed message expects a response exactly when the request flag was set |
| Wire.CreateEmpty | SpeedDate/Network/MessageFactory.cs:11-14 | a fresh outgoing message with the op code, no data, status 0 and no ack id |
| Wire.Respond | SpeedDate/Network/IncomingMessage.cs:82-90 | the reply goes to the sender with the given status; it carries the request's ack id only when a response is expected |
| Wire.RespondWithData | SpeedDate/Network/IncomingMessage.cs:97-100 | the reply reuses the request's op code and carries the given data and status |
| Wire.RespondStatus | SpeedDate/Network/IncomingMessage.cs:117-120 | the reply reuses the request's op code, has no data and carries the status |
| Wire.RespondInt | SpeedDate/Network/IncomingMessage.cs:127-130 | the reply's data is four bytes that read back as the integer |
| Observable.ReadFrontLawful | SpeedDate/Packets/ObservableDictStringInt.cs:46-64 | a lawful codec reads back what it wrote and leaves the rest of the bytes |
| Observable.ReadInt32FrontOf | SpeedDate/Packets/ObservableBaseDictionary.cs:117 | the count read from the front of a snapshot is the count written there |
| Observable.Int32CodecLawful | SpeedDate/Packets/ObservableDictStringInt.cs:51-64 | the 32-bit value codec is lawful |
| Observable.SnapshotRoundTrip | SpeedDate/Packets/ObservableBaseDictionary.cs:90-134 | loading the snapshot of a dictionary into an empty one rebuilds the dictionary |
| Observable.SnapshotNeverDeletes | SpeedDate/Packets/ObservableBaseDictionary.cs:111-134 | loading a snapshot only adds or overwrites keys and never removes one |
| Observable.LoadEncodedEntries | SpeedDate/Packets/ObservableBaseDictionary.cs:117-131 | reading n encoded entries upserts them in order |
| Observable.UpsertAllKeys | SpeedDate/Packets/ObservableBaseDictionary.cs:119-131 | after loading, the keys are the old keys plus the loaded ones |
| Observable.UpsertAllDistinct | SpeedDate/Packets/ObservableBaseDictionary.cs:119-131 | with distinct keys, every loaded key maps to its loaded value |
| Observable.UpsertAllUntouched | SpeedDate/Packets/ObservableBaseDictionary.cs:119-131 | a key not in the snapshot keeps its old value |
| Observable.ReplayAppend | SpeedDate/Packets/ObservableBaseDictionary.cs:38-74 | replaying a log and then one more change equals applying that change to the replayed state |
| Observable.ReplayEncodedLog | SpeedDate/Packets/ObservableBaseDictionary.cs:165-188 | decoding an encoded log applies its changes in order, sets and removes alike |
| Observable.LogReplayRoundTrip | SpeedDate/Packets/ObservableBaseDictionary.cs:136-190 | applying the bytes from `GetUpdates` to the dictionary's state before the changes gives the state after them |
| Observable.ObservableDictionary.constructor | SpeedDate/Packets/ObservableBaseDictionary.cs:15-21 | starts from the default values (or empty) with an empty change log |
| Observable.ObservableDictionary.SetValue | SpeedDate/Packets/ObservableBaseDictionary.cs:38-62 | a null value removes the key; otherwise it adds or overwrites it; either way one entry is logged, and the new state is the old one with that entry applied |
| Observable.ObservableDictionary.Remove | SpeedDate/Packets/ObservableBaseDictionary.cs:64-74 | the key is gone and a removal is logged |
| Observable.ObservableDictionary.GetValue | SpeedDate/Packets/ObservableBaseDictionary.cs:76-80 | a value exactly when the key is present, and then the stored one |
| Observable.ObservableDictionary.ClearUpdates | SpeedDate/Packets/ObservableBaseDictionary.cs:194-197 | the log is emptied and the dictionary is unchanged |
| Observable.ObservableDictionary.ToBytes | SpeedDate/Packets/ObservableBaseDictionary.cs:90-109 | the count and then every entry once, in some enumeration order; with lawful codecs the bytes load back to the dictionary |
| Observable.ObservableDictionary.FromBytes | SpeedDate/Packets/ObservableBaseDictionary.cs:111-134 | entries are upserted into the current dictionary as the snapshot specification says; the log is untouched |
| Observable.ObservableDictionary.GetUpdates | SpeedDate/Packets/ObservableBaseDictionary.cs:136-157 | the count and then each logged change, with no value written for a removal |
| Observable.ObservableDictionary.ApplyUpdates | SpeedDate/Packets/ObservableBaseDictionary.cs:159-192 | each decoded change is replayed on the dictionary; the receiver's own log is untouched |
| Observable.ReadUpdates | SpeedDate/Packets/ObservableBaseDictionary.cs:159-192 | the read loop: stops with failure at the first short or undecodable entry, otherwise removes or upserts each entry in turn |
| Observable.SyncByLog | SpeedDate/Packets/ObservableBaseDictionary.cs:136-190 | after any sequence of sets and removes on the sender, a receiver holding the state the sender's log starts from and applying the sender's log bytes holds the sender's entries; its own log is untouched |
| Rooms.TokenOf | SpeedDate.ServerPlugins/Rooms/RegisteredRoom.cs:98 | finds an unconfirmed access of the peer, or none exists |
| Rooms.BeginOutcomes | SpeedDate.ServerPlugins/Rooms/RegisteredRoom.cs:80-137 | a pending peer is refused as already requested; a peer holding an unclaimed access gets it back with a renewed timeout; a full room refuses; otherwise the peer becomes pending and a check goes to the owner; refusals change nothing |
| Rooms.CompleteOutcomes | SpeedDate.ServerPlugins/Rooms/RegisteredRoom.cs:138-162 | the peer is no longer pending; on approval the access is stored under its token with a fresh timeout and handed out; a decline yields a non-empty error |
| Rooms.ValidateAdmits | SpeedDate.ServerPlugins/Rooms/RegisteredRoom.cs:171-197 | a token admits its peer exactly when it is unconfirmed, the peer is connected and not already in use; admission moves the access into use and adds one player |
| Rooms.SingleUseToken | SpeedDate.ServerPlugins/Rooms/RegisteredRoom.cs:173-182 | a token is gone after one validation, so a second one admits nobody |
| Rooms.SweepRemovesExpired | SpeedDate.ServerPlugins/Rooms/RegisteredRoom.cs:202-210 | exactly the accesses whose timeout has not passed remain, unchanged |
| Rooms.LeftFreesEntry | SpeedDate.ServerPlugins/Rooms/RegisteredRoom.cs:219-229 | the peer's access in use is gone and the count drops by one when there was one |
| Rooms.DestroyNotifiesOnce | SpeedDate.ServerPlugins/Rooms/RegisteredRoom.cs:231-241 | destroying clears the unconfirmed accesses and raises `Destroyed` once, even when called twice |
| Rooms.StepKeepsInvariant | SpeedDate.ServerPlugins/Rooms/RegisteredRoom.cs:80-241 | every room operation keeps pending peers and unconfirmed tokens consistent |
| Rooms.StepKeepsBudget | SpeedDate.ServerPlugins/Rooms/RegisteredRoom.cs:108-120 | with a player limit, no operation takes more slots than the limit allows |
| Rooms.CapacityOneScenario | SpeedDate.ServerPlugins/Rooms/RegisteredRoom.cs:108-120 | in a room for one, after the first player is admitted a second request is refused as full |
| Rooms.RepeatRequestScenario | SpeedDate.ServerPlugins/Rooms/RegisteredRoom.cs:96-106 | asking again before claiming returns the same access with its timeout renewed |
| Rooms.SecondAccessScenario | SpeedDate.ServerPlugins/Rooms/RegisteredRoom.cs:171-197 | an admitted player who gets a second access is refused on it as a duplicate |
| Rooms.DuplicateRequestScenario | SpeedDate.ServerPlugins/Rooms/RegisteredRoom.cs:82-87 | a second request while one is pending is refused and changes nothing |
| Rooms.OverrideOptions | SpeedDate.ServerPlugins/Rooms/RegisteredRoom.cs:52-59 | the `IsPublic` property, when present, decides publicity: public exactly when, with null and Unicode white-space characters trimmed from both ends, it reads "true" in any ASCII case; all other options stay |
| Rooms.ParsesAround | SpeedDate.ServerPlugins/Rooms/RegisteredRoom.cs:56-58 | any run of null and white-space characters around a word is ignored, and the word alone decides the parse |
| Rooms.ParseExamples | SpeedDate.ServerPlugins/Rooms/RegisteredRoom.cs:56-58 | " True " and "TRUE" parse as true |
| Rooms.ParseRejects | SpeedDate.ServerPlugins/Rooms/RegisteredRoom.cs:56-58 | "false", "yes" and "" do not parse as true |
| Rooms.ParseUnicodeExamples | SpeedDate.ServerPlugins/Rooms/RegisteredRoom.cs:56-58 | "true" with a vertical tab before it, or a no-break space after it, still parses as true |
| Rooms.ParseNullExample | SpeedDate.ServerPlugins/Rooms/RegisteredRoom.cs:56-58 | a null character and an ideographic space before "True" and a line feed after it are trimmed, so it parses as true |
| Rooms.RegisteredRoom.constructor | SpeedDate.ServerPlugins/Rooms/RegisteredRoom.cs:32-44 | a new room with no accesses, its options overridden by its properties |
| Rooms.RegisteredRoom.OverrideOptionsWithProperties | SpeedDate.ServerPlugins/Rooms/RegisteredRoom.cs:52-59 | only the options change, as `OverrideOptions` says |
| Rooms.RegisteredRoom.OnlineCount | SpeedDate.ServerPlugins/Rooms/RegisteredRoom.cs:50 | the number of accesses in use |
| Rooms.RegisteredRoom.BeginGetAccess | SpeedDate.ServerPlugins/Rooms/RegisteredRoom.cs:80-137 | follows `Begin` and keeps the room invariant |
| Rooms.RegisteredRoom.CompleteGetAccess | SpeedDate.ServerPlugins/Rooms/RegisteredRoom.cs:138-162 | follows `Complete` and keeps the room invariant |
| Rooms.RegisteredRoom.ValidateAccess | SpeedDate.ServerPlugins/Rooms/RegisteredRoom.cs:171-197 | follows `Validate` and keeps the room invariant |
| Rooms.RegisteredRoom.ClearTimedOutAccesses | SpeedDate.ServerPlugins/Rooms/RegisteredRoom.cs:202-210 | follows `Sweep` and keeps the room invariant |
| Rooms.RegisteredRoom.OnPlayerLeft | SpeedDate.ServerPlugins/Rooms/RegisteredRoom.cs:219-229 | follows `Left` and keeps the room invariant |
| Rooms.RegisteredRoom.Destroy | SpeedDate.ServerPlugins/Rooms/RegisteredRoom.cs:231-241 | follows `DestroyRoom` and keeps the room invariant |
| Spawners.RequestFor | SpeedDate.ServerPlugins/Spawner/RegisteredSpawner.cs:80-87 | the spawn request carries the spawner id and the task's id, code, arguments and properties |
| Spawners.CanSpawn | SpeedDate.ServerPlugins/Spawner/RegisteredSpawner.cs:42-45 | another process may start exactly when there is no limit or a slot is free |
| Spawners.DispatchIdle | SpeedDate.ServerPlugins/Spawner/RegisteredSpawner.cs:56-62 | without a connection or with an empty queue nothing is sent and nothing changes |
| Spawners.DispatchHead | SpeedDate.ServerPlugins/Spawner/RegisteredSpawner.cs:54-97 | one request at most, always for the head of the queue, sent exactly when fewer than 8 tasks remain in flight after pruning |
| Spawners.QueuedTasksFillCap | SpeedDate.ServerPlugins/Spawner/RegisteredSpawner.cs:47-70 | eight queued tasks that are not done block every send |
| Spawners.EnqueueAllAdds | SpeedDate.ServerPlugins/Spawner/RegisteredSpawner.cs:47-52 | queueing tasks appends them to the queue and to the in-flight set |
| Spawners.KillWithNothingRunning | SpeedDate.ServerPlugins/Spawner/RegisteredSpawner.cs:118-121 | a kill report with no process running drives the count to -1 and frees a slot too many |
| Spawners.RunIsFifo | SpeedDate.ServerPlugins/Spawner/RegisteredSpawner.cs:47-97 | over any run of operations, tasks are sent in the order they were queued, and none is lost or duplicated |
| Spawners.RunCountsProcesses | SpeedDate.ServerPlugins/Spawner/RegisteredSpawner.cs:113-126 | without explicit count updates, the process count is the starts minus the kills |
| Spawners.RegisteredSpawner.constructor | SpeedDate.ServerPlugins/Spawner/RegisteredSpawner.cs:27-35 | a spawner with an empty queue and no process running |
| Spawners.RegisteredSpawner.CalculateFreeSlotsCount | SpeedDate.ServerPlugins/Spawner/RegisteredSpawner.cs:37-40 | the limit minus the queued tasks and the processes running, unclamped |
| Spawners.RegisteredSpawner.CanSpawnAnotherProcess | SpeedDate.ServerPlugins/Spawner/RegisteredSpawner.cs:42-45 | true exactly when there is no limit or a free slot |
| Spawners.RegisteredSpawner.AddTaskToQueue | SpeedDate.ServerPlugins/Spawner/RegisteredSpawner.cs:47-52 | follows `Enqueue` |
| Spawners.RegisteredSpawner.UpdateQueue | SpeedDate.ServerPlugins/Spawner/RegisteredSpawner.cs:54-97 | follows `Dispatch`; the request returned is the one for the dispatched task |
| Spawners.RegisteredSpawner.OnSpawnResponse | SpeedDate.ServerPlugins/Spawner/RegisteredSpawner.cs:89-96 | any status but success kills the task; a success changes nothing |
| Spawners.RegisteredSpawner.UpdateProcessesCount | SpeedDate.ServerPlugins/Spawner/RegisteredSpawner.cs:113-116 | the count becomes the reported value |
| Spawners.RegisteredSpawner.OnProcessKilled | SpeedDate.ServerPlugins/Spawner/RegisteredSpawner.cs:118-121 | the count drops by one |
| Spawners.RegisteredSpawner.OnProcessStarted | SpeedDate.ServerPlugins/Spawner/RegisteredSpawner.cs:123-126 | the count rises by one |
| Launcher.TakeIsFresh | SpeedDate.ClientPlugins.Spawner/ProcessSpawnerRequestHandler.cs:155-165 | a taken port is at least 10000 and not leased already |
| Launcher.ReleaseKeepsInvariant | SpeedDate.ClientPlugins.Spawner/ProcessSpawnerRequestHandler.cs:167-170 | a released port can be leased again without a clash |
| Launcher.ReuseBeforeMint | SpeedDate.ClientPlugins.Spawner/ProcessSpawnerRequestHandler.cs:155-165 | freed ports are reused oldest first, before a new one is minted |
| Launcher.MintSequence | SpeedDate.ClientPlugins.Spawner/ProcessSpawnerRequestHandler.cs:19-22 | new ports are 10000, 10001, ...; a released 10000 is taken again next |
| Launcher.PathPrecedence | SpeedDate.ClientPlugins.Spawner/ProcessSpawnerRequestHandler.cs:37-58 | the executable path comes from the override, then the request's property, then the config, then the command line or the main module |
| Launcher.ArgumentsReadBack | SpeedDate.ClientPlugins.Spawner/ProcessSpawnerRequestHandler.cs:65-75 | split on spaces, the command line gives back the argument words followed by the custom arguments, and the spawn id and port words parse back to their values |
| Launcher.LaunchLifecycle | SpeedDate.ClientPlugins.Spawner/ProcessSpawnerRequestHandler.cs:87-138 | after a launch the port is back at the tail of the free queue and the process entry is gone; the request was answered once, with success exactly when the process started; start and kill reports went out when connected |
| Launcher.KillOutcomes | SpeedDate.ClientPlugins.Spawner/ProcessSpawnerRequestHandler.cs:141-153 | an unknown spawn id answers true and changes nothing; a known one is forgotten, and the answer is false only when the kill throws |
| Launcher.ProcessSpawnerRequestHandler.constructor | SpeedDate.ClientPlugins.Spawner/ProcessSpawnerRequestHandler.cs:24-28 | no ports leased, no processes, no responses |
| Launcher.ProcessSpawnerRequestHandler.GetAvailablePort | SpeedDate.ClientPlugins.Spawner/ProcessSpawnerRequestHandler.cs:155-165 | follows `TakePort`; only the pool changes |
| Launcher.ProcessSpawnerRequestHandler.ReleasePort | SpeedDate.ClientPlugins.Spawner/ProcessSpawnerRequestHandler.cs:167-170 | follows `FreePort`; only the pool changes |
| Launcher.ProcessSpawnerRequestHandler.HandleSpawnRequest | SpeedDate.ClientPlugins.Spawner/ProcessSpawnerRequestHandler.cs:30-138 | leases a port and builds the launch; when the thread cannot start, the request is answered with an error |
| Launcher.ProcessSpawnerRequestHandler.OnProcessStarted | SpeedDate.ClientPlugins.Spawner/ProcessSpawnerRequestHandler.cs:93-107 | follows `Started`: the process is recorded, the request answered with success, the start reported when connected |
| Launcher.ProcessSpawnerRequestHandler.OnLaunchFinished | SpeedDate.ClientPlugins.Spawner/ProcessSpawnerRequestHandler.cs:111-131 | follows `Finished`: failure answered if the process never started, port released, entry removed, kill reported when connected |
| Launcher.ProcessSpawnerRequestHandler.HandleKillRequest | SpeedDate.ClientPlugins.Spawner/ProcessSpawnerRequestHandler.cs:141-153 | follows `Kill` |
| Lobbies.NewLobbyValid | SpeedDate.ServerPlugins/Lobbies/Lobby.cs:99-115 | a new lobby over empty teams with distinct names satisfies the lobby invariant |
| Lobbies.TeamSizesSum | SpeedDate.ServerPlugins/Lobbies/Lobby.cs:118 | the team sizes add up to the player count |
| Lobbies.TeamAvailableBelowMax | SpeedDate.ServerPlugins/Lobbies/Lobby.cs:213-219 | below `MaxPlayers` some team has room, so "Invalid lobby team" cannot happen |
| Lobbies.AddPlayerOutcome | SpeedDate.ServerPlugins/Lobbies/Lobby.cs:163-245 | a player joins exactly when not in a lobby, named, new, the lobby alive, the player allowed, the lobby not full and the game not live (unless allowed); a refusal changes nothing |
| Lobbies.AddPlayerPlacement | SpeedDate.ServerPlugins/Lobbies/Lobby.cs:163-245 | the joiner enters both maps, not ready, in the first team of smallest size that has room; other members are untouched; the first member becomes master; the peer subscribes |
| Lobbies.AddPlayerKeepsInvariant | SpeedDate.ServerPlugins/Lobbies/Lobby.cs:163-245 | joining keeps the maps, the teams and the game master consistent |
| Lobbies.DetachEffect | SpeedDate.ServerPlugins/Lobbies/Lobby.cs:257-272 | a removed member leaves both maps, its team and the subscribers; the others are untouched |
| Lobbies.RemovePlayerOutcome | SpeedDate.ServerPlugins/Lobbies/Lobby.cs:247-281 | removing a non-member changes nothing; removing a member detaches it, and destroys the lobby exactly when it was the last and the lobby is not kept alive |
| Lobbies.RemovePlayerKeepsInvariant | SpeedDate.ServerPlugins/Lobbies/Lobby.cs:247-281 | removal keeps the lobby invariant |
| Lobbies.LastLeaves | SpeedDate.ServerPlugins/Lobbies/Lobby.cs:827-838 | when the last member leaves, the lobby is destroyed, empty and has no master |
| Lobbies.PickMasterConsistent | SpeedDate.ServerPlugins/Lobbies/Lobby.cs:427-433 | electing the first listed member keeps the master rule: one exactly when there are members |
| Lobbies.DetachConsistent | SpeedDate.ServerPlugins/Lobbies/Lobby.cs:257-268 | detaching a member keeps the maps, the teams and the master rule |
| Lobbies.DestroyOutcome | SpeedDate.ServerPlugins/Lobbies/Lobby.cs:507-527 | destroying empties the lobby, kills its spawn task once, and does nothing a second time |
| Lobbies.DestroyDetachesAll | SpeedDate.ServerPlugins/Lobbies/Lobby.cs:507-527 | detaching the members one at a time leaves no member behind and the maps consistent, keeps the lobby state and kills the bound task |
| Lobbies.SetStateResetsReady | SpeedDate.ServerPlugins/Lobbies/Lobby.cs:127-138 | setting the same state changes nothing; a new state is recorded, its status text is broadcast unless it equals the stored text (which stays as it was), and every ready flag is cleared with the rest of each member kept |
| Lobbies.StartGameOutcome | SpeedDate.ServerPlugins/Lobbies/Lobby.cs:479-505 | a live lobby turns private; the game starts exactly when the lobby is live and the spawner hands out a task; a replaced task is killed; membership is untouched |
| Lobbies.LastReadyStartsGame | SpeedDate.ServerPlugins/Lobbies/Lobby.cs:360-371 | the last member to become ready starts the game when the lobby starts on all-ready and no team is short |
| Lobbies.SetReadyKeepsMembership | SpeedDate.ServerPlugins/Lobbies/Lobby.cs:360-371 | changing a ready flag never changes who is in which team |
| Lobbies.SetPropertyOutcome | SpeedDate.ServerPlugins/Lobbies/Lobby.cs:283-312 | a player may set a lobby property exactly when players may change properties and, with masters enabled, the player is the master or, in a lobby with no members (so no master), the player is not a member; only that property changes |
| Lobbies.TryJoinTeamOutcome | SpeedDate.ServerPlugins/Lobbies/Lobby.cs:392-420 | a switch succeeds exactly when switching is enabled, the new team has room and differs from the current one; the member moves from one team to the other and nothing else changes |
| Lobbies.TryJoinTeamKeepsInvariant | SpeedDate.ServerPlugins/Lobbies/Lobby.cs:392-420 | switching teams keeps the lobby invariant |
| Lobbies.StartManuallyOutcome | SpeedDate.ServerPlugins/Lobbies/Lobby.cs:710-764 | the start is attempted exactly when manual start is on, the caller's membership equals the master (the master itself, or, with no master, a caller who is not a member), the lobby is preparing, everyone else is ready and every player and team minimum is met; refusals change nothing |
| Lobbies.StatusProjection | SpeedDate.ServerPlugins/Lobbies/Lobby.cs:554-614 | spawn statuses map to lobby states: starting ones to starting, finalized to in progress (with the room's address), failures back to preparations or to failed or over |
| Lobbies.RoomDestroyedReverts | SpeedDate.ServerPlugins/Lobbies/Lobby.cs:616-627 | the room, its address and the spawn task are forgotten, and the lobby goes back to preparations or to over |
| Lobbies.CountdownHalts | SpeedDate.ServerPlugins/Lobbies/Lobby.cs:963-968 | the automation stops without change once the state leaves its loop condition or the lobby is destroyed |
| Lobbies.CountdownResets | SpeedDate.ServerPlugins/Lobbies/Lobby.cs:970-987 | too few players or a short team resets the timer to 10 and leaves the state alone |
| Lobbies.CountdownRuns | SpeedDate.ServerPlugins/Lobbies/Lobby.cs:989-1006 | otherwise the timer drops by one and the game starts once it reaches 0; but with all teams full the timer is raised to at least 5, so that pass only waits and the state stays |
| Lobbies.CountdownKeepsMembership | SpeedDate.ServerPlugins/Lobbies/Lobby.cs:959-1006 | a countdown pass never changes membership |
| Lobbies.FullTeamsMeetMinimums | SpeedDate.ServerPlugins/Lobbies/Lobby.cs:980-993 | full teams meet every team minimum, so a full lobby always counts down |
| Lobbies.FullTeamsCountdown | SpeedDate.ServerPlugins/Lobbies/Lobby.cs:993-1006 | with all teams full, a pass never resets and never starts the game: it waits with the timer at the larger of its decrement and 5, and the state stays |
| Lobbies.FullTeamsStallAsWritten | SpeedDate.ServerPlugins/Lobbies/Lobby.cs:993-998 | with the clamp as written, the timer never drops below 5 while teams are full |
| Lobbies.FullTeamsStartWithinSix | SpeedDate.ServerPlugins/Lobbies/Lobby.cs:993-998 | with the clamp as intended, full teams start the game within six passes |
| Lobbies.StatusRepeatsAsWritten | SpeedDate.ServerPlugins/Lobbies/Lobby.cs:140-150 | with the setter as written, the stored text never changes, so setting the same new text twice broadcasts it twice |
| Lobbies.StatusBroadcastOnce | SpeedDate.ServerPlugins/Lobbies/Lobby.cs:140-150 | with the setter as intended, the text is stored, repeating it changes nothing, and a text is broadcast only when it differs |
| Lobbies.FirstPlayerScenario | SpeedDate.ServerPlugins/Lobbies/Lobby.cs:710-764 | in a two-team lobby, the first player joins team A and becomes master; another peer cannot start; the master cannot start alone ("Need 1 more") |
| Lobbies.TeamShortfallScenario | SpeedDate.ServerPlugins/Lobbies/Lobby.cs:392-420 | the second player joins team B; after switching to A, the master's start is refused because team B is short |
| Lobbies.Lobby.constructor | SpeedDate.ServerPlugins/Lobbies/Lobby.cs:99-115 | a new lobby in preparations with no members, satisfying the invariant |
| Lobbies.Lobby.SetStatusText | SpeedDate.ServerPlugins/Lobbies/Lobby.cs:140-150 | follows `SetStatus`, the setter as written: a text other than the stored one is broadcast, and the stored text is not updated |
| Lobbies.Lobby.ClearReadyFlags | SpeedDate.ServerPlugins/Lobbies/Lobby.cs:864-866 | every member's ready flag is cleared and nothing else changes |
| Lobbies.Lobby.SetState | SpeedDate.ServerPlugins/Lobbies/Lobby.cs:127-138 | follows `SetStateStep`, with the status text set through the setter as written |
| Lobbies.Lobby.ElectGameMaster | SpeedDate.ServerPlugins/Lobbies/Lobby.cs:427-433 | follows `PickNewGameMaster` |
| Lobbies.Lobby.DetachMember | SpeedDate.ServerPlugins/Lobbies/Lobby.cs:257-272 | follows `Detach` |
| Lobbies.Lobby.AddPlayer | SpeedDate.ServerPlugins/Lobbies/Lobby.cs:163-245 | follows `AddPlayerStep` and keeps the invariant |
| Lobbies.Lobby.RemovePlayer | SpeedDate.ServerPlugins/Lobbies/Lobby.cs:247-281 | follows `RemovePlayerStep` and keeps the invariant |
| Lobbies.Lobby.Destroy | SpeedDate.ServerPlugins/Lobbies/Lobby.cs:507-527 | follows `DestroyStep`, detaching members one at a time, and keeps the invariant |
| Lobbies.Lobby.SetGameSpawnTask | SpeedDate.ServerPlugins/Lobbies/Lobby.cs:534-552 | follows `SpawnTaskStep`: a different task replaces the bound one, which is killed; the invariant is kept |
| Lobbies.Lobby.StartGame | SpeedDate.ServerPlugins/Lobbies/Lobby.cs:479-505 | follows `StartGameStep` and keeps the invariant |
| Lobbies.Lobby.SetProperty | SpeedDate.ServerPlugins/Lobbies/Lobby.cs:283-297 | follows `SetPropertyStep` |
| Lobbies.Lobby.PutProperty | SpeedDate.ServerPlugins/Lobbies/Lobby.cs:299-312 | the property is set, always successfully |
| Lobbies.Lobby.SetPlayerProperty | SpeedDate.ServerPlugins/Lobbies/Lobby.cs:335-350 | follows `SetPlayerPropertyStep` |
| Lobbies.PropertyKeepsMembership | SpeedDate.ServerPlugins/Lobbies/Lobby.cs:335-350 | a player property never changes who is in the lobby, their peer, team or the master |
| Lobbies.Lobby.SetLobbyProperties | SpeedDate.ServerPlugins/Lobbies/Lobby.cs:352-358 | every given property is set over the old ones |
| Lobbies.Lobby.StartWhenAllReady | SpeedDate.ServerPlugins/Lobbies/Lobby.cs:945-954 | follows `AllReadyStep` |
| Lobbies.Lobby.SetReadyState | SpeedDate.ServerPlugins/Lobbies/Lobby.cs:360-371 | follows `SetReadyStep` and keeps the invariant |
| Lobbies.Lobby.TryJoinTeam | SpeedDate.ServerPlugins/Lobbies/Lobby.cs:392-420 | follows `TryJoinTeamStep` and keeps the invariant |
| Lobbies.Lobby.Subscribe | SpeedDate.ServerPlugins/Lobbies/Lobby.cs:469-472 | the peer is added to the subscribers and nothing else changes |
| Lobbies.Lobby.Unsubscribe | SpeedDate.ServerPlugins/Lobbies/Lobby.cs:474-477 | the peer is removed from the subscribers and nothing else changes |
| Lobbies.Lobby.StartGameManually | SpeedDate.ServerPlugins/Lobbies/Lobby.cs:710-764 | follows `StartManuallyStep` and keeps the invariant |
| Lobbies.Lobby.OnSpawnServerStatusChanged | SpeedDate.ServerPlugins/Lobbies/Lobby.cs:554-586 | follows `StatusChangedStep` and keeps the invariant |
| Lobbies.Lobby.OnGameServerFinalized | SpeedDate.ServerPlugins/Lobbies/Lobby.cs:588-614 | follows `FinalizeStep` |
| Lobbies.Lobby.OnRoomDestroyed | SpeedDate.ServerPlugins/Lobbies/Lobby.cs:616-627 | follows `RoomDestroyedStep` and keeps the invariant |
| Lobbies.Lobby.AutomationTick | SpeedDate.ServerPlugins/Lobbies/Lobby.cs:959-1006 | follows `CountdownStep`, with the full-teams clamp and the status setter as written, and keeps the invariant |

## Left out

- Sockets, threads, `async`/`await`, logging and the `Broadcast` messages are left out. The status texts a lobby broadcasts are kept as a list. Replies and notifications are recorded as values.
- Time (`DateTime.Now`), a peer's connection state, the owner's answer to an access check, the spawner's answer to a spawn request, the outcome of starting or killing a process and the `IsPlayerAllowed` hook are parameters.
- The enumeration order of .NET dictionaries is modelled as insertion order (`memberOrder`). Slot reuse after removals is not modelled. The snapshot of the observable dictionary is specified for any enumeration order.
- Lobby chat (`HandleChatMessage`, `BroadcastChatMessage`, `SendChatMessage`), `AddControl`, `GenerateLobbyData`, `GenerateMemberData` and `HandleGameAccessRequest` only build messages for clients and are not modelled.
- `OnPeerDisconnected` calls `RemovePlayer`, which is modelled. The event wiring itself is left out.
- `GetMember` is modelled as a lookup by peer id (`MemberByPeerId`). The username overload is a plain map lookup.
- The `LobbyTeam` class is not part of this model. Its `AddMember` is assumed to refuse a full team or a present member, and its `PlayerCount` is assumed to be the member count. `LobbyState` is assumed to start at `Preparations`. The spawn statuses are grouped into starting and failure kinds by their names.
- Lobby configuration flags are fixed when the lobby is made. The source lets them change at any time.
- Lobbies.Lobby.AddPlayer: it requires that a peer already in the member map has its `CurrentLobby` set. `AddPlayer` always sets it, so only outside code could break this.
- The lobby's `PlayerAdded`, `PlayerRemoved` and `Destroyed` events (Lobby.cs:242, 280, 526) and the `LeftLobby` message to a departing peer (Lobby.cs:276) only notify listeners and clients; the model does not record them.
- `OnGameServerFinalized` parses the room id with `int.Parse` (Lobby.cs:602), which throws on a room id that is not a number. The model's `BadRoomId` finalization leaves the lobby as it is; the exception reaching the caller is not modelled.
- The refusal paths of `StartGameManually` for a caller who is not a member send a chat message to a null member, which throws in the source. The model returns the refusal instead.
- Lobbies.Lobby.TryJoinTeam: it requires an existing team and a current member. The source's dictionary indexer throws otherwise.
- A null username in `RemovePlayer` makes the source throw. The model takes an absent user as "not a member".
- The player's `CurrentLobby` is reset on removal in the source. The model keeps no extension objects, so this reset is not modelled.
- `StartAutomation`'s loop, its one-second delay and its interleaving with other calls are modelled as one pass, `AutomationTick`, with the timer passed in and returned.
- `GenerateCmdArgs` and the region and extra arguments of a spawn task are not part of this model. `SetGameSpawnTask` takes the task the spawner returned.
- `RegisteredRoom.ChangeOptions` replaces the options wholesale and is not modelled separately. `_players` is never filled in the source, so `OnPlayerLeft` never raises `PlayerLeft`, and neither does the model.
- Adding an access for a peer already in use throws in `ValidateAccess`. The model gives that call the outcome `DuplicatePlayer` and leaves the state unchanged apart from the removed token.
- `RegisteredSpawner.SendKillRequest` only forwards a message and its callback, and is not modelled.
- Spawners.Dispatch: the source removes finished tasks from `_beingSpawned` while enumerating it, which .NET refuses at run time. The model removes them as evidently intended.
- Spawners.RegisteredSpawner.OnProcessKilled: the count is not floored at zero, as in the source (see `KillWithNothingRunning`).
- A thread that fails to start in `HandleSpawnRequest` answers with an error. Its port stays leased, as in the source.
- Floating-point timers (`float` seconds in `StartAutomation`) are integers in the model. Only whole seconds occur.
- `IncomingMessage.Deserialize` and the packet classes' own serialisers are not part of this model. The dictionary's codecs are parameters with a round-trip law.

Two behaviours of the code are worth stating outright. A manual start by the only member of a two-team lobby is refused for the total player count ("Need 1 more "), since that check (Lobby.cs:745-752) comes before the per-team check (Lobby.cs:754-761); with two members both in team A, the count passes and the team check refuses for team B. Entering `Preparations` sets the status text "Failed to start server", as written in `OnLobbyStateChange`.

## Findings

The lobby runs both behaviours as written (`SetStatus`, `FullTeamsClampAsWritten`). The intended definitions, `SetStatusAsIntended` and `FullTeamsClamp`, are stated beside them with the intended property proved.

| source | as written | input that shows it | evidently intended | confidence | as-written member | corrected member |
|---|---|---|---|---|---|---|
| SpeedDate.ServerPlugins/Lobbies/Lobby.cs:993-998 | with all teams full, the timer becomes the larger of itself and 5 | all teams full and the timer at 10: the passes show 9, 8, 7, 6, 5, 5, 5, ... and the game never starts | the timer becomes the smaller of itself and 5, so full teams start sooner | high, not executed | Lobbies.FullTeamsStallAsWritten | Lobbies.FullTeamsStartWithinSix |
| SpeedDate.ServerPlugins/Lobbies/Lobby.cs:140-150 | the setter broadcasts a new text but never stores it | setting "Starting game in 3" twice in a row broadcasts it twice | the setter stores the text, so a repeated text is not broadcast again | high, not executed | Lobbies.StatusRepeatsAsWritten | Lobbies.StatusBroadcastOnce |
