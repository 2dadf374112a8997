# CheshireLane9 in Dafny

A model of the server emulator's stateful parts and proofs about it. It follows the Rust source branch by
branch and states what the source promises as for-all statements over every input, run or interleaving.

- `Packets.dfy`, `Framing.dfy`, `FramingLaws.dfy`, `GateStream.dfy`: the packet codec, the byte buffer it is
  cut from, the read loops of the gate and dispatch services, and reassembly under every way a stream can be
  cut into reads.
- `Inventory.dfy`, `Statistics.dfy`, `Game.dfy`: a player's ships and skins over the unordered game data, the
  statistics list, and the packet handlers.
- `Runtime.dfy`, `RuntimeLaws.dfy`, `Overlap.dfy`, `Gateway.dfy`: the cache of player sessions over the players
  table as a step machine with any number of interleaving connections, exactly which overlapping requests of
  one player are harmless, and the same operations as objects.
- `Controller.dfy`, `Exclusion.dfy`, `Shutdown.dfy`: the start, stop and join protocol of the desktop
  application, what keeps it to one runtime, and its use from one thread at a time.
- `LogSink.dfy`: the bounded UTF-8 log text (sections 3 and 4 of RFC 3629).
- `Texts.dfy`, `ConfigForm.dfy`: trimming, decimals and dotted quads, and the configuration form.
- `Wrappers.dfy`, `Bytes.dfy`: shared types.

Step machines (`Runtime`, `Controller`) take every section under a lock, every database call, join, spawn and
send as one atomic step; a run is any sequence of steps, so every interleaving is covered. Code that updates
state in place is a class or a method with a loop, proved against a specification function; the laws are
lemmas about those functions.

What comes from outside is a parameter: the chunks a socket delivers, the clock, the iteration order of each
hash map, the ticket hash, the rows found in the players table, and the parser and printer of socket
addresses. A row that was written reads back as the record that was written; a row found at the start may
also be unreadable. The game data are loaded, and its ship templates are keyed by the decimal of their id
(true of the shipped `ship_data_template.json`). Arithmetic on 32-bit ids wraps, as in a release build.

Where the code does less than one might expect, the exact condition is proved:

- A stream with stray padding bytes is reassembled under a given cut if and only if no read ends in the window
  of one of them: late enough for the padding byte and the high byte of the length behind it to pass for a
  whole frame, and within 7 bytes of where the padding begins (`GateStream.ReassemblesIffNoReadEndsInWindow`).
  It is reassembled under every cut if and only if each such pair reads at least 7
  (`GateStream.ReassemblesUnderEveryCutIffSafe`); the smallest failing stream has two empty frames
  (`GateStream.ZeroPadBeforeEmptyFrameBreaks`).
- A payload of one byte, or of more than 65530, does not survive the codec
  (`FramingLaws.EncodedStreamSplitsBack`, `Packets.EncodeThenParse`).
- Requests of one player that overlap leave row and cached record equal under every schedule if and only if
  no two of them clash: none changes the record after another has asked for a save, and none that may still
  write the default record would leave it there (`Overlap.EveryScheduleAgreesIffHarmless`). Clashes happen in
  runs from the start (`Overlap.LostUpdateIsReachable`, `Overlap.LateDefaultIsReachable`); without overlap, or
  with harmless overlap only, the two agree whenever the player is at rest (`RuntimeLaws.CacheAndStoreAgree`,
  `Overlap.CarefulRunsAgree`).
- The reset that ends a `shutdown_and_wait` endangers "at most one runtime" if and only if some run is being
  launched or before its cleanup at that moment, and nothing else ever does (`Exclusion.ResetIsSafeIffCalm`,
  `Exclusion.ExclusionIsSafeIffGuarded`). In terms of calls it is enough that no `start` is in progress
  together with another `start` or a `shutdown_and_wait` (`Exclusion.CoordinatedCallsKeepOne`); calls in
  sequence, as the application makes them, are such (`Shutdown.SerialIsCoordinated`). Dropping either half
  breaks it: a `shutdown_and_wait` during a `start` (`Exclusion.ShutdownDuringStartBreaksExclusion`), and two
  overlapping starts followed by a `shutdown_and_wait` that overlaps no start
  (`Exclusion.OverlappingStartsBreakExclusion`).
- A loaded configuration passes through the form unchanged if and only if it has one server with the fixed
  fields the form writes, the tag behind nine plain hashes, and acceptable texts, addresses and ports
  (`ConfigForm.LoadedConfigSurvivesIffEditable`).
- A form whose hash starts with `dTag-` is saved but cannot be displayed again
  (`ConfigForm.AcceptedFormIsDisplayedIffUntagged`, `ConfigForm.TaggedHashIsAcceptedButNotShown`).

## Model

| member | source | states |
|---|---|---|
| Packets.ParseThenPrint | crates/cheshire-server-core/src/packet.rs:31-109 | Whenever parsing accepts bytes, printing the packet gives back exactly those bytes, and its recorded wire length is theirs |
| Packets.EncodeThenParse | crates/cheshire-server-core/src/packet.rs:31-101 | An encoded packet parses back, with flag 0, the given command, id and payload and length 5 plus the payload, if and only if its payload has at most 65530 bytes; beyond that the 16-bit length wraps and parsing refuses |
| Packets.EncodedBytes | crates/cheshire-server-core/src/packet.rs:74-101 | On the wire an encoded packet is its length (5 plus the payload, modulo 65536), flag 0, command and id, each number big-endian, then the payload |
| Packets.RefusedExactly | crates/cheshire-server-core/src/packet.rs:31-72 | Bytes are refused as too short, as declaring less than a header, or as declaring another length than they have, except a declared 6 for an empty frame; nothing else is refused |
| Framing.ByteBuffer.DropPaddingBeforeNextPacket | crates/cheshire-server-core/src/packet.rs:147-178 | One byte goes, and only the first, exactly when a previous id is known, the next packet is not recognised at offset 0 and is at offset 1 |
| Framing.ByteBuffer.SplitFromAfter | crates/cheshire-server-core/src/packet.rs:123-145 | After padding, a frame is cut exactly when all of it has arrived; what is cut, what is left and what is parsed are fixed, and otherwise nothing more is taken |
| Framing.DrainBuffer | crates/cheshire-server-services/src/gate.rs:67-71 | The inner loop over the in-place buffer computes the recursive drain: same events, same buffer, same remembered id, closed at the first bad frame |
| Framing.HandleClient | crates/cheshire-server-services/src/gate.rs:51-86 | The read loop of the gate (and of dispatch) over any chunks up to end of stream ends in the state the specification function gives |
| FramingLaws.PaddingRule | crates/cheshire-server-core/src/packet.rs:147-178 | Byte by byte: a first byte is padding if and only if an id is known and a packet with flag 0, a command of at least 10000, a length of at least 5 and the next id shows from the second byte on and not from the first |
| FramingLaws.FrameRule | crates/cheshire-server-core/src/packet.rs:123-145 | Byte by byte: a frame is complete if and only if the bytes its length declares are there, where 6 stands for 7 bytes in all |
| FramingLaws.DrainKeepsHistory | crates/cheshire-server-core/src/packet.rs:123-161 | Draining only appends events, and the bytes taken out so far followed by the buffer never change |
| FramingLaws.ServeConservesBytes | crates/cheshire-server-services/src/gate.rs:60-85 | Over a whole connection of either service no byte is lost, invented or reordered; after an error the rest of the stream is simply not read |
| FramingLaws.ServeIsGenuineAndBounded | crates/cheshire-server-services/src/gate.rs:58-67 | With reads of at most 4096 bytes: each accepted packet is a whole frame of at least 7 bytes, an error means a declared length below 5, is reported as too short and is last; the buffer holds at most 65536 bytes between reads and 69632 after one |
| FramingLaws.ConnectionAccountsForBytes | crates/cheshire-server-services/src/gate.rs:51-86 | The three laws together for every connection from its first byte, with both bounds on the buffer |
| FramingLaws.DispatchDrainsEarly | crates/cheshire-server-core/src/packet.rs:119-145 | Draining before or after more bytes arrive agrees, including when the first part already ends in an error |
| FramingLaws.DispatchReadsStream | crates/cheshire-server-services/src/dispatch.rs:56-72 | For every stream and every cut into reads: same packets, same error point, same leftover bytes as reading all at once |
| FramingLaws.EncodedStreamSplitsBack | crates/cheshire-server-core/src/packet.rs:74-145 | Encoded packets put end to end split back into exactly those packets if and only if no payload has length 1 or more than 65530 |
| GateStream.FrameIsNotPadding | crates/cheshire-server-core/src/packet.rs:147-178 | However much of a genuine frame has arrived and whatever follows it, none of its bytes is dropped and it is not cut early |
| GateStream.PadIsRecognised | crates/cheshire-server-core/src/packet.rs:147-178 | An in-order padding byte is recognised exactly from 8 buffered bytes on; with fewer, something is cut exactly inside its window |
| GateStream.Reassembles | crates/cheshire-server-services/src/gate.rs:56-85 | Under every cut of a stream of client frames with safe padding, exactly the frames come out in order, exactly the padding bytes are dropped, the buffer ends empty |
| GateStream.ReassemblesIffNoReadEndsInWindow | crates/cheshire-server-services/src/gate.rs:56-85 | For each sendable stream and each cut of it: exactly the frames come out in order and exactly the padding bytes are dropped, if and only if no read ends between the place where a padding byte and the byte behind it pass for a whole frame and 7 bytes after the padding begins |
| GateStream.UnsafePadBreaks | crates/cheshire-server-core/src/packet.rs:123-178 | Every stream with an unsafe padding byte has a cut under which the events differ |
| GateStream.ReassemblesUnderEveryCutIffSafe | crates/cheshire-server-core/src/packet.rs:123-178 | Reassembly under every cut holds if and only if each padding byte times 256 plus the high byte of the next length is at least 7 |
| GateStream.ZeroPadBeforeEmptyFrameBreaks | crates/cheshire-server-core/src/packet.rs:123-178 | A concrete sendable stream, an empty frame and a zero padding byte before a second one, with a cut under which the events differ |
| Inventory.AddShipKeepsDense | crates/cheshire-server-core/src/game/player_info.rs:193-256 | The new id keeps ids dense (the ship at index i has id i+1) if and only if the count still fits 32 bits |
| Inventory.AddShipAppendsFreshShip | crates/cheshire-server-core/src/game/player_info.rs:193-256 | Exactly when template, statistics and default skin exist, one ship is appended: level 1, affection 10000, the template's energy and skills, its equipment and two empty slots, default skin, pledged, with an id one above every id in use |
| Inventory.ChangeSkinHitsFirst | crates/cheshire-server-core/src/game/mod.rs:200-208 | Whatever the ids, the first ship with the given id gets the skin and nothing else changes |
| Inventory.EligibleMeans | crates/cheshire-server-core/src/game/mod.rs:630-633 | A template can be handed out if and only if it is of the highest stage, has at least five stars, statistics and a skin |
| Inventory.GiveAllShipsGivesFreshShips | crates/cheshire-server-core/src/game/mod.rs:621-637 | Every ship the command adds has the fresh contents of its own template |
| Inventory.ChangeSkinHitsOneShip | crates/cheshire-server-core/src/game/mod.rs:200-208 | A skin change for ship k changes exactly index k-1, and nothing if k is out of range |
| Inventory.GiveAllShipsIsOrderIndependent | crates/cheshire-server-core/src/game/mod.rs:621-637 | For every iteration order: old ships stay in front, each missing eligible template is added exactly once, and the template set is the old one plus every eligible template with statistics and a skin |
| Inventory.GiveAllShipsIsIdempotent | crates/cheshire-server-core/src/game/mod.rs:621-637 | A second command in any order changes nothing |
| Inventory.GiveAllSkinsGives | crates/cheshire-server-core/src/game/player_info.rs:258-285 | With a ship: unique ids, first occurrences of the old skins unchanged in front, and exactly the old ids plus all skins of owned ships' groups |
| Inventory.AddedSkinsArePermanent | crates/cheshire-server-core/src/game/player_info.rs:275-283 | Every skin the command adds carries no expiry time |
| Inventory.GiveAllSkinsIsIdempotent | crates/cheshire-server-core/src/game/mod.rs:639-648 | A second command in any order changes nothing |
| Inventory.PushedListsLoseNothing | crates/cheshire-server-core/src/game/player_info.rs:318-338 | The lists sent put together are the ships; all but the last hold exactly 100; there are max(1, ceil(n/100)) |
| Statistics.StableSortIsTheOnlyOne | crates/cheshire-server-core/src/game/player_info.rs:349-351 | A list is ordered by key with ships of equal key in their old order if and only if it is the model's sort, so any stable sorting algorithm gives that result |
| Statistics.SortByTemplate | crates/cheshire-server-core/src/game/player_info.rs:349 | The stable sort is ordered by template and keeps each template's earliest ship earliest |
| Statistics.DedupKeepsEarliest | crates/cheshire-server-core/src/game/player_info.rs:350 | After removal, templates strictly increase and exactly the earliest ship of each is left |
| Statistics.RankedIsEarliestRanking | crates/cheshire-server-core/src/game/player_info.rs:347-351 | Sort, dedup, sort gives exactly the earliest ship of each owned template, ordered by level, then template |
| Statistics.RankingIsUnique | crates/cheshire-server-core/src/game/player_info.rs:347-351 | Only one list meets that description |
| Statistics.StatisticsMeetSpecification | crates/cheshire-server-core/src/game/player_info.rs:347-375 | Any list that meets the simple description, looked up entry by entry, is the statistics list; nothing is filtered out |
| Game.DirtyFlagIsSound | crates/cheshire-server-core/src/game/mod.rs:123-472 | A handler that leaves the dirty flag unset has not changed the record |
| Game.ShipCommandGrantsShips | crates/cheshire-server-core/src/game/mod.rs:578-592 | For every chat text whose first word is ship: only ships change, all that can be handed out are owned afterwards, each new one once, and the ship lists and the confirmation go out |
| Game.SkinCommandGrantsSkins | crates/cheshire-server-core/src/game/mod.rs:578-592 | For every chat text whose first word is skin: only skins change, with a ship every skin of the owned groups is owned once, and the skin list and the confirmation go out |
| Game.OtherWordsBringHelp | crates/cheshire-server-core/src/game/mod.rs:593-595 | Any other first word changes nothing and brings the help text |
| Game.BlankChatBringsError | crates/cheshire-server-core/src/game/mod.rs:594-595 | A blank chat line changes nothing and brings the error text |
| Game.CreationSetsUpPlayer | crates/cheshire-server-core/src/game/player_info.rs:96-137 | Creation sets name, icon, time, room, stories and secretary, adds the chosen ship, ship 106011 and the five resources, and keeps skins |
| Game.LoadingSendsEverything | crates/cheshire-server-core/src/game/mod.rs:474-560 | Loading changes nothing and sends statistics, ship lists, skins and the ship count in that order |
| Game.ShortRequests | crates/cheshire-server-core/src/game/mod.rs:131-208 | Login, story, room, character and skin requests: the one field each may change, its new value, whether a save is asked for, and the answer |
| Game.ReachableRecord | crates/cheshire-server-core/src/game/mod.rs:123-472 | After any sequence of requests from a sound record: ships are in the game data, ids are dense if and only if the count fits 32 bits, skins do not repeat, the uid is unset or the player's own |
| Game.ReachableStatistics | crates/cheshire-server-core/src/game/player_info.rs:347-375 | In every record so reached the statistics hold one entry per distinct owned template, none filtered out |
| Game.ShipMessagesCarryLists | crates/cheshire-server-core/src/game/mod.rs:562-576 | The first list goes out as the ship list and each further list as one addition, in order |
| Game.PlayerInfo.AddShip | crates/cheshire-server-core/src/game/player_info.rs:193-256 | The ship is appended with the next id exactly when template, statistics and default skin all exist; no other field changes |
| Game.PlayerInfo.AddShipSkin | crates/cheshire-server-core/src/game/player_info.rs:258-285 | The two in-place passes with a hash set compute the specification that has none |
| Game.PlayerInfo.GiveAllShips | crates/cheshire-server-core/src/game/mod.rs:621-637 | The loop with its hash set of owned templates computes the specification the order-independence laws are about |
| Game.PlayerInfo.GiveAllSkins | crates/cheshire-server-core/src/game/mod.rs:639-648 | The loop over owned templates computes the specification the skin laws are about |
| Game.PlayerInfo.Init | crates/cheshire-server-core/src/game/player_info.rs:96-137 | Creation resets the named fields, adds the two first ships and the resources, and makes the first ship the secretary |
| Game.PlayerInfo.AnswerChat | crates/cheshire-server-core/src/game/mod.rs:578-619 | The first word decides between granting ships, granting skins, help and the error text, with the new state and messages of each |
| Game.PlayerInfo.HandlePacket | crates/cheshire-server-core/src/game/mod.rs:123-208 | Each mutating branch leaves the record, dirty flag and answers the specification gives |
| Runtime.NoLostUpdate | crates/cheshire-server-core/src/game/mod.rs:81-121 | Under every interleaving a cached session is the fold of the handlers in lock order from the record found at the start; the stored row is always some moment of that history; "not loaded" is unreachable |
| Runtime.SessionsPersist | crates/cheshire-server-core/src/game/mod.rs:86-105 | No step removes or replaces a session, or shortens its history |
| RuntimeLaws.CacheAndStoreAgree | crates/cheshire-server-core/src/game/mod.rs:81-121 | If operations on one uid never overlap and saves succeed, the row of every loaded player at rest holds exactly the cached record |
| RuntimeLaws.OverlapLosesUpdate | crates/cheshire-server-core/src/game/mod.rs:98-117 | Whenever two connections are about to change one player, saving in the opposite order of locking leaves the first change in the table and the second in the cache |
| RuntimeLaws.StoriesTakeEffect | crates/cheshire-server-core/src/game/mod.rs:171-177 | Two finished stories always form such a pair of effective updates, whatever the record |
| RuntimeLaws.TwoLoginsCanLoseUpdate | crates/cheshire-server-core/src/game/mod.rs:95-120 | From any state with two idle connections logged in to one loaded account, a schedule of two effective requests ends with every connection where it was and row and cached record different |
| RuntimeLaws.RecordsStaySound | crates/cheshire-server-core/src/game/mod.rs:81-121 | If the table starts with sound records, every cached record and every readable row stays sound under every interleaving: dense ids while they fit 32 bits, ships of the game data, no skin twice, no foreign uid |
| Overlap.EveryScheduleAgreesIffHarmless | crates/cheshire-server-core/src/game/mod.rs:81-121 | For any number of requests of one player in flight before the lock: every schedule that lets them finish, of any length and whatever else goes on, ends with row and cached record equal, if and only if no two of them clash |
| Overlap.EffectivePairSpoils | crates/cheshire-server-core/src/game/mod.rs:98-117 | Any two effective requests, whatever others are in flight, have a schedule that ends with row and cached record different |
| Overlap.LateDefaultSpoils | crates/cheshire-server-core/src/database.rs:201-211 | A default record still to be written, by a request that would not save again, has a schedule in which it overwrites another request's saved change |
| Overlap.UnloadedIsUntouched | crates/cheshire-server-core/src/game/mod.rs:81-93 | Until a player is cached, every state a run can reach meets the hypothesis of the equivalence |
| Overlap.CarefulRunsAgree | crates/cheshire-server-core/src/game/mod.rs:81-121 | Over whole runs in which only harmless overlaps arise and no request is cut off, the row holds the cached record whenever the player is at rest |
| Overlap.LostUpdateIsReachable | crates/cheshire-server-services/src/gate.rs:88-178 | From the start, for every account that is not banned: two connections with a good ticket and one story each can end at rest with row and cached record different |
| Overlap.LateDefaultIsReachable | crates/cheshire-server-core/src/database.rs:201-211 | From the start, for every account that is not banned and has no readable row: one story beside a second login can end at rest with row and cached record different |
| RuntimeLaws.PacketsGoToLatestLogin | crates/cheshire-server-services/src/gate.rs:88-178 | In every run each packet handed to the player runtime, and each player worked on, is the account of the latest accepted login on that connection |
| RuntimeLaws.LoginsAreVetted | crates/cheshire-server-services/src/gate.rs:137-176 | A login is accepted only with a matching ticket, an existing account and no ban at that moment, and refused with 17 only for an existing banned account, otherwise with 1 |
| RuntimeLaws.SilentBeforeLogin | crates/cheshire-server-services/src/gate.rs:125-135 | Before a login is accepted every other command is dropped: no answer and no change of any state |
| RuntimeLaws.SessionsKeepTheirUid | crates/cheshire-server-core/src/game/mod.rs:148-161 | Every session's and row's uid stays unset or equal to its key |
| Gateway.UninterruptedRequest | crates/cheshire-server-core/src/game/mod.rs:95-120 | Left alone with one connection, the step machine does to cache and table exactly what the object's method does, and answers the same |
| Gateway.UninterruptedPacket | crates/cheshire-server-services/src/gate.rs:125-135 | The same from the arrival of a packet: it acts on the account in the slot |
| Gateway.LoginOutcomes | crates/cheshire-server-services/src/gate.rs:137-178 | Wrong ticket or unknown account: result 1; ban: result 17; neither changes anything; otherwise the slot is set and the cached, stored or blank record is cached, the blank one also written |
| Gateway.UninterruptedLogin | crates/cheshire-server-services/src/gate.rs:137-178 | Left alone with one connection, the step machine takes a login to exactly that slot, cache, table and answer |
| Gateway.RequestKeepsStep | crates/cheshire-server-core/src/game/mod.rs:95-120 | A request keeps every cached record equal to its row, and leaves other players and all ban flags alone |
| Gateway.Database.LoadOrCreatePlayer | crates/cheshire-server-core/src/database.rs:201-211 | Returns the readable row, or else writes and returns the default; the row then holds what was returned |
| Gateway.Database.SavePlayer | crates/cheshire-server-core/src/database.rs:213-228 | Inserts or updates this row's data only; an existing ban survives |
| Gateway.PlayerRuntime.EnsurePlayer | crates/cheshire-server-core/src/game/mod.rs:81-93 | A cached session is left alone; a missing one is inserted clean with the loaded or default record |
| Gateway.PlayerRuntime.HandlePacket | crates/cheshire-server-core/src/game/mod.rs:95-120 | New cache, new table and answers of one request, with a save exactly when the handler set the dirty flag |
| Gateway.Connection.HandleLogin | crates/cheshire-server-services/src/gate.rs:137-178 | The uid slot is set and a reply given only with a matching ticket, an existing account and no ban; otherwise result 17 for a banned account, 1 for the rest, and no state change |
| Gateway.Connection.HandlePacket | crates/cheshire-server-services/src/gate.rs:88-135 | Nothing happens before login except logins; afterwards the request acts on the account in the slot |
| Exclusion.AtMostOneRuntime | crates/cheshire-server-app/src/server_controller.rs:34-141 | Under every interleaving of all three calls with thread steps, as long as no reset is done while a run is launching or before its cleanup: at most one runtime is launching or before its cleanup, and the flag is set while one is |
| Exclusion.ResetIsSafeIffCalm | crates/cheshire-server-app/src/server_controller.rs:137-139 | In every reachable state the reset at the end of shutdown_and_wait leaves no continuation to two runtimes that is itself free of resets done while a run is in use, if and only if no run is launching or before its cleanup |
| Exclusion.ExclusionIsSafeIffGuarded | crates/cheshire-server-app/src/server_controller.rs:34-141 | Over whole runs: no moment of a run can be continued to two runtimes without such a reset in the continuation, if and only if the run itself does none |
| Exclusion.StartsAndStopsAreGuarded | crates/cheshire-server-app/src/server_controller.rs:34-130 | Any interleaving of starts and stops meets that condition |
| Exclusion.CoordinatedCallsKeepOne | crates/cheshire-server-app/src/server_controller.rs:34-141 | If no start is in progress together with another start or a shutdown_and_wait, at most one runtime thread is unfinished, however stops, shutdowns and threads interleave |
| Exclusion.ShutdownDuringStartBreaksExclusion | crates/cheshire-server-app/src/server_controller.rs:132-141 | A concrete run in which shutdown_and_wait overlaps a start and two runtimes live at once |
| Exclusion.OverlappingStartsBreakExclusion | crates/cheshire-server-app/src/server_controller.rs:107-141 | A concrete run in which no shutdown_and_wait ever overlaps a start, but two starts overlap, and two runtimes live at once |
| Exclusion.CleanupIsOwn | crates/cheshire-server-app/src/server_controller.rs:77-81 | Without such a reset, a thread about to clean up is the latest run, and the sender it clears can only be its own |
| Exclusion.StartJoinsFinishedServer | crates/cheshire-server-app/src/server_controller.rs:35-44 | Without such a reset, the thread a start joins is always past its cleanup |
| Controller.ThreadSteps | crates/cheshire-server-app/src/server_controller.rs:61-100 | In every reachable state: a cleanup lowers the flag, drops the stored sender and leaves the handle; no other step of a thread touches the shared state |
| Controller.CallSections | crates/cheshire-server-app/src/server_controller.rs:34-141 | What each section under the lock, join, spawn and send of the three calls does to flag, sender, handle and threads, in any state |
| Controller.StopSucceedsOncePerStart | crates/cheshire-server-app/src/server_controller.rs:120-130 | Under every interleaving of all three calls, stop reports success at most once for each start |
| Shutdown.ShutdownIsClean | crates/cheshire-server-app/src/server_controller.rs:132-141 | With calls in sequence, when shutdown_and_wait returns no runtime thread is alive and flag, sender and handle are cleared |
| Shutdown.ShutdownWaitsOnlyForToldServer | crates/cheshire-server-app/src/server_controller.rs:120-135 | With calls in sequence it never joins a serving thread whose sender has not been used |
| Shutdown.JoinedRunCanFinish | crates/cheshire-server-app/src/server_controller.rs:61-100 | In every reachable state the steps a joined thread has left, taken by it alone, let the caller that joins it go on |
| Shutdown.RunningIffServing | crates/cheshire-server-app/src/server_controller.rs:77-81 | With calls in sequence and no panic, between calls the controller counts as running if and only if some runtime is before its cleanup |
| Shutdown.SerialIsCoordinated | crates/cheshire-server-app/src/server_controller.rs:34-141 | Calls in sequence never overlap a start, so they keep at most one runtime |
| Shutdown.ServerController.Start | crates/cheshire-server-app/src/server_controller.rs:34-118 | Refused without change while running; otherwise the previous thread is joined and, unless it panicked or no thread can be spawned, the new run's flag, sender and handle are stored; the object stays in a state of a serial run |
| Shutdown.ServerController.Stop | crates/cheshire-server-app/src/server_controller.rs:120-130 | True exactly when a stored sender reaches a serving run; the sender is gone either way and nothing else changes |
| Shutdown.ServerController.ShutdownAndWait | crates/cheshire-server-app/src/server_controller.rs:132-141 | Afterwards every thread is gone and flag, sender and handle are cleared; the result tells whether the joined thread panicked |
| Shutdown.ServerController.Progress | crates/cheshire-server-app/src/server_controller.rs:77-81 | A cleanup clears flag and sender and leaves the handle, no other step touches them, and the thread advances in its order |
| LogSink.BoundaryTestIsExact | crates/cheshire-server-app/src/log_sink.rs:84 | In valid UTF-8 the one-byte boundary test holds exactly between characters, and the rest from there is valid |
| LogSink.NextBoundary | crates/cheshire-server-app/src/log_sink.rs:83-86 | The search finds the first boundary and ends within three steps |
| LogSink.LogView.Append | crates/cheshire-server-app/src/log_sink.rs:78-91 | The new text is the longest suffix of old text and message that starts on a character and fits 100000 bytes; at most 3 bytes are given up beyond that |
| LogSink.TruncationForgetsNothing | crates/cheshire-server-app/src/log_sink.rs:78-91 | Truncating the truncated text equals truncating the whole history |
| LogSink.Relay | crates/cheshire-server-app/src/log_sink.rs:59-62 | After any messages the text is the longest fitting suffix of everything ever appended |
| LogSink.LongestSuffixIsUnique | crates/cheshire-server-app/src/log_sink.rs:78-91 | That suffix is unique, so the log is a function of its history |
| Texts.WhiteSpaceCharacters | crates/cheshire-server-app/src/config_editor.rs:217 | White space is exactly the 25 characters of the Unicode property White_Space |
| Texts.TrimDropsOnlyBlank | crates/cheshire-server-app/src/config_editor.rs:217 | Trimming takes away white space at the ends and nothing else |
| Texts.ParseAcceptsExactly | crates/cheshire-server-app/src/config_editor.rs:240-243 | Exactly a nonempty row of digits, perhaps behind one plus sign, with a value within the bound is read as a number |
| Texts.ParseUndoesPrint | crates/cheshire-server-app/src/config_editor.rs:240-243 | A printed number is read back exactly when it is within the bound, and needs no trimming |
| Texts.ParseIgnoresPlusAndZero | crates/cheshire-server-app/src/config_editor.rs:240-243 | A plus sign or a leading zero before any numeral changes neither what is read nor whether it is refused |
| Texts.OctetsAreCanonical | crates/cheshire-server-app/src/config_editor.rs:252-261 | An accepted dotted quad is already in its printed form |
| Texts.OctetsPrint | crates/cheshire-server-app/src/config_editor.rs:252-261 | Every printed dotted quad is accepted and read back |
| ConfigForm.CanonicalFormMeansTheSame | crates/cheshire-server-app/src/config_editor.rs:147-262 | Canonicalising any form changes neither the configuration it yields nor the error it meets |
| ConfigForm.AcceptedFormIsDisplayedIffUntagged | crates/cheshire-server-app/src/config_editor.rs:41-85 | An accepted configuration can be displayed again if and only if none of the nine trimmed hashes starts with dTag-, and is then the canonical form |
| ConfigForm.LoadedConfigSurvivesIffEditable | crates/cheshire-server-app/src/config_editor.rs:41-85 | For every configuration with addresses read from text: showing it in the form and collecting it again gives the same configuration if and only if it is editable; a second server, other fixed fields or a misplaced tag are lost or refused |
| ConfigForm.TaggedHashIsAcceptedButNotShown | crates/cheshire-server-app/src/config_editor.rs:41-85 | Any accepted form with one hash replaced by one that starts with dTag- is still accepted and can no longer be displayed |
| ConfigForm.AcceptedConfigIsServable | crates/cheshire-server-app/src/config_editor.rs:147-262 | Whatever is accepted has a SQLite URL, reachable advertised addresses, no zero port, nine hashes and the tag, and one server that is its own proxy |
| ConfigForm.FirstBlankVersionIsNamed | crates/cheshire-server-app/src/config_editor.rs:159-170 | The hashes are accepted if none is blank; otherwise the error names the first blank one |
| ConfigForm.FirstErrorIsReported | crates/cheshire-server-app/src/config_editor.rs:147-262 | The error reported is that of the first bad field in the order of the form, each with its own reason and label; without one the form is accepted |

## Left out

- Protobuf, JSON and TOML encoding: requests are values, rows read back what was written, other payloads are bytes.
- MD5 and the clock: the ticket hash is an arbitrary function, each clock reading an arbitrary value.
- Sockets, listeners and task sets: a connection is the sequence of chunks it delivers.
- Writing the answers to the socket, and `dispatch.rs` `handle_packet`: one stateless case analysis with constant answers.
- Branches of `handle_player_packet` that answer with constants, and any payload that does not decode: one request kind that changes nothing.
- The rest of `load_player_data`: only its statistics, ship lists, skin list and ship count are modelled.
- Statistics.RankedIsEarliestRanking: the source sorts and deduplicates a local clone in place; the model computes new sequences, so aliasing is not captured; that any stable sort gives the same list is Statistics.StableSortIsTheOnlyOne.
- Game data that are not loaded or whose ship templates are not keyed by their id; debug builds, where an id overflow panics instead of wrapping.
- The SQL text, schema migration and SDK account operations of `database.rs`: accounts are a set that only grows, players a map.
- RuntimeLaws.CacheAndStoreAgree: asks for no overlap at all over a whole run; which overlaps are harmless is decided by Overlap.EveryScheduleAgreesIffHarmless for requests not yet handled when the schedule begins.
- Framing.HandleClient: handlers do not fail; in the source a database or socket error also ends the connection, after a prefix of the same events.
- Shutdown.ServerController.Stop: the serving thread takes no step between the taking of the sender and its use; in Controller it may.
- Game.PlayerInfo.Init: leaves out the fields that are set to constants and never used by a handler (level, bag sizes, advertisement, resource fields, dorm, academy, chapters).
- Game.PlayerInfo.HandlePacket: all branches with constant answers are one request without output.
- `sdk.rs`, `sdk_proxy.rs`, `certificates.rs`, the user interface, file access of the configuration, and `from_ui`/`apply_to_ui`.
- Socket addresses in the form are an abstract parser and printer: whatever is read from text prints to text that is read back as the same address; paths are their text.
- Replacement of invalid UTF-8 before a message reaches the log.
