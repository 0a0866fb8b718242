# Isthmus, modelled and proved in Dafny

Isthmus sits between one Archipelago client and one MultiWorld server and keeps the
state of the item exchange in a savefile. This project models the parts of it that are
hard to get right and proves what they promise. `dafny verify dfyconfig.toml` checks
everything.

| area | files |
|---|---|
| the exchange: one message handler, one plan of committed writes and messages | `Exchange.dfy`, `Handlers.dfy` |
| what survives a crash between any two writes | `Accounting.dfy` |
| what holds in runs of whole handlers, with any number of reconnects | `WholeRuns.dfy` |
| what holds on every pair of connections, crashes and restarts before it included | `Sessions.dfy` |
| when a message goes through, in any state, and when an item is stuck | `PrimaryKeys.dfy`, `Blocking.dfy` |
| how many log entries each item and location gets, in any state: what a crash loses and what it repeats | `Entries.dfy`, `Repeats.dfy` |
| confirmations after log writes, which items get received, what the client mirror needs | `Crashes.dfy` |
| what entries and rows carry, from the server's result to the client: who gets what, and from where | `Delivery.dfy` |
| the imperative code: tables and message loop, proved to carry out the plans | `Savefile.dfy`, `Proxy.dfy` |
| from the server's result to a session; identity of items from seed to log | `Setup.dfy`, `SyntheticIds.dfy`, `Placements.dfy`, `Names.dfy`, `Identity.dfy` |
| the pickle machine: semantics, invariants, compiler correctness, array refinement, key restriction | `Pickle*.dfy` |
| the MultiWorld wire format, its message types and its streams | `Wire.dfy`, `WireTypes.dfy`, `WireStream.dfy` |
| the Set operation on stored data | `Storage.dfy`, `NewKeys.dfy` |
| options, collections, text, bytes | `Options.dfy`, `Collections.dfy`, `Text.dfy`, `Bytes.dfy` |

In the exchange, a handler is a sequence of actions, each one committed transaction or
one message handed to a connection. An event delivers a message whole, drops the
connections, or kills the process after any number of actions of a handler. An action
that violates a primary key fails, rolls back and ends the process. Log entries carry
their origin (precollected, received, checked, collected) as history; the log itself
holds network items only. `Setup.OpenSession` proves that what the other modules assume
of the stored world (`ValidWorld`, the tables of made-up IDs) holds for every savefile
that `createSavefile` writes.

## What the code does differently from what one might expect

Each of these is stated and proved, most with an exact condition.

- The batch handler marks items as received before it logs them. A crash in between
  loses them for good: `Entries.LostIff`, `Entries.RunLosesIff`.
- The single-item handler logs first. After a crash before the mark, any delivery that
  offers the item again, alone or in a batch, logs it again; and a check of an own
  location that dies before the clearing is logged again by the next check. Exactly when,
  for every event and every run: `Repeats.StepRepeatsIff`, `Repeats.RunRepeatsIff`.
- A crash between storing a foreign item's row and clearing its location leaves the item
  stuck. Until the server confirms it, every `!release` fails on a primary key, and so
  does every list of checks with that location in it: `Blocking.CutChecksStickIff`,
  `Blocking.CutReleaseSticksIff`, `Blocking.BlockedUntilConfirmed`. Once it is confirmed,
  the item can be checked, stored and sent a second time, and this is the only way a row
  comes back: `Blocking.ConfirmedEntersAgain`, `Blocking.SecondEntryNeedsConfirmation`.
  When any message goes through, in any state: `PrimaryKeys.SucceedsIff`.
- A location that ends in ")" is never refused: without "_(" and a 64-bit number before
  the ")", `ParseDiscriminator` reports success with 0, because the bare returns keep the
  `ok` of the first cut (internal/mwproto/discriminators.go:27-38). One such location is
  stored as location 0, two make `createSavefile` fail: `Names.ParsedNumberIff`,
  `Setup.UnreadableLocationIsStored`, `Setup.UnreadableLocationsCollide`.
- No insert fails in runs of whole handlers exactly when foreign item names are unique
  per owner, which the schema does not enforce: `PrimaryKeys.NoStepFailsIffNamesUnique`.
- A client that asks for only one kind of item does not hold the log:
  `Crashes.MirrorNeedsBothBits`. `addSentItems` without items reports index -1, which
  the mirror ignores.
- A Connect without `items_handling` dereferences nil, because the value chosen in its
  place is overwritten from the same pointer (cmd/isthmus/play.go:384-389).
- A confirmation of charm notch costs loses its payload when read, and some message
  types the writer knows, such as ReadyDeny, are never decoded: `Wire.RoundTripIff`.
- A string length that is negative in 64 bits, or whose end overflows, makes the decoder
  panic: `Wire.PanicsIff`.
- Restricting map keys also changes what a tuple, set or object holds when it shares a
  list with the restricted value and a dict is in that list, and only then:
  `PickleRestrict.ReadingStaysIff`.
- Set without operations stores null; an "add" to something that is neither a number nor
  a list, in first place, makes the remaining operations start from null:
  `Storage.SetIsFold`, `Storage.PlainFoldIff`. On a new key the default of the message is
  changed in place, and a later "default" gives what has become of it:
  `NewKeys.SetOnNewKey`, `NewKeys.LateDefaultIff`.
- `StripDiscriminator` drops a lone closing parenthesis: `Names.StripIsIdentityIff`.
- mw-protocol.md writes the prefix of location names as `MW_(N)_`; the code parses
  `MW(N)_` for items and locations alike, and so does the model.

## Model

| member | source | states |
|---|---|---|
| `Accounting.PlanIsSafe` | cmd/isthmus/play.go:181-655 | in every state, each action of each handler finds what it relies on: a location is cleared only once accounted for, a batch is reported only from where it sits in the log, an item is sent only while its row is stored, confirmed only once logged |
| `Accounting.StepKeepsInv` | cmd/isthmus/play.go:178-659 | any delivery, reconnect or crash keeps the crash invariant, and takes back nothing that was recorded except acknowledged rows |
| `Accounting.RunKeepsInv` | cmd/isthmus/play.go:178-659 | the same for runs of any length |
| `Accounting.InitialInv` | cmd/isthmus/savefile.go:537-549 | a new savefile satisfies the crash invariant |
| `Accounting.ClearedLocationsAreAccountedFor` | cmd/isthmus/play.go:577-655 | crash-safe accounting: after every run with crashes anywhere, a cleared foreign location has its row waiting or acknowledged, and every other cleared location has exactly the network item it calls for in the log |
| `Accounting.ConfirmedItemsAreLogged` | cmd/isthmus/play.go:218-245 | each single-item confirmation ever sent refers to an item in the log, whose entry keeps its index for the rest of the run |
| `Accounting.ReportedBatchesStay` | cmd/isthmus/savefile.go:214-243 | each non-empty batch ever reported sits in the log at its reported index at every later crash point |
| `Accounting.SentRowsAreStored` | cmd/isthmus/play.go:472-480 | whenever any handler sends an item, its row is in the unconfirmed table at that moment |
| `Crashes.ConfirmFollowsLog` | cmd/isthmus/play.go:218-240 | at the moment a single item is confirmed, that same delivery has committed exactly its log entry and has not marked it yet; no other handler confirms single items |
| `Entries.EntriesAfter` | cmd/isthmus/play.go:191-306 | in every state, an event adds one log entry for an item if and only if it is a single delivery that is accepted, or a batch that accepts it, and it gets past its log write; else none |
| `Entries.ReceivedAfter` | cmd/isthmus/play.go:191-306 | in every state, an item is marked afterwards if and only if it was before or the event gets past its mark |
| `Entries.LostIff` | cmd/isthmus/play.go:253-290 | in every state, an item is lost afterwards (marked, but not in the log) if and only if it was lost before or the event is a crash that cuts a batch between marking and logging it |
| `Entries.RunLosesIff` | cmd/isthmus/play.go:253-290 | over every run, an item is lost in the end if and only if it was at the start or one of the events lost it; nothing brings it back |
| `Repeats.CheckEntriesAfter` | cmd/isthmus/play.go:577-655 | in every state, an event adds one log entry for a location if and only if it is a list of checks, the location can be logged, the checks before its first place go through and the event gets past its log write |
| `Repeats.EntriesAfterRun` | cmd/isthmus/play.go:178-659 | over every run from every state, each item and location gets exactly as many entries as there are events that log it |
| `Repeats.StepRepeatsIff` | cmd/isthmus/play.go:222-244 | from any state with at most one entry per item and location, an event keeps that if and only if it does not log an item that is in the log unmarked, or a location that is in the log uncleared |
| `Repeats.RunRepeatsIff` | cmd/isthmus/play.go:178-659 | a run keeps at most one entry each if and only if none of its events logs again |
| `Repeats.UnmarkedIff` | cmd/isthmus/play.go:222-240 | an item is in the log unmarked after an event if and only if it was and the event does not mark it, or the event is a crash of its single delivery between log write and mark |
| `Repeats.RedeliveryRepeatsIff` | cmd/isthmus/play.go:222-244 | after a crash of a single delivery, whatever offers the item next, alone or in a batch and from anyone, makes it two entries if and only if the crash fell between log write and mark |
| `Repeats.RecheckRepeatsIff` | cmd/isthmus/play.go:592-653 | the same for the check of an own location and its clearing |
| `Crashes.OfferedItemsAreReceived` | cmd/isthmus/play.go:191-306 | in whole-step runs the received table holds exactly the items some delivery offered |
| `Crashes.OneEntryPerOfferedItem` | cmd/isthmus/play.go:191-306 | each item offered at least once, in any mix of single, batch and repeated deliveries, has exactly one log entry; any other has none |
| `Blocking.BlockedUntilConfirmed` | cmd/isthmus/play.go:446-480 | from a state with a stuck item, after any deliveries, reconnects and crashes that do not confirm its row, every release and every list of checks with its location still fails |
| `Blocking.ConfirmationFrees` | cmd/isthmus/play.go:307-314 | confirming the row frees the item, and its location can be checked |
| `Blocking.OnlyOpenEnters` | cmd/isthmus/play.go:446-480 | with unique names, a row enters the unconfirmed table only while its location is not cleared |
| `Blocking.SecondEntryNeedsConfirmation` | cmd/isthmus/savefile.go:276-307 | with unique names, over every run with crashes anywhere, a row that enters the table twice was confirmed in between while its location was not cleared |
| `Blocking.ConfirmedEntersAgain` | cmd/isthmus/play.go:613-624 | after such a confirmation, checking the location stores and sends the item a second time |
| `Blocking.CutReleaseSticksIff` | cmd/isthmus/play.go:472-480 | a crash in a release that would have gone through leaves its items stuck if and only if it falls between storing the rows and clearing the locations |
| `Blocking.CutChecksStickIff` | cmd/isthmus/play.go:577-655 | a crash in a list of checks of any length leaves an item stuck if and only if it falls between storing its row and clearing its location |
| `Blocking.RunKeepsStuck` | cmd/isthmus/play.go:178-659 | a stuck item stays stuck in every run that does not confirm its row |
| `Crashes.MirrorNeedsBothBits` | cmd/isthmus/play.go:226-232 | for every flags value that misses a bit there is a seed and a message after which a freshly connected client does not hold the log |
| `WholeRuns.RunKeepsWhole` | cmd/isthmus/play.go:178-659 | the invariant of whole-step runs: receipt, checks, conservation and origin of rows together |
| `WholeRuns.ExactlyOnceReceipt` | cmd/isthmus/play.go:191-306 | exactly one log entry per received item, none for any other |
| `WholeRuns.ItemConservation` | cmd/isthmus/play.go:421-445 | log length = precollected + received + cleared own or unshuffled locations + everything collected |
| `Sessions.RunKeepsSession` | cmd/isthmus/play.go:178-659 | the invariant of a session, over all deliveries, reconnects and crashes |
| `Sessions.ClientMirror` | cmd/isthmus/play.go:349-499 | after every run, crashes included, folding the ReceivedItems messages of a client connected with both bits gives the stored log |
| `Sessions.UnconfirmedItemsAreResent` | cmd/isthmus/play.go:182-190 | after every run, crashes included, once a JoinConfirm was handled on a connection, every waiting item has been sent on that connection |
| `PrimaryKeys.SucceedsIff` | cmd/isthmus/play.go:446-480 | in every state, reachable or not, a message goes through if and only if it brings items_handling when it is a Connect, and the rows it inserts (a release: all open items; checks: those in the list) are not waiting and differ |
| `PrimaryKeys.StepSucceeds` | cmd/isthmus/play.go:446-480 | with unique foreign names no handler fails in a state reached by whole steps |
| `PrimaryKeys.RepeatedNameFails` | cmd/isthmus/savefile.go:409-415 | two foreign items of the same name and owner: the second check violates the primary key |
| `PrimaryKeys.NoStepFailsIffNamesUnique` | cmd/isthmus/savefile.go:402-465 | every step of every whole-step run succeeds if and only if foreign item names are unique per owner |
| `Handlers.ReceiveEffect` | cmd/isthmus/play.go:191-245 | the whole new state after accepting a single item |
| `Handlers.BatchEffect` | cmd/isthmus/play.go:246-306 | the whole new state after a batch; it never fails, whatever repeats inside it |
| `Handlers.ConnectEffect` | cmd/isthmus/play.go:349-418 | a Connect joins, sets the flags and sends the cleared locations and the full log |
| `Handlers.ReleaseEffect` | cmd/isthmus/play.go:446-480 | a release either fails without effect or queues, clears and sends all open foreign items |
| `Handlers.OwnCheckEffect` | cmd/isthmus/play.go:592-653 | checking an own or unshuffled location logs, reports and clears |
| `Handlers.ForeignCheckEffect` | cmd/isthmus/play.go:613-653 | checking a foreign location fails without effect if its row waits, else queues, sends and clears |
| `Delivery.InitialLogIs` | cmd/isthmus/savefile.go:537-549 | a new log holds one entry per precollected item, with location -2, player 0 and flags 0 |
| `Delivery.CollectLogsOutstanding` | cmd/isthmus/savefile.go:107-118 | `!collect` logs and reports exactly one entry for each of our items that lies in another world and has no recorded receipt, with its ID, its place's made-up ID and that player's slot, and no other entry |
| `Delivery.ReceivedIsNotCollected` | cmd/isthmus/savefile.go:107-118 | an item whose receipt is recorded is never collected |
| `Delivery.SingleReceiptLogs` | cmd/isthmus/play.go:208-221 | an accepted delivery logs one entry: the package's ID for the stripped name, the sender's slot, the made-up ID of the place where our item is stored, or 0 for an item stored nowhere |
| `Delivery.BatchReceiptLogs` | cmd/isthmus/play.go:247-281 | a batch logs such entries in order, with the first player of the sender's nickname; from an unknown nickname they carry location -2 and player 0 |
| `Delivery.OwnItemResolves` | cmd/isthmus/play.go:208-221 | in a session, our item from the player in whose world it lies gets that player's slot and its place's made-up ID, which is between 1 and n |
| `Delivery.OwnCheckLogs` | cmd/isthmus/play.go:592-602 | checking our own item logs its ID, the location, our slot and flags 0 |
| `Delivery.UnshuffledCheckLogs` | cmd/isthmus/play.go:625-642 | an unshuffled location is logged with the seed's first and third number if and only if the client asked for own items and the seed has three; else nothing happens |
| `Delivery.ScoutTells` | cmd/isthmus/play.go:541-571 | scouting tells the location, the owner's slot, the ID of our own items, and the seed's numbers for unshuffled locations |
| `Delivery.CheckSendsToOwner` | cmd/isthmus/play.go:613-624 | when the server put player pid's item into a location and that location is checked, exactly one row with the label, the item's name and pid is stored and sent, and the confirmation of that row removes it |
| `Delivery.ReleaseSendsToOwner` | cmd/isthmus/play.go:464-480 | the same row when everything is released |
| `Delivery.ConfirmRemoves` | cmd/isthmus/savefile.go:295-307 | a confirmation takes away its own row and no other |
| `Delivery.ReceiptTells` | cmd/isthmus/play.go:229-235 | a received item is reported to the client, at its index, if and only if bit 1 of the flags is set |
| `Delivery.OwnCheckTells` | cmd/isthmus/play.go:606-612 | an own check is reported if and only if bit 2 is set |
| `Delivery.SyncTells` | cmd/isthmus/play.go:484-499 | a Sync brings the whole log if and only if bit 2 is set |
| `SavefileTables.NextRowID` | cmd/isthmus/savefile.go:424-430 | the row ID SQLite picks is one more than the largest, so row IDs stay 1 to n |
| `SavefileTables.Savefile.constructor` | cmd/isthmus/savefile.go:537-549 | a new savefile holds exactly the precollected items |
| `SavefileTables.Savefile.ClearLocations` | cmd/isthmus/savefile.go:197-212 | all locations are cleared, or none when one repeats or is cleared already |
| `SavefileTables.Savefile.AddSentItems` | cmd/isthmus/savefile.go:214-243 | the log grows by exactly these items; the index is the old length, or -1 without items |
| `SavefileTables.Savefile.GetSentItems` | cmd/isthmus/savefile.go:245-259 | the whole log in order of insertion |
| `SavefileTables.Savefile.AddUnconfirmedItems` | cmd/isthmus/savefile.go:276-293 | all rows are added, or none when one is there already or repeats |
| `ProxySession.Proxy.HandleJoinConfirm` | cmd/isthmus/play.go:182-190 | carries out the plan of its message: the same writes and sends in the same order, and the same final state |
| `ProxySession.Proxy.HandleDataReceive` | cmd/isthmus/play.go:191-245 | carries out the plan, log write, report, confirmation and mark in this order, for accepted, duplicate, mislabelled and out-of-range deliveries |
| `ProxySession.Proxy.MarkBatch` | cmd/isthmus/play.go:251-285 | the loop over a batch marks exactly the new items, in order and one by one, and collects their entries |
| `ProxySession.Proxy.HandleDatasReceive` | cmd/isthmus/play.go:246-306 | carries out the plan, marks before the log write |
| `ProxySession.Proxy.HandleDataSendConfirm` | cmd/isthmus/play.go:307-314 | carries out the plan |
| `ProxySession.Proxy.HandleConnect` | cmd/isthmus/play.go:349-418 | carries out the plan, and fails without items_handling |
| `ProxySession.Proxy.HandleCollect` | cmd/isthmus/play.go:421-445 | carries out the plan |
| `ProxySession.Proxy.FindReleasable` | cmd/isthmus/play.go:447-471 | the loop finds exactly the open foreign placements, in order |
| `ProxySession.Proxy.HandleRelease` | cmd/isthmus/play.go:446-480 | carries out the plan, rows before locations before sends, up to either place where it can fail |
| `ProxySession.Proxy.HandleSync` | cmd/isthmus/play.go:484-499 | carries out the plan |
| `ProxySession.Proxy.CheckLocation` | cmd/isthmus/play.go:578-653 | carries out the plan of one check, its writes and sends in order, up to a failure |
| `ProxySession.Proxy.HandleLocationChecks` | cmd/isthmus/play.go:577-655 | carries out the plan of all checks, its writes and sends in order, up to the first failure |
| `ProxySession.Proxy.Reconnect` | cmd/isthmus/play.go:31-48 | new connections, same tables |
| `Setup.WorldRowIff` | cmd/isthmus/savefile.go:498-511 | a placement is stored as a given row if and only if its item has the form `MW(n)_name` with a known player n, and its location carries the row's number, or ends in ")" and carries none and the row's is 0 |
| `Setup.RowRefusedIff` | cmd/isthmus/savefile.go:498-511 | a placement is refused if and only if its location does not end in ")", its item is not qualified or the player is unknown |
| `Setup.UnreadableLocationIsStored` | cmd/isthmus/savefile.go:499-502 | any location that ends in ")" and carries no number is stored as location 0 |
| `Setup.UnreadableLocationsCollide` | cmd/isthmus/savefile.go:498-511 | two locations that carry no number make the savefile fail |
| `Setup.StoreSpots` | cmd/isthmus/savefile.go:497-515 | succeeds if and only if no row is refused and no two have the same location; the rows are then exactly the parsed ones |
| `Setup.StoreOwnItems` | cmd/isthmus/savefile.go:518-535 | succeeds if and only if all locations parse to known players; the rows are then exactly the parsed ones |
| `Setup.CreateSavefile` | cmd/isthmus/savefile.go:395-552 | succeeds if and only if our player is known and both tables can be filled |
| `Setup.OrderByLocation` | cmd/isthmus/savefile.go:120-128 | all rows, ascending by location |
| `Setup.OpenSession` | cmd/isthmus/play.go:53-111 | for every savefile that was created, the world is valid, reflects what the server sent, and both tables of made-up IDs are complete and numbered 1 to n |
| `Setup.GamesAreNamed` | cmd/isthmus/play.go:62-70 | our game is the seed's; every other player's is named after the nickname, and two share one only if they share the nickname |
| `SyntheticIds.AssignIDs` | cmd/isthmus/play.go:77-111 | the IDs handed out are exactly 1 to n, each for one name, and exactly the names of entries in range have one |
| `SyntheticIds.PrettyNameIs` | cmd/isthmus/play.go:661-663 | the pretty name of an item is its own name with spaces for underscores |
| `SyntheticIds.ScoutResolves` | cmd/isthmus/play.go:539-559 | scouting a foreign item gives a player in range and a non-zero ID |
| `SyntheticIds.ScoutsDiffer` | cmd/isthmus/play.go:539-559 | two scouted foreign items share an ID only if they share game and pretty name |
| `SyntheticIds.CollectedResolves` | cmd/isthmus/play.go:421-436 | each collected item comes with a player in range and a non-zero location ID |
| `Names.DiscriminatorRoundTrip` | internal/mwproto/discriminators.go:26-49 | for any name, reading back `name_(n)` gives n if it fits 64 bits and 0 otherwise, and stripping always gives the name |
| `Names.ParsedNumberIff` | internal/mwproto/discriminators.go:26-40 | parsing gives n if and only if the name carries the 64-bit number n, or carries none, ends in ")" and n is 0 |
| `Names.RefusedIff` | internal/mwproto/discriminators.go:26-30 | a name is refused if and only if it does not end in ")" |
| `Names.UnreadableNamesParse` | internal/mwproto/discriminators.go:31-38 | "Foo)" and "X_(abc)" carry no number and parse as 0 |
| `Names.StripIsIdentityIff` | internal/mwproto/discriminators.go:42-49 | stripping leaves a name alone if and only if it ends differently and holds no separator |
| `Names.QualifiedRoundTrip` | internal/mwproto/discriminators.go:8-24 | for any name, `MW(n)_name` parses to (n, name) exactly when n fits 32 bits |
| `Names.QualifiedIff` | internal/mwproto/discriminators.go:8-24 | a name parses into (n, item) if and only if it is "MW(", a 32-bit number n, ")_" and the item; everything else is refused |
| `Placements.Invert` | cmd/isthmus/convert.go:65-74 | succeeds if and only if no value repeats, and then gives the inverse, whatever the iteration order |
| `Placements.ApToMwPlacements` | cmd/isthmus/convert.go:10-63 | succeeds exactly on seeds with a package, distinct IDs, locations and known items; then the i-th placement reads back as number i, the item ID placed there, the location's ID and its name; an unknown item is named in the error |
| `Placements.ItemNamesDistinct` | cmd/isthmus/convert.go:48-53 | the item names of a conversion are pairwise distinct |
| `Placements.QualifiedItemKeepsIdentity` | cmd/isthmus/convert.go:48-53 | qualified with a player and parsed back, an item name still leads to the ID that was placed |
| `Identity.LoggedItemsHaveSeedIDs` | cmd/isthmus/play.go:208-225 | in every run with crashes anywhere, each log entry about a converted item carries the ID the seed has at its location |
| `Identity.SpotIsStored` | cmd/isthmus/savefile.go:494-515 | an item put into a converted location is stored under that location's ID with its player and name, exactly when the player is known |
| `Identity.OwnItemIsStored` | cmd/isthmus/savefile.go:518-535 | the qualified place of one of our items is stored as player and place, exactly when the player is known |
| `PickleMachine.FetchConsumes` | internal/pickle/vm.go:70-146 | every instruction takes input, so the loop ends |
| `PickleInvariants.StepKeepsGood` | internal/pickle/vm.go:148-387 | any instruction keeps marks out of containers and references valid; the memo is only appended to, lists grow by suffixes, keys of dicts and sets only grow |
| `PickleInvariants.EveryReachedMachineIsGood` | internal/pickle/vm.go:70-146 | on every byte string, whether it decodes or not, each machine a run reaches is in good order, has a memo that extends the first and cells that only grew, and there are no more instructions than bytes |
| `PickleInvariants.RunKeepsGood` | internal/pickle/vm.go:70-146 | a run that ends with a value leaves it and its heap without marks and dangling references |
| `PickleInvariants.DecodedValueIsGood` | internal/pickle/unpickle.go:23-42 | no decoded value holds a mark or a dangling reference |
| `PickleAssembler.FetchEncode` | internal/pickle/vm.go:389-502 | reading an encoded instruction gives it back and leaves the rest |
| `PickleAssembler.RunAssembled` | internal/pickle/vm.go:70-146 | the byte-level loop on assembled code equals running the instructions |
| `PickleAssembler.FramesDoNothing` | internal/pickle/vm.go:148-152 | FRAME instructions make no difference anywhere |
| `PickleCompiler.DenotesOne` | internal/pickle/vm.go:212-218 | a value on a heap reads as at most one finite tree |
| `PickleCompiler.Compile` | internal/pickle/vm.go:70-467 | compiler correctness: from any stack, memo and heap, the code of any way of writing a value (any batches, sharing through the memo, containers memoized while open) pushes exactly that value and leaves stack, memo and cells alone |
| `PickleCompiler.CompileAll` | internal/pickle/vm.go:70-467 | the same for a list of values |
| `PickleCompiler.CompileChunks` | internal/pickle/vm.go:272-372 | APPEND, SETITEM and marked batches fill the container under construction and nothing else |
| `PickleRoundTrip.PlanMeans` | internal/pickle/vm.go:70-467 | every finite value has a way of being written down that means exactly it |
| `PickleRoundTrip.DecodeGivesTree` | internal/pickle/unpickle.go:23-42 | decoding such code, with FRAMEs anywhere, returns the value and leaves what follows STOP |
| `PickleRoundTrip.EveryTreeRoundTrips` | internal/pickle/unpickle.go:23-42 | every finite value with 32-bit integers and writable strings, its dict keys any writable integers, strings, booleans or tuples, has a pickle of every version from 4 on that decodes to it |
| `PickleRoundTrip.HeaderIff` | internal/pickle/unpickle.go:23-34 | anything but a PROTO instruction of version 4 or later at the start is refused |
| `PickleKeys.SetItemsIff` | internal/pickle/vm.go:349-387 | SETITEMS ends in a bad key if and only if a key that is no integer, string, boolean or tuple comes before any that cannot be hashed, and goes through if and only if all keys are good |
| `PickleKeys.SetItemIff` | internal/pickle/vm.go:325-347 | the same for SETITEM, which looks at the key before the dict |
| `PickleKeys.HashableIff` | internal/pickle/vm.go:306-323 | a value can be hashed if and only if no dict and no set is inside it, through tuples and objects |
| `PickleKeys.KnownOpcodes` | internal/pickle/vm.go:14-47 | exactly the 31 listed bytes start an instruction |
| `PickleKeys.ShortArgument` | internal/pickle/vm.go:469-488 | an instruction whose argument is cut short is the end of the input |
| `PickleKeys.StringFetch` | internal/pickle/vm.go:490-502 | a string of 2^63 bytes or more is refused, one longer than the input is its end, any other is taken |
| `PickleVM.VM.PopToMark` | internal/pickle/vm.go:516-525 | a view into the stack's own array holds exactly the values above the topmost mark |
| `PickleVM.VM.MakeMarkedTuple` | internal/pickle/vm.go:220-231 | simulates TUPLE: the view is read before the push that may overwrite it |
| `PickleVM.VM.AppendItems` | internal/pickle/vm.go:289-304 | simulates APPENDS |
| `PickleVM.VM.AddItems` | internal/pickle/vm.go:306-323 | simulates ADDITEMS |
| `PickleVM.VM.SetPairs` | internal/pickle/vm.go:349-372 | simulates SETITEMS |
| `PickleVM.VM.SetPair` | internal/pickle/vm.go:325-347 | simulates SETITEM |
| `PickleVM.VM.CheckDictKey` | internal/pickle/vm.go:374-387 | integers, strings, booleans and tuples are the keys the sequence machine takes |
| `PickleVM.VM.MakeShortTuple` | internal/pickle/vm.go:233-270 | simulates TUPLE1, TUPLE2 and TUPLE3 |
| `PickleVM.VM.MakeObject` | internal/pickle/vm.go:441-456 | simulates REDUCE and NEWOBJ |
| `PickleVM.VM.MakeSymbol` | internal/pickle/vm.go:191-210 | simulates STACK_GLOBAL |
| `PickleVM.VM.Dispatch` | internal/pickle/vm.go:70-146 | each instruction on the array machine gives the state, or the error, of the sequence machine |
| `PickleVM.Exec` | internal/pickle/vm.go:70-146 | on every input the array machine ends with the same value, heap and unread input, or the same error, as the sequence machine |
| `PickleRestrict.Store.Restrict` | internal/pickle/bind.go:162-182 | on every value that can be followed without looping, whatever is shared, the result reads as the pure restriction; every list on the way is finished, finished values and lists off the way stay as they are, so it is idempotent |
| `PickleRestrict.Store.RestrictDict` | internal/pickle/bind.go:164-173 | a dict becomes a new string-keyed one, in any iteration order |
| `PickleRestrict.Store.RestrictList` | internal/pickle/bind.go:174-178 | a list is overwritten in place, and every other value still reads the same |
| `PickleRestrict.RestrictTree` | internal/pickle/bind.go:162-182 | every decoded finite value meets the condition of the restriction, with this pure function as its reading |
| `PickleRestrict.RestrictedIsPending` | internal/pickle/bind.go:162-182 | a restricted value can be restricted again, to the same reading |
| `PickleRestrict.PendingOne` | internal/pickle/bind.go:162-182 | the reading of a value is unique |
| `PickleRestrict.ReadableIff` | internal/pickle/bind.go:162-182 | a value meets the condition of the restriction if and only if following lists and string keys from it stays on valid references and some rank falls along them |
| `PickleRestrict.PathsAreKept` | internal/pickle/bind.go:162-182 | exactly the paths through string keys and list indices remain, with the same atoms at their ends, and no any-keyed dict is on any of them |
| `PickleRestrict.ReadingStaysIff` | internal/pickle/bind.go:162-182 | after the restriction of v any finite value still holds what it held if and only if it holds, at no depth, a list that is on the way from v and has a dict in it |
| `PickleRestrict.SharedTupleChanges` | internal/pickle/bind.go:174-178 | every tuple of such a list changes |
| `PickleRestrict.SharedTupleExample` | internal/pickle/bind.go:174-178 | (L,) changes when [L, (L,)] with L = [{}] is restricted |
| `Wire.AppendVarint32` | internal/mwproto/write.go:57-71 | appends the seven-bit encoding of a length, or panics from 2^31 on |
| `Wire.VarintRoundTrip` | internal/mwproto/read.go:128-143 | every length below 2^31 takes one to five bytes and reads back, leaving what follows |
| `Wire.BytesRoundTrip` | internal/mwproto/write.go:39-43 | every string reads back, leaving what follows |
| `Wire.UnmarshalBytesLoop` | internal/mwproto/read.go:128-143 | the loop computes the string decoder, including its errors and its panic |
| `Wire.PanicsIff` | internal/mwproto/read.go:128-143 | decoding a string panics if and only if the declared length is negative or its end does not fit 64 bits |
| `Wire.NegativeLengthPanics` | internal/mwproto/read.go:130-143 | nine bytes 0x80 and a 0x01 panic, whatever follows |
| `Wire.ShortPrefixNeverPanics` | internal/mwproto/read.go:128-143 | prefixes of at most eight bytes never panic |
| `Wire.UnmarshalInto` | internal/mwproto/read.go:83-121 | the loop over the fields computes the field parser |
| `Wire.FieldsRoundTrip` | internal/mwproto/read.go:83-121 | the fields of any message read back, negative integers included |
| `Wire.AppendMessage` | internal/mwproto/write.go:19-37 | appends the encodings of all fields in order, or panics on a string that is too long |
| `Wire.Write` | internal/mwproto/write.go:10-37 | produces the frame, with its own size patched into the header |
| `Wire.RoundTripIff` | internal/mwproto/read.go:12-75 | reading what was written returns the same message and leaves what follows, if and only if the type is one that Read knows, the frame is within 2^24 bytes, and no notch-cost payload is lost |
| `WireTypes.FieldKinds` | internal/mwproto/schema.go:48-178 | the fields of types 2 to 14, in order |
| `WireTypes.MoreFieldKinds` | internal/mwproto/schema.go:119-283 | the fields of types 15 to 30, in order |
| `WireTypes.NoOtherTypes` | internal/mwproto/schema.go:9-42 | no other number is a message type that can be written |
| `WireTypes.FrameLayout` | internal/mwproto/write.go:10-37 | size and type in four bytes each, sixteen zeros, fields from byte 24 on |
| `WireTypes.ReadByType` | internal/mwproto/read.go:12-75 | up to 2^24 bytes, messages of the seventeen listed type numbers read back as themselves, type 22 reads back with player 0, every other type is refused |
| `WireTypes.SizesRefused` | internal/mwproto/read.go:21-26 | frames below 24 or above 2^24 bytes are refused and skipped |
| `WireTypes.OtherTypesRefused` | internal/mwproto/read.go:72-73 | frames of any other type are refused and skipped, whatever they hold |
| `WireTypes.TruncatedRead` | internal/mwproto/read.go:17-31 | at the end of a stream, nothing or a bare size field is its end, any other part of a frame an error |
| `WireTypes.WeightIsShifted` | internal/mwproto/read.go:131-131 | each byte of a length adds its low seven bits shifted by seven per place, in 64-bit two's complement |
| `WireStream.ReadTakesFrame` | internal/mwproto/read.go:12-75 | Read takes exactly the declared bytes of any frame of at least four bytes, whatever is in it |
| `WireStream.RecvMessages` | internal/mwproto/client.go:54-71 | the receive loop computes the stream of messages |
| `WireStream.StreamResynchronises` | internal/mwproto/client.go:54-71 | from any concatenation of frames, the last perhaps cut short, exactly the decodable ones come out, in order |
| `WireStream.StreamRoundTrip` | internal/mwproto/client.go:54-71 | a sequence of messages written and received comes back unchanged |
| `WireStream.Ping` | internal/mwproto/client.go:75-99 | stops at the first event that ends it: the end of the stream or the fifth tick without an answer; forwards everything but pings, sends one ping per earlier tick |
| `WireStream.ForwardedAreNonPings` | internal/mwproto/client.go:89-96 | what is forwarded is the non-ping subsequence of what arrived |
| `WireStream.InboxFollowsStream` | internal/mwproto/client.go:54-99 | from bytes to inbox: the inbox is always a prefix of the non-ping messages among the decodable frames |
| `Storage.UpdateDataStorage` | cmd/isthmus/apdatastorage.go:13-194 | stores the result of the in-place rounds, and on any error or read-only key leaves all stored data as it was |
| `Storage.RoundReads` | cmd/isthmus/apdatastorage.go:35-184 | one in-place round (slice deletes, appends with or without room, map updates) computes the pure operation on the value read from the heap |
| `Storage.RoundsAreFold` | cmd/isthmus/apdatastorage.go:35-184 | the in-place loop is the left fold of the pure operations |
| `Storage.SetIsFold` | cmd/isthmus/apdatastorage.go:13-194 | on an existing key, for every value and every list of operations: the left fold, or the two exceptions that start from null |
| `Storage.PlainFoldIff` | cmd/isthmus/apdatastorage.go:60-61 | for every list of operations, the plain fold is stored if and only if null was stored, or there is an operation and the first is no bad "add", or the later ones replace the value before using it or fail anyway |
| `Storage.TruncatesTowardsZero` | cmd/isthmus/apdatastorage.go:151-151 | a number is made an index by dropping its fraction |
| `Storage.PopTakesIndex` | cmd/isthmus/apdatastorage.go:143-155 | "pop" with the number k takes out the k-th element, or nothing if there is none |
| `Storage.PopTakesKey` | cmd/isthmus/apdatastorage.go:156-165 | "pop" with a string takes that key out of a dictionary |
| `Storage.RemoveTakesFirst` | cmd/isthmus/apdatastorage.go:123-142 | "remove" takes out the first element equal to a number or string |
| `Storage.RemoveWithoutMatch` | cmd/isthmus/apdatastorage.go:123-142 | "remove" without such an element changes nothing |
| `Storage.UpdateMerges` | cmd/isthmus/apdatastorage.go:170-180 | "update" merges a dictionary into the stored one |
| `Storage.AddJoins` | cmd/isthmus/apdatastorage.go:44-62 | "add" joins lists and adds numbers |
| `Storage.ReplaceAndDefault` | cmd/isthmus/apdatastorage.go:35-43 | "replace" stores the value, "default" keeps what is there |
| `Storage.MathApplies` | cmd/isthmus/apdatastorage.go:196-203 | an arithmetic operation works on two numbers and is an error on anything else |
| `Storage.MathNames` | cmd/isthmus/apdatastorage.go:63-82 | "mul", "pow", "mod" and "floor" name their operations |
| `Storage.OrderNames` | cmd/isthmus/apdatastorage.go:83-97 | and so do "ceil", "max" and "min" |
| `Storage.BitNames` | cmd/isthmus/apdatastorage.go:98-122 | and the bit operations and shifts |
| `Storage.UnknownNameFails` | cmd/isthmus/apdatastorage.go:181-183 | any other name is an error |
| `NewKeys.SetOnNewKey` | cmd/isthmus/apdatastorage.go:29-44 | on a new key, for every default and every list of operations: the fold in which the value lives on the default's own map or array until an operation moves it, and the first "default" gives what has become of the default |
| `NewKeys.AdvanceApplies` | cmd/isthmus/apdatastorage.go:44-184 | on the default's own storage the value still goes through the pure operations |
| `NewKeys.OneListIff` | cmd/isthmus/apdatastorage.go:37-43 | for a given list of operations with a "default", the fold on the default of the message is stored if and only if the operations before the first "default" start with a bad "add" or fail, or those after it make the same of what has become of the default |
| `NewKeys.LateDefaultIff` | cmd/isthmus/apdatastorage.go:37-43 | for all continuations together: whatever follows the first "default", that fold is stored, if and only if the operations before it start with a bad "add", fail, or leave the default as it was |
| `NewKeys.NoDefaultIsIntended` | cmd/isthmus/apdatastorage.go:29-44 | without a "default" that fold is always stored |
| `NewKeys.LateDefaultSeesChanges` | cmd/isthmus/apdatastorage.go:156-165 | removing an entry of the default and asking for it gives the default without the entry |

## Left out

- internal/sqlite, internal/approto/server.go, the sending side of the MultiWorld client, flags, files, zlib and the setup handshake: plumbing around what is modelled; transactions are atomic, and a failed one is rolled back.
- SELECTs without an order (waiting rows, collectable items) return their rows in the order of insertion or of the table.
- SyntheticIds.AssignIDs: which number a name gets depends on the order of the query; the contract states that the numbers are 1 to n without repeats, not which name has which.
- Integers read back from the database as 32 bits (players, flags) are not truncated in the model; the values written are stored as they are.
- JSON: values stand for the bytes they are marshalled to, and a JSON field reads back if the decoder accepts those bytes.
- Floating point: stored numbers are reals and the arithmetic on them is a parameter, so rounding, NaN, infinities (which cannot be marshalled), negative shift counts and the conversion of huge floats to integers are not modelled.
- The error of the final database write in `updateDataStorage`, which the source drops, and its return of the old value.
- Cyclic values in the restriction of map keys: the source does not return on them.
- Go reflection in `bind`, `snakeCase`, and the binding of None.
- PickleCompiler.Compile: covers values whose dict keys and set members hold no list, dict or set, which are all that Python allows; the Go machine would also take lists there, by identity.
- Memory exhaustion by declared lengths, in the pickle decoder and in the reader of frames.
- The names in frames and pickles are bytes; UTF-8 is not checked, as in the source. Names in `Names.dfy` are strings of characters.
- Logging, room info, data package messages, checksums, watched keys, charm notch costs, permissions: no hard property.
