# Multiplayer snake server: a verified model

This project models, in Dafny, the server state machines of the multiplayer snake mod and the
client half of one protocol, and proves what they keep over whole runs.

* **The co-op simulation** (`server/src/coop.rs`): up to four snakes that move at once on a grid,
  corpses, a two-slot turn buffer, fruit refilled from a 64-bit generator, two ways to end.
  `CoopSpec` states one step as a simultaneous rule that knows no order of the snake list; the
  class `CoopGame` runs the server's sequential loops in place and is proved to compute it.
* **The room** (`server/src/room.rs`): arrivals and departures, roles, the administrator, colours,
  modes, races with a grace period, the server simulation and its clock, and the native relay:
  generations, event and pose numbers, the board handshake with its handoff, board revisions,
  sticky deaths, a once-only timer, counted speed events, and the replay sent to a client that
  asks for it. `RoomSpec` is the state machine as values, with everything it sends; the class
  `RoomServer.Room` has the server's fields and handlers and is proved to compute it step by step.
* **The turn journal** (`src/coop/session.js` with `validate_native_turns`): a window of eight turns,
  repeated overlap, acknowledgement by echo, over a link that delays, repeats and reorders, and whose
  rate limiter drops messages for good.
* **Smaller parts**: race statistics and the choice of leader, the palette searches, and the flood
  fill and breadth-first search of the race bot (`tools/race-bomb-live.js`).

Clocks are parameters, client identifiers are natural numbers, JSON payloads are datatypes in
which a missing or malformed field is a value of its own, and a client that joins is new to the
room. A room message is `Out(to, msg)`, where `to` is None for a broadcast.

## How it is built

| module | content |
|---|---|
| Prelude, Grid | options, sequences without repetition, cells and headings |
| CoopSpec, CoopBoard, CoopPath, CoopOrder, CoopRuns, CoopGame | the simulation: meaning, partition, paths, order, whole games, the object |
| CoopKeys, CoopDraw | keys, turns, courses, deaths and meals of one snake over whole runs; where fruit comes up |
| Turns, Receivers, Session | journals and their validation, what receivers merge, the client's session object |
| TurnProtocol, LinkRelay | the link between client and server, and the relay as its server |
| RaceScore, RaceBot, Colors | race records and leaders, the bot's searches, the palette |
| RoomTypes, RosterSpec, Relay, SimRun, RoomSpec | messages; the client table; one relayed and one simulated generation; the whole room |
| RosterInv, RosterColors, RelayInv, RoomInv | what every command keeps; which colour a player ends up with |
| RelayGates, RoomGates | the exact condition under which each publication and request is granted, and what it leaves |
| RelayView, RelayTrace, RoomTrace | the receiving client as a fold; the broadcast monitor; both for every command |
| TraceLaws, RoomNews, RoomRoster | what lawful broadcasts say, read off the messages; what every run of a room tells |
| RoomRuns, RoomSessions, RoomRecords, RoomClocks | theorems over whole runs of a room |
| RoomOrphans | a session that outlives its players, as a run of the room |
| RoomServer | the room object |

## What turned out otherwise than it looks

* A full turn buffer can hold opposite neighbours; what prevents a reversal is the check when a turn
  is taken out, and it always does (`CoopPath.BufferMayHoldOpposites`, `CoopPath.NeckIsSafe`).
* The forced second spawn after a refill (`server/src/coop.rs:549-566`) is never needed
  (`CoopBoard.RefillOutcome`).
* A client that issues more than eight turns between two accepted poses is refused for the gap
  (`TurnProtocol.HonestVerdict`). No run accepts another pose of the generation exactly when every pose
  that has not been dropped, and every pose still to be sent, is that far ahead
  (`TurnProtocol.NoWayBackExactly`); a client whose poses are all dropped is in that state from its ninth
  turn on (`TurnProtocol.NinthLostTurnStrands`).
* The server stores a turn whose two headings are equal or opposite, or whose numbers are too large for
  the client; receivers drop it. A receiver that merges a server journal ends with that journal exactly
  when it holds quarter turns only and nothing the receiver holds is numbered beyond it
  (`Receivers.MergeIsJournal`, `Receivers.StoredButDropped`). An honest client issues nothing else
  (`TurnProtocol.HonestReceiverConverges`).
* A refused death report is not without effect: it can mark its sender as seated
  (`RelayInv.RefusedDeathSeats` says exactly when, `RelayInv.RefusedDeathIsNotANoOp` gives a case).
* In a simulated session a seat that dies and then leaves loses its entry, and a missing entry counts
  as alive; the death of the last seat then does not end the session
  (`SimRun.LastDeathEndsUnlessForgotten`). Two kicks leave a session without a living snake that no tick
  ends until an input arms its timer (`RoomOrphans.KickedSessionGoesOn`), and then the next step does
  (`RoomOrphans.ArmedOrphanEnds`).
* The `ending` flag of the relay state is never found set: the session it marks is cleared in the
  same command (`RelayInv.RelayOk`).
* The code caps a race at nine players (`server/src/room.rs:12`), although one line of the
  repository's README says ten; the model follows the code.

## Model

| member | source | states |
|---|---|---|
| CoopSpec.SeatFrom | server/src/coop.rs:327-338 | The first snake of a client, or none; no earlier snake is the client's |
| CoopBoard.SpawnOk | server/src/coop.rs:393-425 | A spawn adds one fruit on a free cell in bounds, or finds no free cell and then draws nothing |
| CoopBoard.FillOk | server/src/coop.rs:442-448 | A fill stops at the target, or short of it only when no cell is free; fruit stays distinct, in bounds and off every body |
| CoopBoard.Pigeonhole | server/src/coop.rs:377-411 | Bodies and fruit together never exceed W*H cells, and no cell is free exactly when they make W*H |
| CoopBoard.LengthIsScore | server/src/coop.rs:528-547 | The total body length is three per snake plus the total score |
| CoopBoard.MoveAllOk | server/src/coop.rs:477-547 | The moves of one step keep bodies and fruit in bounds and disjoint and each length at 3 + score; somebody ate exactly when the score rose |
| CoopBoard.RefillOutcome | server/src/coop.rs:549-573 | After a meal either no cell is free and the game ends ALL_APPLES, or fruit lies on the board; the forced second spawn never decides |
| CoopBoard.StepKeepsBoard | server/src/coop.rs:462-573 | A step keeps the partition: all body cells (live and corpse) and all fruit distinct and in bounds, length 3 + score, fruit at target unless no cell is free |
| CoopPath.NeckIsSafe | server/src/coop.rs:469-475 | Whatever the buffer holds, the next head is never the snake's own neck |
| CoopPath.StepKeepsPath | server/src/coop.rs:462-547 | A step keeps every body an unbroken chain, every live head one step from its neck in the heading, and reverses nobody |
| CoopPath.NeverDiesOnOwnNeck | server/src/coop.rs:491-526 | A snake that dies in a step dies off the board, on another snake or head, or on its own body beyond the neck |
| CoopPath.BufferMayHoldOpposites | server/src/coop.rs:339-357 | Three presses leave opposite neighbours in the buffer, and two turns later the snake still has not reversed |
| CoopOrder.StepIgnoresOrder | server/src/coop.rs:477-566 | Stepping a permuted snake list gives the permuted result with the same fruit list, score, generator state and outcome |
| CoopRuns.RunKeeps | server/src/coop.rs:327-573 | Partition and paths hold after any sequence of key presses, steps and seat removals |
| CoopRuns.NewGameOk | server/src/coop.rs:257-321 | A fresh game on any of the three boards with up to four seats satisfies every invariant, has fruit and no score |
| CoopRuns.SpawnRowsApart | server/src/coop.rs:89-98 | Spawn rows of different slots differ and lie on the board |
| CoopRuns.ApplesRunOutExactlyAtGoal | server/src/coop.rs:549-573 | Over every run the score never passes W*H - 3n, and ALL_APPLES is declared exactly when it equals W*H - 3n (the goal of src/mod.js:4719-4721 without walls) |
| CoopRuns.AllApplesIsTheLastMeal | server/src/coop.rs:549-573 | The step that declares ALL_APPLES is the one in which a meal reaches the goal |
| CoopRuns.EveryRunKeepsTheBoard | server/src/coop.rs:462-573 | From every start, board partition and unbroken paths hold after every run |
| CoopRuns.IdleUntilOwnKey | server/src/coop.rs:327-338 | A snake whose client pressed no key keeps its spawn body, score zero and life over any run of others, and the game cannot end ALL_DEAD meanwhile |
| CoopRuns.SpawnPlaces | server/src/coop.rs:89-98 | Snakes start three cells long in the middle of their row, facing right, the rows spread about the middle by the number of snakes |
| CoopKeys.KeysAreBuffered | server/src/coop.rs:339-363 | A repeated or reversing key is dropped; any other becomes the last of at most two buffered turns, and the next turn to be taken never changes |
| CoopKeys.KeysReachTheirSnake | server/src/coop.rs:327-338 | A key starts the game and the live snake of its client and touches nothing else; it is ignored after the end and by corpses |
| CoopKeys.SnakeFollowsItsTurns | server/src/coop.rs:467-547 | Over any run without a key of its client the buffer loses its first turn at every step, the snake faces along those turns, and its body shows the route: the heads of the steps, then the old body |
| CoopKeys.BothTurnsAreTaken | server/src/coop.rs:467-475 | Two buffered turns without a reversal are both taken: after two survived steps the head is one cell further each way |
| CoopKeys.TwoKeysTwoCorners | server/src/coop.rs:327-363 | Two quarter turns pressed in a row steer the snake round two corners |
| CoopKeys.StepVerdict | server/src/coop.rs:491-547 | A step kills a moving snake exactly when its target is off the board, covered by anything but its own tail, or entered by another; a survivor enters it and grows and scores exactly on fruit; nobody else changes |
| CoopKeys.FruitStays | server/src/coop.rs:528-566 | Fruit leaves the board in a step exactly when a snake covers it |
| CoopKeys.CorpsesStay | server/src/coop.rs:477-547 | A corpse lies where it fell, with its score, over any run |
| CoopDraw.FreeCellsInOrder | server/src/coop.rs:393-411 | The free cells are listed row by row, from left to right |
| CoopDraw.SpawnDraws | server/src/coop.rs:393-425 | The fruit of a spawn lies on the free cell with as many free cells before it as the next number leaves by the number of free cells |
| CoopDraw.FirstNumbers | server/src/coop.rs:75-86 | The first numbers of the generator |
| CoopGame.CoopGame.constructor | server/src/coop.rs:257-321 | Seats, spawns and plants the board the specification describes, and it is sound |
| CoopGame.CoopGame.SetInput | server/src/coop.rs:327-363 | The key press of the specification: arming, the two-slot buffer, the back slot replaced when full |
| CoopGame.CoopGame.MarkDead | server/src/room.rs:2551-2582 | The snake of the removed seat becomes a corpse in place; nothing else changes |
| CoopGame.CoopGame.CellFreeForFruit | server/src/coop.rs:377-391 | True exactly for cells in bounds that neither a body nor a fruit covers |
| CoopGame.CoopGame.PickFreeCell | server/src/coop.rs:393-411 | The drawn one of the free cells in row-major order, or none when there is none |
| CoopGame.CoopGame.SpawnOneFruit | server/src/coop.rs:413-425 | One spawn of the specification; false exactly when no cell was free |
| CoopGame.CoopGame.FillFruitToTarget | server/src/coop.rs:442-448 | The loop computes the fill of the specification, generator state included |
| CoopGame.CoopGame.PlantInitialFruit | server/src/coop.rs:427-440 | Stock cells that are on the board and free, in order, then a fill |
| CoopGame.CoopGame.PopTurns | server/src/coop.rs:467-475 | Every snake takes one turn out of its buffer; a reversing turn is dropped |
| CoopGame.CoopGame.MarkCollisions | server/src/coop.rs:491-526 | The sequential collision loop kills exactly the snakes the simultaneous rule kills |
| CoopGame.CoopGame.MoveAndEat | server/src/coop.rs:528-547 | The sequential eating loop moves the survivors and removes exactly the fruit entered, whatever the order |
| CoopGame.CoopGame.Step | server/src/coop.rs:462-573 | The server's step equals the simultaneous step of the specification and keeps every invariant |
| Turns.MergePoseTurns | src/coop/session.js:92-112 | Returns the longest gap-free run that ends at the highest valid number of either list, ascending, at most eight |
| Turns.MergeIsUnique | src/coop/session.js:92-112 | That run is determined by the valid entries |
| Turns.ValidateNativeTurns | server/src/room.rs:1962-2065 | The loop computes the validation verdict and merged journal, error by error in the server's order |
| Turns.ValidateKeepsJournal | server/src/room.rs:2045-2064 | An accepted list leaves the gap-free window of the last eight turns, never goes back and keeps stored entries |
| Turns.OverlapIsStored | server/src/room.rs:2022-2030 | Every repeated entry of an accepted list is the stored one |
| Turns.AcceptedExactly | server/src/room.rs:1962-2043 | A list is accepted if and only if it has at most eight entries, each clean, numbered upwards, repeating a stored turn word for word or carrying the next number, and does not stop short of the last one stored |
| Turns.JournalAfterwards | server/src/room.rs:2045-2064 | The journal afterwards is numbered up to the higher of the two and holds exactly those of the old and listed turns that are among the last eight numbers |
| Session.SessionController.ObserveNativePose | src/coop/session.js:187-260 | The sequence numbers, journal and remembered heading after a native tick, and the enriched pose |
| Session.SessionController.AckTurns | src/coop/session.js:262-270 | Acknowledging prunes exactly the turns up to the number, and only forwards |
| Session.SessionController.BindGeneration | src/coop/session.js:133-170 | A new generation starts every counter afresh; a bad number or a change of authority is refused |
| Session.SessionController.MarkBoardReady | src/coop/session.js:280-289 | The whole new state after a board commit |
| Session.SessionController.MarkSeated | src/coop/session.js:373-383 | The whole new state after seating; refused in the lobby and while ending |
| Session.SessionController.MarkDead | src/coop/session.js:385-392 | The whole new state after a death; refused unless one may be published |
| Session.IssuedTurnIsOnThePath | src/coop/session.js:187-236 | A journaled turn is a quarter turn that the head path really took, numbered next |
| Session.HeadingFollowsThePath | src/coop/session.js:187-236 | After a step of the head the heading advertised and remembered is the field's when it names that step and is no reversal, and otherwise the remembered one; a turn is journaled exactly when it is a quarter turn |
| Session.FieldIsTakenOtherwise | src/coop/session.js:187-260 | Without such a step, or before any heading is known, the field is taken as it comes and no turn is journaled |
| Session.PoseRepeatsUnackedTurns | src/coop/session.js:237-240 | A pose carries exactly the journaled turns not known to be acknowledged |
| Session.AcksPruneExactly | src/coop/session.js:262-270 | An acknowledgement never goes back nor beyond what was issued and forgets exactly the turns up to it |
| Session.LiveMeansSeated | src/coop/session.js:280-383 | Over every run a client is live only while seated, is never seated in the lobby, and goes live under the relay only with the board ready |
| Session.RevisionsOnlyGrow | src/coop/session.js:280-289 | Within a generation the board revision only grows; lower ones are refused |
| Session.OneDeathPerGeneration | src/coop/session.js:118-125 | A client publishes at most one death before it is bound to another generation |
| TurnProtocol.JournalEndToEnd | server/src/room.rs:1962-2065 | Under loss, delay, repetition and reordering: acknowledged <= server's number <= client's number, and the server's journal is the last min(8, n) of the turns issued up to its number n |
| TurnProtocol.HonestVerdict | server/src/room.rs:2013-2043 | A newer pose of an honest client is refused exactly when more than eight turns were issued since the last accepted pose, and then as not contiguous; otherwise it is accepted with the last eight turns |
| TurnProtocol.EchoKeeps | src/mod.js:594-607 | The acknowledgement a client takes from the echo of its own pose keeps the ordering of the numbers |
| TurnProtocol.StrandedForever | server/src/main.rs:695-699 | From a stranded state no run accepts a pose or changes the journal |
| TurnProtocol.NoWayBackExactly | server/src/main.rs:695-699 | No run whatever accepts another pose if and only if the client's number and every undropped pose after the last accepted one are more than eight turns ahead of the server's journal |
| TurnProtocol.NinthLostTurnStrands | server/src/main.rs:695-699 | A client that turns at every move and has every pose dropped is stranded by its ninth turn and not before |
| Receivers.MergeIsJournal | src/coop/session.js:92-112 | Whatever a receiver holds, merging a server journal gives exactly that journal if and only if it holds quarter turns only and nothing held is numbered beyond it |
| Receivers.ReceiverConverges | src/coop/session.js:92-112 | After any lists sent to the server, merging its earlier journal of a seat with the later one yields the later one if and only if that holds quarter turns only |
| Receivers.ReceiverCatchesUp | src/coop/session.js:92-112 | A receiver that sees any selection of a seat's journals, in order, holds the last one seen exactly when that holds quarter turns only, whatever the earlier ones held |
| Receivers.StoredButDropped | server/src/room.rs:2013-2020 | The server accepts and stores a turn from UP to UP, which a receiver drops |
| TurnProtocol.HonestReceiverConverges | src/coop/session.js:92-112 | Over any run of an honest client whose move counter is still a safe integer, merging the server's journal of any earlier moment with the present one yields the present one |
| Receivers.MergeIdempotent | src/coop/session.js:92-112 | The merge of any two lists, merged with itself, is unchanged |
| Receivers.RedeliveryChangesNothing | src/coop/session.js:92-112 | Merging the incoming list once more changes nothing, for any two lists |
| LinkRelay.RelayIsTheLinksServer | server/src/room.rs:2067-2236 | For a pose that passes every check unrelated to order, the relay stores a journal exactly when the link's verdict accepts with it, refuses with the same error otherwise, and stays in step with the link |
| RaceBot.FloodSize | tools/race-bomb-live.js:87-102 | Exact below the cap, never more than the component: so more than body length is reported exactly when the component has more |
| RaceBot.Search | tools/race-bomb-live.js:125-142 | The multi-source search returns a pool move that starts a shortest free path to an apple, or none when no apple is reachable; it terminates |
| RaceBot.ChooseDir | tools/race-bomb-live.js:105-145 | A pool move on a shortest path when an apple is reachable, else a roomiest pool move, else the old heading |
| RaceScore.ApplyPulse | server/src/room.rs:2642-2699 | The server's update of one entry equals the specification, field by field |
| RaceScore.ApplyGoalProgress | server/src/room.rs:2730-2764 | Goal progress is recorded on a hit with a positive time only, keeping the least time |
| RaceScore.StatsAreOrderFree | server/src/room.rs:2671-2764 | After any pulses: maximum score, least positive time at it, longest finished run, least time of a goal hit, goal completed exactly when that is set |
| RaceScore.SamePulsesSameRecords | server/src/room.rs:2642-2764 | Two orders or repetitions of the same pulses leave the same records |
| RaceScore.FoldShowsTheLast | server/src/room.rs:2642-2670 | An entry shows score, time and life of the last pulse, and the last start reported |
| RaceScore.GoalBoundaries | server/src/room.rs:2730-2764 | The pulses that just meet and just miss each goal |
| RaceScore.GoalIsRejudged | server/src/room.rs:1236-1253 | A new goal judges the score and time on show alone and keeps the other records |
| RaceScore.TopScorer | server/src/room.rs:2766-2795 | For any table order: a scorer that no scorer beats on score and time, or none when nobody scored |
| RaceScore.RaceLeader | server/src/room.rs:2797-2846 | For any table order: the fastest finisher under a timed goal, else the top scorer; longest survivor on ties under the score goal |
| RaceScore.FinisherOutranksScorer | server/src/room.rs:2797-2823 | While somebody has met a timed goal, the leader has met it too and no later |
| RaceScore.LeaderHasTheTopScore | server/src/room.rs:2766-2846 | A leader that is no finisher has the highest best score, and among equals the longest run, or in a timed race the least time to it |
| RaceScore.LeaderFinishedFirst | server/src/room.rs:2797-2823 | A leader of a timed race somebody has finished has finished it, and nobody sooner |
| Colors.ClaimableRange | server/src/colors.rs:270-276 | Exactly the first 46 palette entries can be claimed |
| Colors.FirstFreeClaimable | server/src/colors.rs:278-290 | The loop computes the first-free search |
| Colors.FirstFreeIsFirst | server/src/colors.rs:278-290 | The search returns the first claimable colour not taken, or none when all are |
| Colors.NextFreeClaimable | server/src/colors.rs:292-313 | The wrapping loop computes the next-free search |
| Colors.NextFreeIsNext | server/src/colors.rs:292-313 | The wrapping search returns the cyclically first free colour after the given one |
| Colors.SomeColorIsFree | server/src/colors.rs:278-313 | Fewer than 46 taken colours leave both searches with an answer |
| RosterSpec.SeatOrderIsSorted | server/src/room.rs:357-361 | Seat order lists each player once, earlier promotion before later |
| RosterSpec.NextAdmin | server/src/room.rs:1035-1040 | The longest-connected client, or nobody in an empty room |
| RosterInv.JoinKeeps | server/src/room.rs:913-959 | An arrival keeps administrator, caps, orders and colour locks, and adds no player |
| RosterInv.LeaveKeeps | server/src/room.rs:1016-1033 | A departure keeps them, passing the administrator on |
| RosterInv.PromoteKeeps | server/src/room.rs:1143-1162 | A promotion below the cap keeps them and adds exactly that player |
| RosterInv.PromotedColor | server/src/room.rs:1385-1407 | A player promoted in co-op ends up with a claimable colour no other player has |
| RosterInv.DemoteKeeps | server/src/room.rs:1163-1175 | A demotion keeps them and removes exactly that player |
| RosterInv.ReadyColorChanges | server/src/room.rs:1267-1289 | Readying up in co-op always finds a claimable colour that no other ready player holds |
| RosterInv.ReadyKeeps | server/src/room.rs:1255-1294 | READY keeps ready players' colours claimable and pairwise distinct |
| RosterInv.PaintKeeps | server/src/room.rs:1296-1320 | An accepted COLOR_CLAIM keeps them too |
| RosterInv.PaletteSuffices | server/src/room.rs:1385-1407 | The player cap leaves every colour search with an answer |
| RosterInv.KeptAreEarliest | server/src/room.rs:1455-1473 | The switch to co-op keeps at most four players, each promoted before everyone who is demoted |
| RosterInv.RematchSpreads | server/src/room.rs:1410-1439 | Rematching leaves all players with claimable, pairwise distinct colours |
| RosterInv.TrimKeeps | server/src/room.rs:1441-1479 | After the switch the roster satisfies the co-op invariant, with all players' colours apart |
| RosterInv.SessionSeats | server/src/room.rs:1554-1564 | With everybody ready, the seats are all the players, in promotion order, with claimable and distinct colours |
| RosterInv.PlayersSitByPromotion | server/src/room.rs:357-361 | Among players seat order is the order of promotion |
| RosterColors.PromotionPicksColor | server/src/room.rs:1385-1407 | A promoted co-op player keeps a colour no other player wears and otherwise gets the first one none does |
| RosterColors.ReadyPicksColor | server/src/room.rs:1267-1289 | A player readying up keeps a colour no other ready player wears and otherwise moves on to the next free one |
| RosterColors.RematchDealsInOrder | server/src/room.rs:1410-1439 | In a rematch each player keeps a colour none of those before ended up with and otherwise gets the first one none did |
| Relay.NextInitializerFrom | server/src/room.rs:496-506 | The first living, connected frozen seat from a place on: every seat before it from there is absent or dead; none when there is none |
| RelayInv.PerformKeeps | server/src/room.rs:1704-2608 | Every handler keeps a generation sound (living seats, handshake, stored figures, journals, speed count), and the session is over exactly when the last frozen seat has died |
| RelayInv.NewRelayOk | server/src/room.rs:1554-1640 | A new generation is sound from its first state |
| RelayInv.RefusedIsNoOp | server/src/room.rs:2067-2344 | A refused pose, board or speed event leaves the relay state unchanged and is told to nobody |
| RelayInv.RefusedDeathSeats | server/src/room.rs:2346-2385 | A refused death changes at most the sender's seated mark, and exactly when its sender check passes and it was not seated |
| RelayInv.RefusedDeathIsNotANoOp | server/src/room.rs:2363-2371 | The smallest case of a refused death that changes state |
| RelayInv.SeatsAreFrozen | server/src/room.rs:2067-2608 | No handler changes slots, settings or generation, and nobody comes back to life |
| RelayInv.SpeedCountsOnce | server/src/room.rs:2422-2489 | A speed event is counted only for a source new to the generation, then once, and only then does the speed change |
| RelayInv.SpeedOverRun | server/src/room.rs:2422-2489 | Over any run: each source counts at most once, the epoch is the number counted, and the speed is the fold of the counted events |
| RelayInv.SpeedIsParity | server/src/room.rs:2453-2474 | The speed is the value brought by the last event that replaced it (a setting, or a toggle of a speed that is no flag) or that of the start, flipped once for each later toggle |
| RelayInv.SpeedIsSettled | server/src/room.rs:2453-2474 | Any list of counted events has such a last replacement, so that form always applies |
| RelayGates.PosesAreHeardExactly | server/src/room.rs:2067-2236 | A pose is published if and only if its sender may speak and lives, its numbers rise, its bodies and heads lie on the board, it agrees with the mode and its turns continue the journal; what is published and stored is what was sent |
| RelayGates.BoardsAreHeardExactly | server/src/room.rs:2238-2344 | The exact condition of a board commit, first or later, and all it leaves |
| RelayGates.DeathsAreHeardExactly | server/src/room.rs:2346-2385 | A report kills its sender if and only if the seat lives, may speak and brings acceptable remains |
| RelayGates.SpeedsAreHeardExactly | server/src/room.rs:2422-2489 | The exact condition under which a speed event counts |
| RelayGates.GoalsAreHeardExactly | server/src/room.rs:2387-2420 | The exact condition under which a claim of all apples is granted |
| RelayView.PerformHeard | server/src/room.rs:2067-2549 | A client whose picture agrees with the room agrees again after every handler's broadcasts |
| RelayView.OpeningHeard | server/src/room.rs:1640-1662 | The opening broadcasts of a generation give the picture of its first state |
| RelayView.ReplayHeard | server/src/room.rs:2885-2972 | Whatever a client believed, one replay gives it the room's picture |
| RelayTrace.PerformObeys | server/src/room.rs:2067-2549 | Whatever a handler broadcasts is lawful: revisions step by one from the last, BOARD_READY once and before any moved pose, rising event and pose numbers, nothing of the dead |
| RelayTrace.TraceIsInOrder | server/src/room.rs:2067-2549 | Any two messages of one generation in a lawful trace stand in order |
| RelayTrace.BoardsAreNumbered | server/src/room.rs:2238-2344 | Boards of a generation carry revisions 1, 2, 3, ... each based on the one before; no pose moves and no timer starts before its board is ready |
| RelayTrace.BodyIsChecked | server/src/room.rs:1735-1755 | A body is accepted if and only if it has one to four hundred cells, all on the board |
| TraceLaws.TimersAreInStep | server/src/room.rs:2220-2235 | In a lawful trace the first moved pose of a generation is followed at once by its timer, and no timer starts otherwise |
| TraceLaws.HandoverGoesToFirstSeat | server/src/room.rs:2491-2549 | A board asked for after a death is asked of the first seat of the session nobody has reported dead |
| TraceLaws.PosesLieOnTheBoard | server/src/room.rs:2067-2236 | A published pose is that of a living seat, with its bodies on the board of the session |
| TraceLaws.CorpsesShowLastPoses | server/src/room.rs:2491-2549 | A corpse the room takes off shows its player's last pose since the board opened, or nothing; a reported one lies on the board |
| SimRun.TickKeeps | server/src/room.rs:3133-3200 | A tick performs at most one step, accounts for its sixteen milliseconds exactly, keeps the session sound, and does nothing before the first input |
| SimRun.InputKeeps | server/src/room.rs:1667-1702 | An input keeps the session sound and changes nothing that others see |
| SimRun.FallKeeps | server/src/room.rs:2551-2582 | A seat taken away keeps the session sound without that player |
| SimRun.LastDeathEndsUnlessForgotten | server/src/room.rs:2584-2608 | The death of the last living seat ends the session at once if and only if no seat's entry has been forgotten |
| SimRun.DeadSessionGoesOn | server/src/room.rs:1009-1012 | Two seats, the first dead and gone: the second death does not end the session, and no tick ever will while nobody steers |
| SimRun.ArmedDeadSessionEnds | server/src/room.rs:3133-3200 | With the timer armed and no snake alive, the tick that makes the next step ends the session, and earlier ticks only add their milliseconds |
| SimRun.ExactSchedule | server/src/room.rs:3133-3200 | After k armed ticks: floor(16k / interval) steps and 16k mod interval milliseconds left |
| SimRun.TickEndsForAReason | server/src/room.rs:3133-3200 | A tick that ends a session shows the last board; the reason is no apples exactly when bodies cover it, and otherwise everybody on it is dead |
| RoomInv.ApplyKeeps | server/src/room.rs:913-3248 | Every arrival, departure, request and tick keeps the room invariant |
| RoomInv.LeaveKeepsRoom | server/src/room.rs:961-1033 | A departure keeps it, whichever seat, runner or administrator leaves |
| RoomInv.KickKeeps | server/src/room.rs:1183-1219 | A kick keeps it |
| RoomInv.SetRoleKeeps | server/src/room.rs:1108-1181 | A promotion or demotion keeps it |
| RoomInv.ModeKeeps | server/src/room.rs:1441-1479 | A change of mode keeps it, caps included |
| RoomInv.StartKeeps | server/src/room.rs:1512-1665 | A session start establishes it for the new session |
| RoomGates.OnlyTheAdminCommands | server/src/room.rs:1108-1253 | An administrator's request from anybody else is answered with an error to its sender and changes nothing |
| RoomGates.RefusalsChangeNothing | server/src/room.rs:1050-1089 | A refused request, deaths excepted, changes nothing and is answered to its sender alone |
| RoomGates.JoinsAreGrantedExactly | server/src/room.rs:913-959 | The exact condition of an arrival and all it leaves |
| RoomGates.KicksAreGrantedExactly | server/src/room.rs:1183-1219 | The exact condition of a kick; it removes its target and nobody else, and says so |
| RoomGates.RolesAreGrantedExactly | server/src/room.rs:1108-1181 | The exact condition of a change of role; the client has the role asked for, everyone else the one they had |
| RoomGates.ReadinessIsGrantedExactly | server/src/room.rs:1255-1294 | Exactly players may change their readiness; nobody else changes |
| RoomGates.ColorsAreGrantedExactly | server/src/room.rs:1296-1320 | The exact condition of a colour claim and all it leaves |
| RoomGates.StartsAreGrantedExactly | server/src/room.rs:1512-1665 | The exact condition of a start; a race gets its deadline from its start and duration |
| RoomGates.EndsAreGrantedExactly | server/src/room.rs:1322-1358 | The administrator's end leaves the lobby, nobody ready, the results on show and final exactly when there are any |
| RoomGates.ModesAreGrantedExactly | server/src/room.rs:1441-1479 | A change of mode ends the session and drops the results |
| RoomGates.HandoversAreGrantedExactly | server/src/room.rs:2870-2883 | The administrator hands over to anybody present and nobody else |
| RoomGates.DurationsAreGrantedExactly | server/src/room.rs:1221-1234 | A duration is accepted exactly between one minute and a day, after the cut to 32 bits |
| RoomGates.PulsesAreGrantedExactly | server/src/room.rs:2610-2640 | A pulse is recorded exactly for a player of a race that is on |
| RoomGates.InputsAreGrantedExactly | server/src/room.rs:1667-1702 | An input is taken exactly from a player with a direction; the first starts the timer and says so |
| RoomGates.SimulationFollowsSettings | server/src/coop.rs:257-321 | Board, speed, fruit and owner of a new simulation, from the settings and the seats |
| RoomGates.LostSeatsSayWhy | server/src/room.rs:961-1219 | Kicks, demotions and departures of somebody with a living seat first report the death with their own reason |
| RoomGates.AdminPassesOn | server/src/room.rs:1016-1040 | A leaving administrator is followed by the client that has been there longest |
| RoomGates.OwnerPassesOn | server/src/room.rs:961-1033 | The board of a leaving owner passes to a playing administrator, otherwise to the player promoted first |
| RoomTrace.ApplyTold | server/src/room.rs:913-3248 | Every command's broadcasts are lawful and keep everyone who is still there in the picture |
| RoomRuns.EveryRoster | server/src/room.rs:913-1479 | In every reachable room: an administrator exactly when anybody is there, and present; at most 30 connected; players within the cap of the mode; ready co-op players' colours claimable and distinct |
| RoomRuns.EveryGrace | server/src/room.rs:3086-3124 | In every reachable room a race past its time is open only in its grace period and while some current player is running |
| RoomRuns.EveryHandshake | server/src/room.rs:2491-2608 | In every reachable native session some frozen seat is alive, every living seat is a connected player, and until the board is ready such a seat is its initialiser |
| RoomRuns.EverySimulation | server/src/room.rs:3133-3200 | In every reachable simulated session the board is partitioned, paths unbroken, the game running, no step before the first input, entries and snakes agree |
| RoomRuns.EveryTraceIsLawful | server/src/room.rs:2067-2549 | The broadcasts of every run are lawful |
| RoomRuns.TraceSafety | server/src/room.rs:1704-2549 | Any two broadcasts of one generation, in any run, stand in order; boards are numbered 1, 2, 3, ...; no pose moves and no timer of a relayed generation starts before its board is ready |
| RoomNews.TimerStartsWithFirstMove | server/src/room.rs:2220-2235 | Over every run the first moved pose of a generation is followed at once by the start of its timer, no timer starts otherwise, and the room's timer runs exactly when such a pose has been seen |
| RoomNews.NewsFits | server/src/room.rs:1735-2549 | Over every run: handovers go to the first seat left, poses are those of living seats and lie on the board, corpses show last poses |
| RoomRoster.EveryoneKnowsTheRoster | server/src/room.rs:913-1665 | After every run that leaves anybody in the room, the last roster told to all is the present one: mode, clients, administrator, and whether a session is on |
| RoomRuns.ReplayEqualsHistory | server/src/room.rs:2885-2972 | After any run that leaves a co-op session live, every broadcast heard and one replay heard give the same picture, the one the room's state calls for |
| RoomRuns.StartSeatsEveryone | server/src/room.rs:1512-1665 | A co-op session starts a new generation with all players seated, in promotion order, no two of one colour |
| RoomRuns.SnakesWearTheirColors | server/src/room.rs:1600-1609 | The snakes of a new simulation wear the colours of their seats |
| RoomSessions.SeatsAreFrozen | server/src/room.rs:1481-1489 | As long as a generation lasts its seats and settings stay those it was started with, whatever happens in between |
| RoomSessions.RoomSchedule | server/src/room.rs:3133-3200 | Over room runs: k armed ticks of one session make floor(16k / interval) steps and leave 16k mod interval |
| RoomSessions.SpeedOverRun | server/src/room.rs:2422-2489 | Over any run of the room within one generation: each speed source counts once, the epoch is the number counted, the sources are the known ones, and the speed is the last replacement flipped once per later toggle |
| RoomSessions.GraceClosesExactly | server/src/room.rs:3202-3248 | Unless an administrator ends it, a race in its grace period is open after a command exactly when some current player is still running |
| RoomRecords.GraceClosesWithTheLastPulse | server/src/room.rs:3202-3227 | Over runs from a new room: a race in grace is open after a command exactly when some player is there whose last accepted pulse did not end its run |
| RoomRecords.GraceWaitsForPulses | server/src/room.rs:3086-3227 | In every reachable room a race past its time waits for such a player |
| RoomRecords.PulsesAreCapped | server/src/room.rs:2625-2670 | Scores and times are capped, a pulse's word on the run is kept, and a late claim of all apples meets no goal |
| RoomClocks.RaceExpiresOnTime | server/src/room.rs:3086-3120 | Over any run of a race that nobody ends or replaces, it has expired exactly when a tick has come at or past its deadline |
| RoomClocks.TickJudgesTheRace | server/src/room.rs:3086-3120 | The first tick from the deadline on closes the race, or leaves it open exactly for grace with somebody running |
| RoomClocks.TimerStartsWithFirstInput | server/src/room.rs:1690-1702 | Over any run within a simulated session its timer stands at the first input taken |
| RoomClocks.LastFrameExplainsTheEnd | server/src/room.rs:3133-3200 | The end of a simulated session is told with its last board and the reason that board shows |
| RoomRecords.EntriesAreStats | server/src/room.rs:2642-2764 | Over any run of the room, a player's entry holds the order-free statistics of its accepted pulses, its goal times those of the pulses since the goal was set and of what stood on show then, and it shows the last of them: score, time, life and start |
| RoomOrphans.KickedSessionGoesOn | server/src/room.rs:1183-1219 | Start, kick, kick: the simulated session is still live without a living snake, and every tick leaves it so |
| RoomOrphans.ArmedOrphanEnds | server/src/room.rs:3133-3200 | Once its timer is armed, the tick that makes the next step ends such a session, and none before |
| RoomServer.Room.constructor | server/src/room.rs:274-316 | A new room |
| RoomServer.Room.Join | server/src/room.rs:913-959 | The whole new state and messages of an arrival, refusals included |
| RoomServer.Room.Leave | server/src/room.rs:961-1033 | The whole new state and messages of a departure |
| RoomServer.Room.OldestClient | server/src/room.rs:1035-1040 | The loop finds the longest-connected client |
| RoomServer.Room.OrderedCoopPlayers | server/src/room.rs:357-361 | The players in seat order |
| RoomServer.Room.NextNativeInitializer | server/src/room.rs:496-506 | The loop finds the first living, connected seat |
| RoomServer.Room.Handle | server/src/room.rs:1050-1089 | Every request has exactly the effect and messages of the specification, errors go to the sender alone, and the room stays valid |
| RoomServer.Room.SetRole | server/src/room.rs:1108-1181 | The whole new state and messages of SET_ROLE |
| RoomServer.Room.Kick | server/src/room.rs:1183-1219 | The whole new state and messages of KICK |
| RoomServer.Room.SetDuration | server/src/room.rs:1221-1234 | The whole new state of SET_DURATION, the cut to 32 bits included |
| RoomServer.Room.SetRaceGoal | server/src/room.rs:1236-1253 | A new goal judges every entry anew by its current score |
| RoomServer.Room.MarkReady | server/src/room.rs:1255-1294 | The whole new state of READY, colour bump included |
| RoomServer.Room.ClaimColor | server/src/room.rs:1296-1320 | The whole new state of COLOR_CLAIM, the cut to one byte included |
| RoomServer.Room.AbortRun | server/src/room.rs:1322-1337 | The aborted room: lobby, nobody ready, results kept |
| RoomServer.Room.ClearCoopRunState | server/src/room.rs:1340-1358 | Nothing of the run is left |
| RoomServer.Room.DemoteNewest | server/src/room.rs:1455-1473 | The loop keeps exactly the four earliest promoted players |
| RoomServer.Room.RematchCoopColors | server/src/room.rs:1410-1439 | The loop computes the rematch |
| RoomServer.Room.ChangeMode | server/src/room.rs:1441-1479 | The whole new state and messages of MODE_CHANGE |
| RoomServer.Room.StartSession | server/src/room.rs:1512-1665 | The whole new state and messages of SESSION_START in race, relayed and simulated form |
| RoomServer.Room.SimInput | server/src/room.rs:1667-1702 | The whole new state and messages of INPUT |
| RoomServer.Room.RequireNativeSender | server/src/room.rs:1704-1733 | The sender check, error by error in order, with no live relay refused first |
| RoomServer.Room.ValidateBody | server/src/room.rs:1735-1755 | The loop finds the first fault of a body, or none |
| RoomServer.Room.SnakeDelta | server/src/room.rs:2067-2236 | The whole new relay state and messages of a pose |
| RoomServer.Room.CollectablesDelta | server/src/room.rs:2238-2344 | The whole new relay state and messages of a board commit |
| RoomServer.Room.PlayerDied | server/src/room.rs:2346-2385 | The whole new state and messages of a death report |
| RoomServer.Room.CoopGoal | server/src/room.rs:2387-2420 | The whole new state and messages of COOP_GOAL |
| RoomServer.Room.SpeedTransition | server/src/room.rs:2422-2489 | The whole new relay state and messages of a speed event |
| RoomServer.Room.MarkNativeSeatDead | server/src/room.rs:2491-2549 | The whole new state and messages of a seat marked dead, handoff and end of session included |
| RoomServer.Room.MarkServerSimSeatDead | server/src/room.rs:2551-2582 | The whole new state and messages of a simulated seat marked dead |
| RoomServer.Room.MaybeEndCoopAllDead | server/src/room.rs:2584-2608 | Ends the session exactly when every frozen seat's entry says dead |
| RoomServer.Room.ScorePulse | server/src/room.rs:2610-2727 | The whole new state and messages of a score pulse, caps included |
| RoomServer.Room.AdminTransfer | server/src/room.rs:2870-2883 | The whole new state of ADMIN_TRANSFER |
| RoomServer.Room.Resync | server/src/room.rs:2885-3011 | Sends exactly the replay in canonical order, then the roster, and changes nothing |
| RoomServer.Room.TickRace | server/src/room.rs:3086-3120 | The race clock: expiry, grace or close |
| RoomServer.Room.TickCoopSim | server/src/room.rs:3133-3200 | The accumulator loop computes the tick of the specification |
| RoomServer.Room.MaybeEndRaceGrace | server/src/room.rs:3202-3227 | Closes a grace period exactly when no current player is running |
| RoomServer.Room.FinishRaceGrace | server/src/room.rs:3229-3248 | Closes the race and names a leader nobody beats |
| RoomServer.Room.Tick | server/src/room.rs:3086-3131 | One room tick, and the room stays valid |

## Left out

- JSON parsing and the cosmetic checks of poses and boards (visual metadata, segment flags, headings, board entities, string lengths): their verdicts are parameters of the model.
- String settings such as "1": the model reads numeric settings only.
- Display names, spectate focus, race boards, theme colours, console watch, spectate and summary dumps, ATTEMPT_TICK and envelope sequence numbers: no property of a session depends on them.
- The winner inside ATTEMPT_EXPIRED and the leader inside ROSTER and SCORE_PULSE: the choice is `RaceScore.RaceLeader`, which `RoomServer.Room.FinishRaceGrace` calls; the messages carry the rest.
- The replay of race scores and boards to a client that resynchronises: one message per table entry, in table order.
- The chrome caches of snakes and collectables: the relay's own tables and the simulation hold the same data.
- Overflow of counters and clocks (u32, u64): numbers are unbounded, except for the generator state, the byte cuts of colour and board size and the 32-bit cut of the duration, which are modelled.
- Fruit kinds: fruit is a cell.
- A second HELLO on one connection: a client that joins is new to the room (`RoomSpec.Enabled`).
- Library sorts and scans over hash tables in the room: written as selections of the least element, with the same result.
- The client's board and wall revisions, its companion body, queued input and legacy seating without a generation: the server alone numbers boards.
- RoomServer.Room.AbortRun: states the room and the broadcast; that results stay on show is the record of the attempt.
- WebSockets, TLS, tasks and locks, certificates, port mapping, the mod's pages and the game engine: only lost messages and the sixteen-millisecond tick are modelled.
