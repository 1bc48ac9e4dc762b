# Court-flow, verified

A Dafny model of the parts of a court-booking club's system where order and concurrency matter, with proofs of what its
code is meant to guarantee. `dafny verify dfyconfig.toml` checks everything.

| part | files |
|---|---|
| tournament draws and single elimination | `Seeding`, `Bracket`, `BracketRuns`, `Championship`, `Rerecording`, `RecordingOverlaps` |
| the working-hours gate | `WorkingHours` |
| booking and payment state machines | `BookingStatus` |
| the court schedule: tables, statement lists, the interleaving machine | `Schedule`, `RowLemmas`, `Interleaving`, `Programs` |
| its safety over all interleavings, history, lock order and limits | `ScheduleSafety`, `ScheduleRuns`, `ScheduleHistory`, `ScheduleHours`, `HoldRaces`, `LockOrder`, `Serving`, `ScheduleLimits` |
| its rules in instants, local time and counts | `SlotRules`, `StockRules`, `DeskRules` |
| the schedule's use cases as table-updating methods | `ServedRequests`, `CourtDesk` |
| refunds, cancellation and the ledger | `Finance`, `FinanceRuns`, `MoneyTheorems`, `RefundCoverage`, `PaymentEdges`, `MoneyRules`, `FinanceDesk` |
| payment webhooks | `Webhook`, `FeeRaces`, `OnlineDeposits`, `WebhookDesk`, `CanonicalPayload` |
| refresh tokens, and the browser's refresh queue | `RefreshTokens`, `Sessions`, `RefreshQueue`, `ApiClient` |

Conventions. Money is integer piastres, instants are integer milliseconds, the club zone is a constant offset. Ids,
hashes and tokens are numbers; the clock, generated tokens and prepaid flag are parameters. SQL's NOW() is the instant
its transaction began. A row's position in its table stands for its id and its creation order. Code that updates rows
or module variables is a class with methods; each method's `ensures` equates the new state with a step function of the
old one, and the theorems are about runs of those steps. Besides, each `ensures` says what is accepted and written
without those functions: in instants, local time, stored values and plain sums. Where that speaks of instants it is
for tables that meet their own constraint that slots end after they start (backend/migrations/001_init_schema.sql:232
and :265, 011_antilockout_webhook_waitlist.sql:62 and :84), which every run keeps (`BookingsKeepTheHours`). In the
schedule a transaction is a list of statements that run one at a time between other transactions' statements: locks
last until commit or rollback, and inserts show at commit. What takes one statement or locks the single row it
rewrites is one step.

What turned out not to hold, with its exact condition:

- A result may be recorded again on a decided match (the page hides the button, the server does not refuse). Slots
  still hold their feeders' winners; `RecordKeepsWinnersIff` says when a stale winner is left above, and `StaleWinner` is a
  run that leaves one. The champion results are about runs on undecided matches.
- `recordMatchResult` reads and writes in three statements without a transaction. Overlapping requests for a match can
  misplace its winner exactly if it is below the final and two teams can come to play it: `OverlapsAreSafeIff`.
- A block locks court rows only if its scope names a court of the club, or the club has courts. Otherwise two
  concurrent blocks can overlap: `BlocksAreSafeIffTheyLock`.
- The hold a customer claims may expire between the check and the commit, and another user's hold be active by then:
  `EarliestHoldAtCommit`, with the run `ExpiredHoldLetsOneIn`.
- A settlement may change what was collected after refunds were claimed. It can strand them (`CoveredThroughoutIff`,
  `SettlementStrandsRefund`) and make the payment status untrue (`MirroredThroughoutIff`).
- More can be paid back than was collected: `cancelBooking` ignores refunds approved by hand, approval ignores a
  cancellation, and settlements ignore both. `OverpaidIff` says when it has happened, `RefundCoverage.NeverOverpaidIff`
  which steps cause it, and `RefundThenCancelOverpays` and `SettledToNothingOverpays` are runs.
- `recordTeamPayment` reads and writes in two statements without a transaction: `NeverOverpaidIffRoomLeft`,
  `TwoStaffOverpay`.
- A rotation under way when a stolen token is replayed escapes the mass revocation: `NobodySurvivesIff`,
  `RotationUnderWayEscapes`. Served one at a time it cannot: `ReuseRevokesEverything`.
- Forfeiting, and approving a refund of a payment already closed, leave the documented payment edges:
  `PaymentFollowsEdgesIff`. A payment is closed by a cancellation, or by approvals before a settlement raises what
  was collected; `LateCancellationLeavesEdges`, `LateApprovalLeavesEdges` and `ReopenedBySettlement` are runs.
  `PaymentFollowsOneEdgeIff` says which writes are single edges.
- Cancelling a checked-in booking leaves the booking edges: `CancelFollowsEdgesExceptCheckedIn`, `CheckedInThenCancelled`.
- A payload with a timestamp far outside the replay window can share its signed string with another:
  `HugeTimestampsCollide`. Inside the window none can: `CanonicalIsInjective`.

Where code and comments disagree the code is followed: the state-machine comment omits the edge from
pending_verification to cancelled that the table has (backend/src/domain/booking/booking.state-machine.ts:8 and :33),
and transactions are described as serializable but run at the database's default level
(backend/src/infrastructure/database/client.ts:62 and :70), which is how statements are interleaved here. Duplicate
equipment lines pass the stock checks but break a uniqueness constraint on insert
(backend/migrations/008_equipment_and_subscriptions.sql), so such a request rolls back.

## Model

| member | source | states |
|---|---|---|
| Seeding.BracketSeedOrder | backend/src/interfaces/http/controllers/tournament.controller.ts:358-367 | the doubling loop yields, for any size, the seed order of the least power of two at or above it |
| Seeding.Doubled | backend/src/interfaces/http/controllers/tournament.controller.ts:360-365 | the inner loop: each seed followed by the one that completes it to twice the size plus one |
| Seeding.DrawForEight | backend/src/interfaces/http/controllers/tournament.controller.ts:354-355 | the documented order for eight |
| Seeding.FirstSeedFirst | backend/src/interfaces/http/controllers/tournament.controller.ts:353-367 | the first seed has the first slot of every draw |
| Seeding.SeedOrderIsPermutation | backend/src/interfaces/http/controllers/tournament.controller.ts:353-367 | in a draw of 2^k every seed 1..2^k has exactly one slot |
| Seeding.OpponentsSumToSizePlusOne | backend/src/interfaces/http/controllers/tournament.controller.ts:362-363 | the two seeds of each first-round pair sum to the bracket size plus one |
| Seeding.TopSeedsSeparated | backend/src/interfaces/http/controllers/tournament.controller.ts:353-367 | for every m the top 2^m seeds fall one into each of the 2^m blocks of slots, so they cannot meet early |
| Seeding.ByesGoToTopSeeds | backend/src/interfaces/http/controllers/tournament.controller.ts:399-409 | no first-round pair is empty, and a seed has a bye exactly when it is one of the top size-n seeds |
| Seeding.PairsWithSeedCount | backend/src/interfaces/http/controllers/tournament.controller.ts:399-409 | exactly size-n first-round pairs contain a top seed with a bye |
| Bracket.Tournament.GenerateBracket | backend/src/interfaces/http/controllers/tournament.controller.ts:386-451 | refuses closed tournaments and fewer than two teams, leaving everything as it was; otherwise the rows are exactly the drawn tree with byes advanced, and seeds follow registration order |
| Bracket.Tournament.InsertRounds | backend/src/interfaces/http/controllers/tournament.controller.ts:412-426 | one row per place of the tree, round 1 filled from the draw, nothing decided |
| Bracket.Tournament.AdvanceByes | backend/src/interfaces/http/controllers/tournament.controller.ts:428-447 | after the bye loop each lone team has won its match and stands in the right slot of round 2, and nothing else changed |
| Bracket.Tournament.AdvanceBye | backend/src/interfaces/http/controllers/tournament.controller.ts:430-446 | one iteration, row by row: a lone team wins its match and takes the slot above on its own side; without one nothing is written |
| Bracket.Tournament.RecordMatchResult | backend/src/interfaces/http/controllers/tournament.controller.ts:481-534 | accepts exactly the results of a match with two known teams whose winner is one of them; writes winner and scores, the winner into its side of the match above, or completes the tournament on the final, and nothing else |
| BracketRuns.GeneratedIsSound | backend/src/interfaces/http/controllers/tournament.controller.ts:408-447 | a generated draw is a sound tree: slots hold their feeders' winners, winners played, byes and only byes are decided |
| BracketRuns.RecordKeepsStructure | backend/src/interfaces/http/controllers/tournament.controller.ts:501-519 | recording any legal result, even again on a decided match, keeps every later slot equal to its feeder's winner |
| BracketRuns.RecordKeepsWinnersIff | backend/src/interfaces/http/controllers/tournament.controller.ts:501-519 | recording keeps "every winner played" if and only if the match above was not already won by the team being replaced |
| Rerecording.StaleWinner | backend/src/interfaces/http/controllers/tournament.controller.ts:501-519 | a run of four teams in which re-recording a semi-final leaves the final won by a team that is no longer in it |
| Rerecording.HarmlessOverlapsStayStructured | backend/src/interfaces/http/controllers/tournament.controller.ts:485-525 | with the statements of all requests interleaved, every slot equals its feeder's winner at rest as long as overlapping recordings are only of the final |
| Rerecording.OneAtATimeStaysStructured | backend/src/interfaces/http/controllers/tournament.controller.ts:485-525 | in particular when no match is ever recorded by two requests at once |
| RecordingOverlaps.OverlapMisplacesWinner | backend/src/interfaces/http/controllers/tournament.controller.ts:485-519 | two overlapping recordings of any match below the final can leave the slot above with the team that did not win |
| RecordingOverlaps.OverlapsAreSafeIff | backend/src/interfaces/http/controllers/tournament.controller.ts:485-525 | from any sound draw: all runs whose overlapping recordings are of matches in a given set leave every slot equal to its feeder's winner at rest if and only if the set holds no match below the final other than first-round byes |
| RecordingOverlaps.ServedAlone | backend/src/interfaces/http/controllers/tournament.controller.ts:485-525 | uninterrupted, the statements are the one step that runs of results are made of |
| BracketRuns.RecordKeepsSound | backend/src/interfaces/http/controllers/tournament.controller.ts:501-525 | recording on an undecided match keeps the whole tree sound and completes it exactly on the final |
| BracketRuns.TopSeedsMeetLate | backend/src/interfaces/http/controllers/tournament.controller.ts:353-367 | in every sound draw the top 2^m seeds meet, if they do, only in the last m rounds |
| BracketRuns.OnePlacePerRound | backend/src/interfaces/http/controllers/tournament.controller.ts:408-447 | a team stands in at most one match of each round |
| Championship.LooseRunsStayStructured | backend/src/interfaces/http/controllers/tournament.controller.ts:481-525 | over any run of results, re-recordings included, slots keep holding their feeders' winners |
| Championship.RunsStaySound | backend/src/interfaces/http/controllers/tournament.controller.ts:494-525 | over any run on undecided matches the tree stays sound and each result decides exactly one more match |
| Championship.PlayableBelow | backend/src/interfaces/http/controllers/tournament.controller.ts:494-519 | below any undecided match some match can be played now |
| Championship.TournamentTakesAllButOneResults | backend/src/interfaces/http/controllers/tournament.controller.ts:494-525 | n teams: the tournament is completed exactly at the (n-1)-th result, and until then some match is playable |
| Championship.NobodyLosesTwice | backend/src/interfaces/http/controllers/tournament.controller.ts:494-519 | at no moment has a team lost two matches |
| Championship.EveryoneElseLostOnce | backend/src/interfaces/http/controllers/tournament.controller.ts:494-525 | when the tournament is completed the champion is unbeaten and every other team lost exactly one match |
| WorkingHours.MergeSorted | backend/src/domain/booking/booking.validator.ts:211-220 | the loop leaves intervals sorted, strictly apart, and covering the same instants as the input |
| WorkingHours.MergeIntervals | backend/src/domain/booking/booking.validator.ts:208-221 | same for any input: separated result, same instants covered |
| WorkingHours.SlotFitsIffCovered | backend/src/domain/booking/booking.validator.ts:262-266 | a non-empty slot lies in one merged interval exactly when all its instants are covered |
| WorkingHours.NeighbouringDaysSuffice | backend/src/domain/booking/booking.validator.ts:251-260 | for slots of up to 24 hours no day but the previous, the same and the next can contribute |
| WorkingHours.IndexByDay | backend/src/domain/booking/booking.validator.ts:246 | the day index keeps the last row of each weekday |
| WorkingHours.OpenAtIffOpenLocally | backend/src/domain/booking/booking.validator.ts:180-205 | the windows of the endless week are open at an instant exactly if, by local weekday and time, today's row covers it (not closed, begun, and around the clock, to midnight as 23:59, overnight, or to a later closing time) or yesterday's around-the-clock or overnight row reaches past midnight to it |
| WorkingHours.WeekdaysGoRound | backend/src/domain/booking/booking.validator.ts:255-256 | day 0 is Thursday, 1 January 1970, and each day is followed by the next weekday |
| WorkingHours.CalendarDayHolds | backend/src/domain/booking/booking.validator.ts:248-249 | the local calendar day of an instant is the 24 hours from one local midnight that hold it |
| WorkingHours.AssertWithinWorkingHours | backend/src/domain/booking/booking.validator.ts:229-275 | accepts a slot of up to 24 hours if and only if at every instant of it, by the local clock, today's shift is on or yesterday's still is; the error names whether the start day opens at all |
| WorkingHours.AlwaysOpen | backend/src/domain/booking/booking.validator.ts:189-197 | seven 24-hour rows (equal times, or 00:00 with 23:59 or 24:00) are open at every instant |
| BookingStatus.TerminalIffCourtReleased | backend/src/domain/booking/booking.state-machine.ts:30-48 | a status is terminal exactly when it does not occupy the court, and no path leads out of it |
| BookingStatus.PaymentEnds | backend/src/domain/booking/booking.state-machine.ts:72-80 | no edge leaves a fully refunded or forfeited payment and none enters forfeited |
| BookingStatus.EnteredFrom | backend/src/domain/booking/booking.state-machine.ts:30-40 | which statuses may come right before each status |
| BookingStatus.PaymentEnteredFrom | backend/src/domain/booking/booking.state-machine.ts:72-80 | which payment statuses may come right before each |
| Schedule.StatusWritesFollowEdges | backend/src/domain/booking/booking.state-machine.ts:30-56 | every status write of every use case, job and webhook is a walk along documented edges; only deletion also cancels from anywhere |
| Schedule.CancelFollowsEdgesExceptCheckedIn | backend/src/application/booking/cancel-booking.usecase.ts:123-126 | cancelBooking accepts exactly the statuses with an edge to cancelled, plus checked_in |
| Schedule.EarliestHold | backend/src/application/booking/create-booking.usecase.ts:172-188 | the hold consulted is the first active unclaimed one over the slot, if any |
| RowLemmas.WindowSumBoundsInstant | backend/src/application/booking/create-booking.usecase.ts:252-264 | the summed quantity over the requested window bounds what is rented at each instant of it |
| SlotRules.OverlapIffInstantShared | backend/src/domain/booking/booking.validator.ts:128-136 | non-empty half-open slots pass the overlap test exactly if they have an instant in common, so back-to-back slots do not |
| SlotRules.ClearIffFree | backend/src/domain/booking/booking.validator.ts:95-136 | the conflict tests find a row exactly if a stored booking or block of the same court, or of the whole club, has an instant in the range |
| SlotRules.EarliestHoldIff | backend/src/application/booking/create-booking.usecase.ts:172-188 | the hold consulted is the first created of the unclaimed, unexpired ones with an instant in the slot |
| StockRules.RentedIsOut | backend/src/application/booking/create-booking.usecase.ts:252-264 | the stock query is the sum over all court-holding bookings with an instant in the range of what their lines ask for |
| StockRules.SortingKeepsLines | backend/src/application/booking/create-booking.usecase.ts:231-233 | sorting changes neither which lines are checked nor whether an item is named twice |
| DeskRules.MayBookIff | backend/src/application/booking/create-booking.usecase.ts:86-278 | a booking passes its statement list exactly if its court is open for booking and free, it is one to twelve whole hours, each item is in stock, and, for members, it is not past, within the local working hours, their only unpaid one, and not held for others |
| DeskRules.MaySubscribeIff | backend/src/application/booking/create-subscription.usecase.ts:61-145 | likewise for every week of a subscription |
| DeskRules.MayBlockIff | backend/src/interfaces/http/controllers/court.controller.ts:516-562 | a block passes exactly if its range is non-empty and no booking or block in its scope has an instant in it |
| DeskRules.HoldsIff | backend/src/application/booking/create-booking.usecase.ts:171-201 | members pass the holds exactly if the first active one, if any, is theirs and they present its token; the desk always |
| Programs.ProgramsAreWellOrdered | backend/src/application/booking/create-booking.usecase.ts:86-184 | every writer locks its courts, customer and items before the checks that rely on them |
| Programs.ClaimsAreChecked | backend/src/domain/booking/booking.validator.ts:95-141 | every row a writer would insert is checked against blocks and bookings first |
| ScheduleSafety.RelaxingKeepsInv | backend/src/infrastructure/cron/index.ts:84-94 | status writes, removals, time and new stock keep every table property and every open transaction's findings |
| ScheduleSafety.OfferKeepsInv | backend/src/application/booking/cancel-booking.usecase.ts:256-288 | a cancellation that holds the freed slot for a waitlisted user keeps the joint invariant |
| ScheduleSafety.ConflictingClaimsShareACourt | backend/src/interfaces/http/controllers/court.controller.ts:592-601 | two rows that would conflict have a court row in common, so their writers exclude each other |
| ScheduleRuns.ClaimsAreDisjoint | backend/src/application/booking/create-subscription.usecase.ts:120-122 | the weekly bookings of one subscription never overlap each other |
| ScheduleRuns.CommitKeepsStock | backend/src/application/booking/create-booking.usecase.ts:252-264 | committing a booking keeps rented quantities within stock at every instant |
| ScheduleRuns.CommitKeepsHolds | backend/src/application/booking/create-booking.usecase.ts:380-385 | after a commit every claimed hold still names a booking of its own user, court and an overlapping slot, no booking has consumed two holds, and no entry has yielded two |
| ScheduleRuns.RunsKeepInv | backend/src/interfaces/http/controllers/court.controller.ts:496-514 | the joint invariant holds after every interleaving of any number of writers with all other steps |
| ScheduleRuns.NoDoubleBooking | backend/src/interfaces/http/controllers/court.controller.ts:496-514 | from an empty schedule every run keeps bookings and blocks pairwise disjoint, stock respected at every instant, one unpaid self-made booking per customer, honest holds, and deleted bookings cancelled |
| ScheduleHours.BookingsKeepTheHours | backend/src/domain/booking/booking.validator.ts:88-93 | over any run, whatever interleaves, every stored slot is non-empty, every booking lasts one to twelve whole hours, and each member's own booking lies within an opening table that was in force during the run |
| ScheduleHours.MembersStayWithinHours | backend/src/domain/booking/booking.validator.ts:88-93 | in runs that leave the opening table alone no member ever holds a slot outside it |
| ScheduleHistory.ReleasedStaysReleased | backend/src/application/booking/delete-booking.usecase.ts:74-84 | over any run a row keeps its slot, owner and items, and one that gave up its court never takes it back |
| ScheduleHistory.StatusesFollowEdges | backend/src/domain/booking/booking.state-machine.ts:30-40 | over any run a booking's status has followed documented edges, or was cancelled after check-in; a deleted one is cancelled |
| ScheduleHistory.SubscriptionAddsEveryWeek | backend/src/application/booking/create-subscription.usecase.ts:119-193 | a subscription commits 4 or 12 confirmed bookings exactly a week apart, and the schedule stays disjoint |
| ScheduleHistory.WeeksKeepLocalTime | backend/src/application/booking/create-subscription.usecase.ts:120-122 | every session falls on the weekday and local time of the first, exactly i weeks later |
| ScheduleHistory.RowsComeByWholeRequests | backend/src/infrastructure/database/client.ts:65-81 | every step adds no row, or all the rows of one finished request |
| ScheduleHistory.ClaimedHoldsAreFinal | backend/src/application/booking/create-booking.usecase.ts:380-385 | a hold is consumed by at most one booking: over any run a claimed hold never changes again |
| HoldRaces.ConsultingLocks | backend/src/application/booking/create-booking.usecase.ts:172-188 | consulting the holds locks every active one over the slot |
| HoldRaces.OneConsumerPerHold | backend/src/application/booking/create-booking.usecase.ts:172-188 | over any run, no two open transactions are about to consume the same hold |
| ScheduleHistory.EarliestHoldAtCommit | backend/src/application/booking/create-booking.usecase.ts:171-201 | when a customer's booking commits, the earliest active hold over it is the claimed one exactly if that has not expired by then |
| ScheduleHistory.HoldsAreRespected | backend/src/application/booking/create-booking.usecase.ts:165-201 | with an unexpired claim the earliest active hold belongs to the customer and is consumed by this booking |
| ScheduleLimits.ExpiredHoldLetsOneIn | backend/src/application/booking/create-booking.usecase.ts:171-201 | a run in which a claim expires under way and the customer commits ahead of another user's active hold |
| ScheduleLimits.CheckedInThenCancelled | backend/src/application/booking/cancel-booking.usecase.ts:123-126 | a run that cancels a checked-in booking, a move no path of documented edges makes |
| ScheduleLimits.BlocksAreSafeIffTheyLock | backend/src/interfaces/http/controllers/court.controller.ts:596-609 | all runs stay free of double bookings if and only if each block scope in use locks at least one court row |
| LockOrder.ProgramsAscend | backend/src/application/booking/create-booking.usecase.ts:222-246 | every writer acquires court, customer and item locks in one global order |
| LockOrder.SortLinesSorts | backend/src/application/booking/create-booking.usecase.ts:231-233 | requested lines are put in ascending item order, none lost |
| LockOrder.WaitingIsAcquiring | backend/src/application/booking/create-booking.usecase.ts:174-184 | nobody ever waits for a hold row |
| LockOrder.NoDeadlock | backend/src/application/booking/create-booking.usecase.ts:222-230 | no reachable state of any number of writers contains a wait-for cycle |
| LockOrder.SomeoneCanStep | backend/src/application/booking/create-booking.usecase.ts:222-230 | while transactions are open one of them can take its next statement |
| Serving.ServedAlone | backend/src/infrastructure/database/client.ts:65-81 | a request served alone finishes, and commits all its rows exactly when every statement passes |
| ServedRequests.ServedBooking | backend/src/application/booking/create-booking.usecase.ts:77-402 | what a booking request leaves behind: its row and the consumed hold, or nothing |
| ServedRequests.ServedSubscription | backend/src/application/booking/create-subscription.usecase.ts:70-193 | all weeks or nothing |
| ServedRequests.ServedBlock | backend/src/interfaces/http/controllers/court.controller.ts:582-609 | the block or nothing |
| ServedRequests.ServingKeepsTables | backend/src/application/booking/create-booking.usecase.ts:86-402 | one-at-a-time service keeps every table property |
| CourtDesk.Desk.ValidateBookingSlot | backend/src/domain/booking/booking.validator.ts:49-142 | each refusal is given exactly when its check is the first to fail, in the source's order: length, court, local working hours, a block with an instant in the slot, a booking with one |
| CourtDesk.Desk.CheckCap | backend/src/application/booking/create-booking.usecase.ts:118-151 | customers only: start not in the past and no unpaid booking ahead |
| CourtDesk.Desk.ConsultHolds | backend/src/application/booking/create-booking.usecase.ts:171-201 | allowed exactly when the caller is staff or the first active hold, if any, is the customer's own with its token; claims exactly that one |
| CourtDesk.Desk.ResolveEquipment | backend/src/application/booking/create-booking.usecase.ts:235-278 | passes exactly when each line, with what overlapping bookings rent, is within the stock of an active item |
| CourtDesk.Desk.CheckBooking | backend/src/application/booking/create-booking.usecase.ts:86-278 | passes exactly the bookings the club's rules allow (DeskRules.MayBook), and returns the hold it will consume |
| CourtDesk.Desk.CreateBooking | backend/src/application/booking/create-booking.usecase.ts:77-402 | created exactly when the rules allow it: court, length, local working hours, free court, one unpaid booking, holds, stock, distinct items; then the one new row holds what was asked for and only the customer's own first active hold is consumed; otherwise nothing changes |
| CourtDesk.Desk.InsertBooking | backend/src/application/booking/create-booking.usecase.ts:344-402 | the writes of an accepted booking |
| CourtDesk.Desk.CreateSubscription | backend/src/application/booking/create-subscription.usecase.ts:61-193 | created exactly when every week is allowed; adds 4 or 12 confirmed bookings at the same weekday and local time, or nothing, and a refused week is the first that is not allowed |
| CourtDesk.Desk.CheckSubscription | backend/src/application/booking/create-subscription.usecase.ts:61-145 | the checks in order, each refusal exactly when it is the first to fail |
| CourtDesk.Desk.CreateBlockedPeriod | backend/src/interfaces/http/controllers/court.controller.ts:516-609 | adds the block exactly when the range is non-empty and no booking or block of the same court, or with either side club-wide, has an instant in it |
| CourtDesk.Desk.CancelBookingAt | backend/src/application/booking/cancel-booking.usecase.ts:101-288 | staff or the owner, any status but the final ones; frees the slot, and holds an upcoming Friday, Saturday or after-five slot for the first other member waiting for it, and for nobody otherwise |
| CourtDesk.Desk.CheckInBooking | backend/src/interfaces/http/controllers/booking.controller.ts:503-516 | checks in exactly confirmed bookings and touches no other row |
| CourtDesk.Desk.UploadReceiptFor | backend/src/application/booking/upload-receipt.usecase.ts:88-145 | done exactly for the customer of a booking that awaits payment or verification |
| CourtDesk.Desk.ApproveDepositOf | backend/src/application/booking/verify-deposit.usecase.ts:52-108 | confirms exactly bookings pending verification |
| CourtDesk.Desk.DeleteBooking | backend/src/application/booking/delete-booking.usecase.ts:41-84 | marks deleted and cancelled unless already deleted or tied to refunds |
| CourtDesk.Desk.Sweep | backend/src/infrastructure/cron/index.ts:84-94 | a bulk update rewrites every row by its rule, in place, and returns the number of rows that changed |
| CourtDesk.Desk.RunExpirePendingJob | backend/src/infrastructure/cron/index.ts:68-95 | expires exactly the unpaid bookings past their own deadline, or past the club's window if they have none, changes nothing else and returns their number |
| CourtDesk.Desk.RunExpireStalledBookingsJob | backend/src/infrastructure/cron/index.ts:115-167 | expires exactly the drafts past the draft window and the overdue unpaid bookings, and returns both numbers |
| CourtDesk.Desk.RunNoShowJob | backend/src/infrastructure/cron/index.ts:190-209 | marks exactly confirmed bookings whose grace has run out and returns their number |
| CourtDesk.Desk.CancelSessions | backend/src/interfaces/http/controllers/subscription.controller.ts:167-179 | cancels exactly the sessions of the subscription that have not begun and are not over, and returns their number |
| FinanceRuns.StepKeepsBooks | backend/src/interfaces/http/controllers/refund.controller.ts:42-70 | every money step, settlements included, keeps each booking sound: refunds claimed only against approved payments, ledger, decision and refunded amount in agreement, payment marked refunded exactly when something was approved |
| FinanceRuns.RunsKeepBooks | backend/src/interfaces/http/controllers/refund.controller.ts:145-202 | so does every run of any steps |
| MoneyTheorems.RefundsAreRecorded | backend/src/interfaces/http/controllers/refund.controller.ts:145-172 | after any run, for a booking no cancellation decided: refunded_amount = approved refunds = REFUND debits, and the payment is marked as refunded, in part or in full, exactly when that is positive |
| RefundCoverage.RefundsStayCovered | backend/src/interfaces/http/controllers/refund.controller.ts:46-70 | for a booking settled only while nothing is claimed on it, whatever happens to others: pending + approved never exceeds what was collected, and fully or partially refunded says truthfully how much was given back |
| RefundCoverage.CoveredThroughoutIff | backend/src/interfaces/http/controllers/refund.controller.ts:46-70 | over any run, refunds pending and approved on a booking stay within what was collected throughout if and only if every settlement of it leaves them covered |
| RefundCoverage.MirroredThroughoutIff | backend/src/interfaces/http/controllers/refund.controller.ts:145-172 | over any run, the payment of a booking no cancellation refunded or kept says truthfully throughout whether all, part or nothing was given back if and only if each settlement made after an approval leaves the collected amount on the same side of the approved total: equal if it was equal, above if it was above |
| RefundCoverage.NeverOverpaidIff | backend/src/application/booking/cancel-booking.usecase.ts:189-214 | over any run, the REFUND debits of a booking never exceed what was collected if and only if no settlement goes below the approved total, no cancellation refunds everything after an approval, and no approval follows such a cancellation |
| RefundCoverage.ApprovalNeverRefused | backend/src/interfaces/http/controllers/refund.controller.ts:137-165 | if settlements of its booking leave claims covered, the approval-time re-check never rejects a pending refund |
| RefundCoverage.SettlementStrandsRefund | backend/src/interfaces/http/controllers/booking.controller.ts:614-652 | a run in which a settlement strands a refund requested before it |
| MoneyTheorems.ApprovalAfterSettlementIff | backend/src/interfaces/http/controllers/booking.controller.ts:614-652 | a settlement made while a refund is pending leaves it approvable exactly when the new amounts still cover it |
| MoneyTheorems.RequestableAmounts | backend/src/interfaces/http/controllers/refund.controller.ts:42-70 | after any run a refund is accepted exactly up to what is left of an approved payment, and never after a first approval |
| MoneyTheorems.CancellationIsFinal | backend/src/application/booking/cancel-booking.usecase.ts:123-126 | a cancellation's decision and the money it was about never change in any later run |
| MoneyTheorems.CancellationIsBookedOnce | backend/src/application/booking/cancel-booking.usecase.ts:182-230 | after any run, without manual refunds: one ledger row for everything collected, or none if nothing was |
| MoneyTheorems.LedgerConserves | backend/src/infrastructure/finance/ledger.service.ts:41-66 | after any run the ledger sums to approved refunds plus all money of cancelled bookings, refunded or kept |
| MoneyTheorems.OverpaidIff | backend/src/application/booking/cancel-booking.usecase.ts:189-214 | after any run a customer has got back more than was collected exactly when a cancellation refunded everything and some refund was approved by hand, or, without such a cancellation, the approved refunds exceed what settlements left as collected |
| MoneyTheorems.RefundThenCancelOverpays | backend/src/application/booking/cancel-booking.usecase.ts:138-165 | any hand-approved refund followed by a timely cancellation pays that refund out twice |
| MoneyTheorems.SettledToNothingOverpays | backend/src/interfaces/http/controllers/booking.controller.ts:614-652 | a run that pays a refund out and then settles the booking to nothing, with no cancellation |
| MoneyTheorems.LedgerOnlyGrows | backend/src/infrastructure/finance/ledger.service.ts:10-12 | whatever happens, ledger rows stay as written and new ones come after them |
| MoneyTheorems.OnlyItsBooking | backend/src/interfaces/http/controllers/refund.controller.ts:42-202 | no step touches another booking's account, refunds or ledger rows |
| MoneyRules.RefundTotalsAreSums | backend/src/interfaces/http/controllers/refund.controller.ts:60-66 | the two totals are the sums of that booking's approved, and of its pending and approved, refunds |
| PaymentEdges.PaymentFollowsEdgesIff | backend/src/domain/booking/booking.state-machine.ts:72-90 | in the books any run leaves, the next write of a payment status is a walk along documented edges except exactly when a cancellation keeps the money, or a refund is approved of a payment already closed: forfeited, or fully refunded with more collected by now than approved |
| PaymentEdges.PaymentFollowsOneEdgeIff | backend/src/domain/booking/booking.state-machine.ts:72-90 | a write that changes the status follows a single edge except exactly in those cases and when a rejected deposit is approved, an online payment pays in full or revives a rejected deposit, or a cancellation refunds a deposit never approved |
| PaymentEdges.LateCancellationLeavesEdges | backend/src/application/booking/cancel-booking.usecase.ts:151-165 | a run reaching the first exception |
| PaymentEdges.LateApprovalLeavesEdges | backend/src/interfaces/http/controllers/refund.controller.ts:145-172 | runs reaching the second after a cancellation |
| PaymentEdges.ReopenedBySettlement | backend/src/interfaces/http/controllers/booking.controller.ts:614-652 | a run reaching the second through settlements, with no cancellation |
| FinanceDesk.Desk.CreateRefundRequest | backend/src/interfaces/http/controllers/refund.controller.ts:23-87 | adds a pending refund exactly for a positive amount, an approved payment, and no more than was received less all pending and approved refunds; each refusal exactly when it applies |
| FinanceDesk.Desk.ApproveOrRejectRefund | backend/src/interfaces/http/controllers/refund.controller.ts:104-209 | approves a pending refund exactly if what was received less what was approved covers it, then writes refund, payment and ledger row together; rejection writes the refund only; a refusal writes nothing |
| FinanceDesk.Desk.CancelBookingFor | backend/src/application/booking/cancel-booking.usecase.ts:93-230 | staff or the owner, any status but the final ones; with money received, staff saying refund, or nobody saying forfeit up to the deadline, gives all of it back with one REFUND row, otherwise keeps it with one FORFEIT_INCOME row; with none received neither |
| FinanceDesk.Desk.SettlePayment | backend/src/interfaces/http/controllers/booking.controller.ts:603-661 | replaces exactly the amounts and methods given, for any booking that is not closed; the summary is NOT_PAID exactly at nothing paid and FULLY_PAID exactly when a positive price after discount is reached |
| FinanceDesk.Desk.VerifyDepositOf | backend/src/application/booking/verify-deposit.usecase.ts:52-139 | exactly from pending verification: approval confirms booking and payment, rejection marks the payment and leaves the booking |
| FinanceDesk.Desk.UploadReceiptOf | backend/src/application/booking/upload-receipt.usecase.ts:88-150 | brings the customer's own unpaid booking up for verification and a rejected deposit back to pending |
| FinanceDesk.Desk.DeleteBookingOf | backend/src/application/booking/delete-booking.usecase.ts:41-84 | never deletes a booking with a refund record, and otherwise marks it deleted and cancelled |
| Webhook.DuplicatesChangeNothing | backend/src/interfaces/http/controllers/payment-webhook.controller.ts:157-167 | any run ends in the same state as the run without deliveries of events already committed |
| Webhook.EachEventCommitsOnce | backend/src/interfaces/http/controllers/payment-webhook.controller.ts:301-309 | each event takes effect at most once, and is used up exactly if it did |
| Webhook.EffectIffTargetFound | backend/src/interfaces/http/controllers/payment-webhook.controller.ts:173-182 | a new event takes effect, once, if and only if some delivery of it finds its target; rolled-back ones do not count |
| Webhook.RedeliveryIsHarmless | backend/src/interfaces/http/controllers/payment-webhook.controller.ts:165-167 | a used-up event redelivered anywhere later leaves the final state as it was |
| Webhook.ConfirmsIffDepositCovered | backend/src/interfaces/http/controllers/payment-webhook.controller.ts:185-262 | a delivery confirms exactly a pending booking whose stored deposit it covers |
| OnlineDeposits.LastPaymentIsOnFile | backend/src/interfaces/http/controllers/payment-webhook.controller.ts:195-245 | after any run of deliveries and desk work, the deposit on file is the amount of the last delivery that took effect, unless the desk settled it later |
| OnlineDeposits.OtherDeliveriesAddNothing | backend/src/interfaces/http/controllers/payment-webhook.controller.ts:157-190 | deliveries that are repeated, unknown, late or too small put nothing on file |
| Webhook.SerialRunsNeverOverpay | backend/src/interfaces/http/controllers/payment-webhook.controller.ts:324-355 | with online payments and one-at-a-time staff payments no team pays more than its fee |
| Webhook.OverpaymentIffQuoteStale | backend/src/interfaces/http/controllers/tournament.controller.ts:318-333 | a staff payment overpays exactly when the amount it settled on no longer fits |
| Webhook.NeverOverpaidIff | backend/src/interfaces/http/controllers/tournament.controller.ts:318-333 | over any run no team is ever overpaid if and only if every staff write meets a quote that still fits |
| FeeRaces.NeverOverpaidIffRoomLeft | backend/src/interfaces/http/controllers/tournament.controller.ts:318-333 | over any run no team is ever overpaid if and only if, between the read and the write of each staff payment, its team is credited no more than that payment left over |
| Webhook.TwoStaffOverpay | backend/src/interfaces/http/controllers/tournament.controller.ts:308-333 | two staff members reading before either writes charge the fee twice |
| WebhookDesk.Desk.ProcessBookingPayment | backend/src/interfaces/http/controllers/payment-webhook.controller.ts:153-288 | each outcome exactly when it applies; below the deposit the received amount is put on file for verification, at or above it the booking is confirmed with that amount and paid in full exactly if it reaches the price after discount; an unknown booking does not use the event up |
| WebhookDesk.Desk.ProcessTournamentFeePayment | backend/src/interfaces/http/controllers/payment-webhook.controller.ts:296-368 | credits exactly the remaining fee exactly when the amount covers it, and nothing otherwise |
| WebhookDesk.Desk.QuoteTeamPayment | backend/src/interfaces/http/controllers/tournament.controller.ts:308-323 | the read half: the amount asked for, at most what is left |
| WebhookDesk.Desk.WriteTeamPayment | backend/src/interfaces/http/controllers/tournament.controller.ts:326-333 | the write half: that amount is added, whatever was paid meanwhile |
| CanonicalPayload.HugeTimestampsCollide | backend/src/interfaces/http/controllers/payment-webhook.controller.ts:70-76 | without the replay window two payloads with huge timestamps can share a signed string |
| CanonicalPayload.PaymentSpelledOut | backend/src/interfaces/http/controllers/payment-webhook.controller.ts:92-94 | the signed string of a booking payment, in full |
| CanonicalPayload.FeeSpelledOut | backend/src/interfaces/http/controllers/payment-webhook.controller.ts:95 | and of a tournament fee |
| CanonicalPayload.CanonicalIsInjective | backend/src/interfaces/http/controllers/payment-webhook.controller.ts:89-96 | equal signed strings come from equal payloads with a timestamp in the replay window, although event ids and amounts may contain dots |
| RefreshTokens.NextKeepsInv | backend/src/interfaces/http/controllers/auth.controller.ts:578-616 | every statement-level step keeps: replaced tokens revoked, rotated once, row locks exclusive |
| RefreshTokens.OneLiveTokenPerLogin | backend/src/interfaces/http/controllers/auth.controller.ts:600-613 | under any interleaving each login lineage has at most one unrevoked token and no token rotates twice |
| RefreshTokens.RevocationReachesAllSeen | backend/src/interfaces/http/controllers/auth.controller.ts:589-597 | a mass revocation revokes every token its user had when it read them |
| RefreshTokens.NobodySurvivesIff | backend/src/interfaces/http/controllers/auth.controller.ts:578-597 | presenting a revoked token in any reachable state: however everything under way goes on, no token of the user survives the revocation if and only if no rotation of the user is under way at that moment |
| RefreshTokens.ReuseRevokesEverything | backend/src/interfaces/http/controllers/auth.controller.ts:565-597 | served without interruption, a revoked token leaves its user no unrevoked token, and others untouched |
| RefreshTokens.RotationUnderWayEscapes | backend/src/interfaces/http/controllers/auth.controller.ts:578-597 | a run in which a rotation already under way survives the revocation |
| Sessions.Store.Login | backend/src/interfaces/http/controllers/auth.controller.ts:514-522 | adds one unrevoked token of a new lineage, good for seven days |
| Sessions.Store.RevokeAllOf | backend/src/interfaces/http/controllers/auth.controller.ts:592-595 | revokes every unrevoked token of the user, in place, and no other, and returns their number |
| Sessions.Store.Refresh | backend/src/interfaces/http/controllers/auth.controller.ts:578-616 | rotates exactly valid tokens into one good for seven days, commits the revocation of all the user's tokens on reuse, changes nothing otherwise |
| Sessions.Store.Logout | backend/src/interfaces/http/controllers/auth.controller.ts:649-655 | revokes the presented token only |
| RefreshQueue.SingleFlight | frontend/src/lib/api.ts:36-110 | at most one refresh in flight; without one nobody waits; waiters are released in arrival order, each once; nothing is sent more than twice |
| RefreshQueue.SettledOnce | frontend/src/lib/api.ts:39-45 | a finished request is never touched again |
| RefreshQueue.FinalIffNotRefreshable | frontend/src/lib/api.ts:61-68 | an error is final exactly for a status other than 401, a second failure, or an auth endpoint |
| ApiClient.Interceptor.OnError | frontend/src/lib/api.ts:56-82 | a first 401 of an ordinary request joins the queue or starts the refresh, by the flag; any other error is final |
| ApiClient.Interceptor.ProcessQueue | frontend/src/lib/api.ts:39-45 | sends each waiter once more or rejects it, in order, touches no other request, and empties the queue |
| ApiClient.Interceptor.OnRefreshEnd | frontend/src/lib/api.ts:91-109 | every waiting request, the starter included, is sent once more after a success and rejected after a failure; the flag is cleared |

## Left out

- CourtDesk.Desk.CreateBooking: prices, the required deposit and the payment row of a new booking are not computed; whether staff collected enough and the payment deadline are parameters of the request, and the payment starts as Finance.Fresh allows.
- CourtDesk.Desk.CreateSubscription: that the caller is staff and the customer belongs to the club is checked before, and the payment rows are not part of the schedule's tables.
- CourtDesk.Desk.CancelBookingAt: the money side of the same use case is FinanceDesk.Desk.CancelBookingFor; how long a hold lasts and its token are parameters.
- CourtDesk.Desk.UploadReceiptFor: the stored receipt file and row are not modelled, and every booking is taken to have its payment row.
- CourtDesk.Desk.ApproveDepositOf: every booking is taken to have its payment row, so the refusal of one without is not modelled.
- FinanceDesk.Desk.UploadReceiptOf: the stored receipt file and row are not modelled, and every booking is taken to have its payment row.
- FinanceDesk.Desk.VerifyDepositOf: likewise, the refusal of a booking without a payment row is not modelled.
- CourtDesk.Desk.DeleteBooking: whether refund records exist is a parameter here; FinanceDesk.Desk.DeleteBookingOf looks them up.
- The database's own exclusion constraint on bookings: disjointness is proved from the locks and checks alone.
- Implicit row locks taken by foreign keys, and the scan order of a club-wide block's court locks, which is taken to be the same for all transactions.
- Courts created, deleted or moved between clubs during a run; lowering an item's stock; editing or reactivating rows by hand.
- Recurring blocks, court maintenance status beyond available or not, and the waitlist's uniqueness rule (duplicate entries are allowed here, so results cover them).
- The skip-locked choice of waitlist entry: any matching entry may be offered in the interleaved machine, the earliest in the one-at-a-time method.
- Daylight saving: the offset is constant.
- Training sessions, which the slot check does not consult.
- Refund and cancellation races below the transaction: each locks the booking row first, so each is one step.
- NoDoubleBooking: for runs whose blocks each lock a court row; BlocksAreSafeIffTheyLock shows that condition to be exact.
- HoldsAreRespected: for a claim that has not expired at commit; EarliestHoldAtCommit gives the exact general statement.
- AssertWithinWorkingHours: exact for slots of up to 24 hours; accepted durations end at 12.
- RefundsStayCovered: for a booking settled only while nothing is claimed on it; CoveredThroughoutIff and MirroredThroughoutIff give the exact conditions over all runs.
- SerialRunsNeverOverpay: assumes each staff payment is written before anything else happens; NeverOverpaidIffRoomLeft gives the exact general condition.
- OverlapsAreSafeIff: a recording whose request dies between two statements is not modelled.
- Rounding of amounts, discounts beyond the final price, and the tournament-fee report.
- Token expiry of access tokens, the revocation list kept in Redis, cookies, signatures, hashing and encryption.
- Pages, e-mail, WhatsApp, spreadsheets, audit rows, analytics, roles and tenant checks.
- Page navigation and local-storage cleanup after a failed refresh.
