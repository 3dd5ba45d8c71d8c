# Verified models of the companion-booking services

A Dafny model of the parts of this microservice platform where a mistake costs money or
loses an event, with proofs about every run of those parts. Nothing here replaces the
services: each module states what the code does, and the lemmas say what follows.

* **Event stream client** (`EventLines`, `EventMessages`). The browser client splits an
  arbitrary chunking of a byte stream into lines and folds lines into messages. The chunked
  reader, with its buffer, position and carriage-return bit, is proved to report exactly the
  lines of a one-pass splitter, and the grammar of section 9.2.5 of the WHATWG HTML Standard
  round-trips through it.
* **Coin ledger** (`Commission`, `Ledger`, `LedgerEffects`, `LedgerLaws`, `Cancellation`,
  `FinanceService`). Wallets, escrows and the transaction table under every sequence of
  commands: whose coins each command moves and when, conservation of coins, an audit log that
  explains balances, one settlement per booking, and cancellations that pay once.
* **Booking saga** (`Booking`, `BookingRaces`, `BookingNews`, `BookingRuns`, `BookingPaths`,
  `BookingService`, `Outbox`). Two models: handlers that hold stale snapshots and commit under
  a version column, for properties of one booking; and serial transactions, for properties
  across bookings, for where each handler leads and for exactly-once effect. Every serial run
  is proved to be an interleaving. The leased outbox is a third state machine.
* **Disputes** (`DisputeSagas`, `Disputes`, `DisputeLaws`, `DisputeNews`). Recursive
  orchestrators over ports that succeed, fail or throw, a retry worker, and the admin commands
  that start them: at most one call for the money of a booking, ever, and events and notices
  that tell exactly what happened.
* **Identity** (`TokenFamilies`, `AccountCache`). Refresh-token families with rotation and
  reuse detection (section 4.14.2 of RFC 9700), and a three-key cache in front of a
  versioned table.
* **Two services together** (`EndToEnd`). What any run of the booking service wrote about a
  booking's cancellation and refund has, in whatever order and however often it is delivered,
  the effect of the first message the finance listener heeds: the price to one wallet, once.

Stateful code is modelled twice. A function on values (`Apply`, `Next`, `Serve`, `Process`,
`Cached`, ...) is the specification that the laws are proved about; a class with the
source's fields and methods is proved to compute it. Ids that a database or a random source
draws, answers of unordered queries, clocks, signatures and outcomes of calls to other
services are arguments, so every law holds for all of them. `Prelude` has options and sums
over maps.

What the proofs found, stated as lemmas:

* A line ended by a lone CR and followed by an empty line ended by LF reads as one CR LF, so
  an event is not dispatched: a stream gives its messages exactly when no line break is of
  that kind, and fewer otherwise (`RoundTrip`).
* The overlap query does not leave out the booking it is asked for: on every run a second
  chat-room event cancels an accepted booking and asks for a refund (`NextChatRoomCancels`,
  a run in `SecondChatRoomRun`, exact condition in `ChatRoomAcceptsIff`).
* When that happens within a day of the start, the cancellation is late and by the system,
  which the finance listener ignores (`SystemCancelsLate`); the client is paid if and only if
  a refund command is delivered (`SystemCancellationPaysIff`), and one was always written
  with it (`AllDeliveredPays`).
* Cancelling a booking whose escrow has 0 coins pays the amount of the reservation row
  (a run in `ZeroEscrowCounterexample`, exact condition in `FirstPaysIff`).
* A freeze logged under another type, or a transfer without its reservation row, makes the
  transaction table disagree with the balance (a run in `PenaltyDisagrees`, exact condition
  in `AuditAgreesIff`).
* While every row is in one batch, a row in flight can be fetched again if and only if its
  batch outlived its lease (`SharedIffLate`, `ExclusiveStepIff`). After that, the late batch
  can make a punctual one share its rows too, because releasing a row does not ask whose
  lease it drops (`LateReleaseSpreads`).
* A dispute is recorded as refunded before finance is asked, and stays so when finance fails
  (a run in `RefundedWithoutRefund`): its money moved if and only if the finance call of the
  deciding command succeeded (`VerdictIsTrueIff`).
* The documentation asks for one open dispute per booking; the unique column allows one at all
  (`CreateReport`, `SoundRun`).
* Two refresh requests that validate a token before either rotates it leave two live tokens
  in one family (`RacingRefreshes`, exact condition in `RotateIsSafeIff`).
* The repository's interface allows an update that changes an account's email, and that
  leaves the old email in the cache (`StaleAnswer`, exact condition in `UpdateIsCoherentIff`).
  No caller does this today: the aggregate has no way to set its email, which is what
  `CacheIsInvisible` relies on.

## Model

| member | source | states |
|---|---|---|
| EventLines.LineReader.OnChunk | services/notification-service/resources/static/lib/fetch-event-source/bundle.js:29-88 | after every chunk the callbacks made so far are the finished lines of all bytes received so far, and the buffer is their unfinished line |
| EventLines.EmitLines | services/notification-service/resources/static/lib/fetch-event-source/bundle.js:47-86 | the outer loop reports every finished line of the buffer and carries on position, first colon and the CR bit of the rest |
| EventLines.FindBreak | services/notification-service/resources/static/lib/fetch-event-source/bundle.js:56-70 | the inner loop stops at the next line break or the end, with the first colon of the line |
| EventLines.ReadLines | services/notification-service/resources/static/lib/fetch-event-source/bundle.js:29-88 | chunk independence: for every split of a stream, empty chunks and CR / LF splits included, the lines are those of a one-pass splitter |
| EventLines.FirstColonIsFirst | services/notification-service/resources/static/lib/fetch-event-source/bundle.js:58-62 | the reported field length is the index of the first colon, and -1 exactly when there is none |
| EventLines.LinesGrow | services/notification-service/resources/static/lib/fetch-event-source/bundle.js:29-88 | a reported line is never taken back or changed by later bytes |
| EventLines.ScanIsLines | services/notification-service/resources/static/lib/fetch-event-source/bundle.js:29-88 | a byte-at-a-time scanner with a CR bit finds the lines and the unfinished line of the one-pass splitter |
| EventMessages.MessageReader.OnLine | services/notification-service/resources/static/lib/fetch-event-source/bundle.js:94-122 | one line dispatches the message, sets a field, tells the client an id or a retry time, or is ignored; `StreamMakesCalls` says which calls a stream makes |
| EventMessages.Receive | services/notification-service/resources/static/lib/fetch-event-source/bundle.js:29-123 | reader and message fold together make the calls that the lines of the whole stream mean, ids and retry times included |
| EventMessages.LinesRoundTrip | services/notification-service/resources/static/lib/fetch-event-source/bundle.js:29-88 | written lines are read back if the line breaks are unambiguous, and at least one line is lost otherwise |
| EventMessages.FirstWritten | services/notification-service/resources/static/lib/fetch-event-source/bundle.js:47-86 | reading one written line consumes one more exactly when that one is an empty LF line after a lone CR |
| EventMessages.ItemIsRead | services/notification-service/resources/static/lib/fetch-event-source/bundle.js:99-121 | comments and names without a colon are ignored, a field is split at its first colon and loses one leading space |
| EventMessages.EventIsRead | services/notification-service/resources/static/lib/fetch-event-source/bundle.js:94-122 | inside an event the open message is what the fields so far mean: data joined after dropping leading empty values, the last event and id, the last numeric retry |
| EventMessages.StreamIsRead | services/notification-service/resources/static/lib/fetch-event-source/bundle.js:90-123 | a list of events gives one message per blank line, each with its own event's meaning |
| EventMessages.EventMakesCalls | services/notification-service/resources/static/lib/fetch-event-source/bundle.js:94-122 | an event's lines make one call per id and per numeric retry time, in order, and no other |
| EventMessages.StreamMakesCalls | services/notification-service/resources/static/lib/fetch-event-source/bundle.js:90-123 | a stream makes exactly those calls and one message call at the end of each event |
| EventMessages.MessagePerBlank | services/notification-service/resources/static/lib/fetch-event-source/bundle.js:95-98 | one message per blank line, whatever the other lines are |
| EventMessages.BlanksLost | services/notification-service/resources/static/lib/fetch-event-source/bundle.js:47-86 | ambiguous line breaks lose blank lines, others lose none |
| EventMessages.RoundTrip | services/notification-service/resources/static/lib/fetch-event-source/bundle.js:29-134 | events received in any chunking give exactly their meanings if and only if their line breaks are unambiguous, and then exactly their ids, retry times and messages as calls, in order; fewer messages than events otherwise |
| Commission.RoundIsNearest | services/finance-service/internal/domain/aggregate/escrow.py:61 | no integer is nearer to the exact share than the rounded one |
| Commission.CommissionBounds | services/finance-service/internal/domain/aggregate/escrow.py:60-62 | for a rate in [0, 1] the commission is between 0 and the amount, within a half of the exact share, and with the net amount makes up the amount |
| Commission.ZeroRatePaysAll | services/finance-service/main.py:431-435 | a payout at rate 0 pays the whole escrow |
| Commission.NetIsNegativeIff | services/finance-service/internal/domain/vo.py:19-34 | a payout is refused for a negative amount exactly when the exact share exceeds the amount by more than a half, or by a half with an odd amount |
| LedgerLaws.Conservation | services/finance-service/internal/application/command/finance.py:64-464 | in every reachable state all available, frozen and HELD coins and the commissions taken equal the confirmed top-ups and the excess of refunds over their escrows |
| LedgerLaws.NoExcess | services/finance-service/internal/application/command/finance.py:291-335 | the excess is zero when refunds use the amounts of their escrows |
| LedgerLaws.ExactConservation | services/finance-service/internal/application/command/finance.py:64-464 | with exact refunds coins enter only by confirmed top-ups and leave only as commission |
| LedgerLaws.ConservedStep | services/finance-service/internal/application/command/finance.py:64-464 | every command, failed ones included, keeps the conservation law |
| LedgerLaws.OneSettlementPerBooking | services/finance-service/internal/application/command/finance.py:194-316 | over every run a booking has at most one escrow, and payouts and refunds of it together number at most one, exactly one once it is no longer HELD |
| LedgerLaws.EscrowsRun | services/finance-service/internal/domain/aggregate/escrow.py:53-90 | no run removes an escrow, changes its amount or moves it out of a final status |
| LedgerLaws.AuditLog | services/finance-service/internal/application/command/finance.py:64-464 | every available balance equals top-ups, releases and refunds minus reservations in the transaction table, plus the drift that the run itself shows |
| LedgerLaws.AuditAgrees | services/finance-service/internal/application/command/finance.py:64-464 | with freezes logged as reservations and every transfer finding its reservation, balance and table always agree |
| LedgerLaws.AuditAgreesIff | services/finance-service/internal/application/command/finance.py:81-225 | a command keeps them in agreement if and only if it is no freeze of available coins under another type and no transfer of frozen coins to a first escrow without its reservation row |
| LedgerLaws.PenaltyDisagrees | services/finance-service/internal/application/command/finance.py:64-93 | a run from the empty ledger that ends with a balance of 0 and a log of 5 |
| LedgerLaws.OrderIsFinal | services/finance-service/internal/application/command/finance.py:421-464 | a decided top-up order never changes again |
| LedgerLaws.TopupOnce | services/finance-service/internal/application/command/finance.py:421-464 | after the first accepted notification of an order, every later one changes nothing, in every later state |
| LedgerEffects.FreezeMeans | services/finance-service/internal/application/command/finance.py:64-120 | succeeds exactly for an available amount, which moves to frozen of that user alone, logged as pending and announced; otherwise nothing changes and the failure is announced |
| LedgerEffects.UnfreezeMeans | services/finance-service/internal/application/command/finance.py:122-179 | succeeds exactly for a frozen amount, which moves back, logged as a refund and announced; otherwise nothing changes and the failure is announced |
| LedgerEffects.TransferMeans | services/finance-service/internal/application/command/finance.py:181-251 | succeeds exactly for a frozen amount and a booking that never had an escrow; the coins leave the wallet for a HELD escrow and the reservation is confirmed; otherwise nothing changes and the failure is announced |
| LedgerEffects.PayoutMeans | services/finance-service/internal/application/command/finance.py:253-289 | succeeds exactly for a HELD escrow that its commission does not exceed; the companion alone gets what the commission leaves |
| LedgerEffects.CommissionIsShare | services/finance-service/internal/domain/aggregate/escrow.py:60-62 | for any rate the commission is the share of the amount to within half a coin |
| LedgerEffects.RefundMeans | services/finance-service/internal/application/command/finance.py:291-377 | succeeds exactly for a HELD escrow and an amount that is not negative; pays the client named or else the user of the reservation, the amount named if positive or else that of the reservation |
| LedgerEffects.IpnMeans | services/finance-service/internal/application/command/finance.py:406-464 | credits the order's user with the order's amount exactly if signed, pending, paid and priced at 100 times 1000 for each coin; an order is decided only by such a notification |
| LedgerEffects.TopupMeans | services/finance-service/internal/application/command/finance.py:379-464 | from order to payment, the one who ordered gets what was ordered |
| LedgerEffects.OpenMeans | services/finance-service/internal/application/command/finance.py:52-62 | a new user has a wallet and nobody's coins change |
| LedgerEffects.ConfirmedRun | services/finance-service/internal/application/command/finance.py:206-225 | in every reachable state a booking with an escrow has a reservation that says SUCCESS |
| Cancellation.CancelledOnce | services/finance-service/main.py:227-457 | from a HELD escrow with nothing settled, any interleaving of one cancellation event, repeated, with refund commands for its amount changes nothing until a delivery is heeded and has the effect of that one alone; it pays that amount to one wallet unless a reservation overrides a zero escrow |
| Cancellation.SettledStaysQuiet | services/finance-service/main.py:315-396 | once settled, further deliveries change no wallet, escrow or transaction |
| Cancellation.FirstPaysIff | services/finance-service/internal/application/command/finance.py:291-335 | a delivery pays exactly the escrow's amount if and only if the listener heeds it and the amount is positive, goes to the companion, or no other amount is reserved |
| Cancellation.FirstSettles | services/finance-service/main.py:297-457 | the first heeded delivery settles the escrow where later deliveries look for it |
| Cancellation.ReservedOnce | services/finance-service/main.py:311-425 | without a HELD escrow and with nothing settled, any interleaving of the cancellation event, repeated, with refund commands gives the reserved amount back from frozen with the first delivery that can, logs it, and changes no table before or after; if none can, no table changes |
| Cancellation.ThawsIff | services/finance-service/main.py:333-346 | one delivery gives the reserved coins back if and only if the event is early or late by the companion, a reservation is found and that much is frozen |
| Cancellation.UnheededIsQuiet | services/finance-service/main.py:237-453 | a message with something missing, and a late cancellation by neither client nor companion, changes nothing |
| Cancellation.ZeroEscrowCounterexample | services/finance-service/internal/application/command/finance.py:298-316 | a run from the empty ledger after which a cancellation pays 5 out of an escrow of 0 |
| FinanceService.WalletAggregate.FreezeCoin | services/finance-service/internal/domain/aggregate/wallet.py:47-66 | moves coins from available to frozen and collects the event, refused if there are too few |
| FinanceService.WalletAggregate.UnfreezeCoin | services/finance-service/internal/domain/aggregate/wallet.py:68-87 | moves coins back and collects the event, refused if too few are frozen |
| FinanceService.WalletAggregate.DeductFrozen | services/finance-service/internal/domain/aggregate/wallet.py:89-99 | takes frozen coins out of the wallet, leaving available ones alone |
| FinanceService.WalletAggregate.Topup | services/finance-service/internal/domain/aggregate/wallet.py:101-113 | adds available coins and collects the event |
| FinanceService.WalletAggregate.Deposit | services/finance-service/internal/domain/aggregate/wallet.py:115-119 | adds available coins, without an event |
| FinanceService.EscrowAggregate.PayOut | services/finance-service/internal/domain/aggregate/escrow.py:53-74 | only a HELD escrow is paid out; commission and net amount make up its amount, and the event says so |
| FinanceService.EscrowAggregate.Refund | services/finance-service/internal/domain/aggregate/escrow.py:76-90 | only a HELD escrow is refunded; the event names client and amount |
| FinanceService.FinanceCommandService.Onboard | services/finance-service/internal/application/command/finance.py:52-62 | a user gets an empty wallet; an existing wallet keeps its coins |
| FinanceService.FinanceCommandService.Freeze | services/finance-service/internal/application/command/finance.py:64-120 | succeeds exactly for a non-negative amount that is available; otherwise the tables are as before and a failure event is published |
| FinanceService.FinanceCommandService.Unfreeze | services/finance-service/internal/application/command/finance.py:122-179 | succeeds exactly for a wallet with enough frozen coins; otherwise the tables are as before and a failure event is published |
| FinanceService.FinanceCommandService.Transfer | services/finance-service/internal/application/command/finance.py:181-251 | succeeds exactly if enough is frozen and the booking never had an escrow: a second one is refused by the HELD check or the unique column |
| FinanceService.FinanceCommandService.Payout | services/finance-service/internal/application/command/finance.py:253-289 | succeeds exactly for a HELD escrow with a net amount that is not negative; the companion gets the net amount |
| FinanceService.FinanceCommandService.Refund | services/finance-service/internal/application/command/finance.py:291-377 | succeeds exactly for a HELD escrow and a non-negative amount, with client and amount taken from the reservation row when missing |
| FinanceService.FinanceCommandService.StartTopup | services/finance-service/internal/application/command/finance.py:379-404 | a pending order that refers to itself, for any non-negative amount; no coins yet |
| FinanceService.FinanceCommandService.Ipn | services/finance-service/internal/application/command/finance.py:406-464 | coins are credited exactly on a signed, pending order with the right amount and a paid response; the reply tells the first check that failed, an amount that does not parse raises |
| FinanceService.FinanceCommandService.OnRefundCommand | services/finance-service/main.py:227-262 | a refund command with booking, client and amount refunds; one that lacks any of them changes nothing |
| FinanceService.FinanceCommandService.OnCancelled | services/finance-service/main.py:297-457 | the listener's two cancellation branches: refund or pay out a HELD escrow, otherwise give reserved coins back, once |
| Booking.OpRaisesRank | services/booking-service/internal/domain/vo/booking_status.go:18-45 | every aggregate method keeps the booking's identity and raises the rank of its status, except CANCELLED to CANCELLED |
| Booking.WriteFollows | services/booking-service/internal/application/command/saga_coordinator.go:48-359 | every handler's write follows from the row it read by one aggregate method and the next version |
| Booking.EdgesIff | services/booking-service/internal/domain/vo/booking_status.go:18-45 | the aggregate's methods realise exactly the edges of the status graph |
| Booking.OwnersAct | services/booking-service/internal/domain/aggregate/booking.go:106-218 | accepting and rejecting are the companion's, completing is the client's, each from one status to one status |
| Booking.LateIff | services/booking-service/internal/domain/vo/time_range.go:56-58 | a cancellation is late exactly if the booking was accepted and starts less than 24 hours from now; row and event name who cancelled |
| Booking.BookingAggregate.Accept | services/booking-service/internal/domain/aggregate/booking.go:106-125 | only the booking's companion, only from PENDING; an error changes neither state nor events |
| Booking.BookingAggregate.Reject | services/booking-service/internal/domain/aggregate/booking.go:128-149 | only the booking's companion, only from PENDING; an error changes neither state nor events |
| Booking.BookingAggregate.Cancel | services/booking-service/internal/domain/aggregate/booking.go:153-194 | a pending booking is never cancelled late; an accepted one is within 24 hours of its start |
| Booking.BookingAggregate.Complete | services/booking-service/internal/domain/aggregate/booking.go:197-218 | only the booking's client, only from ACCEPTED; the event carries the price |
| Booking.BookingAggregate.SystemComplete | services/booking-service/internal/domain/aggregate/booking.go:221-239 | only from ACCEPTED; the event carries the price |
| Booking.BookingAggregate.SystemTimeout | services/booking-service/internal/domain/aggregate/booking.go:242-258 | PENDING becomes REJECTED with a timeout event; an error changes nothing |
| Booking.BookingAggregate.Dispute | services/booking-service/internal/domain/aggregate/booking.go:261-270 | only from ACCEPTED, without an event |
| Booking.BookingAggregate.Resolve | services/booking-service/internal/domain/aggregate/booking.go:273-282 | only from DISPUTED, without an event |
| Booking.BookingAggregate.FailTechnical | services/booking-service/internal/domain/aggregate/booking.go:285-290 | cancels from any status, without an event |
| Booking.BookingAggregate.ConfirmReserved | services/booking-service/internal/domain/aggregate/booking.go:293-309 | only from PENDING_RESERVING, with the reserved event |
| Booking.BookingAggregate.CancelReserving | services/booking-service/internal/domain/aggregate/booking.go:312-321 | only from PENDING_RESERVING, cancelled by the system, never late, without an event |
| BookingRaces.LegalHistories | services/booking-service/internal/infrastructure/persistence/booking_repo_impl.go:85-109 | under every interleaving of stale snapshots committed versions are consecutive, each row follows the last by one aggregate method, the rank rises, and the status changes at most five times |
| BookingRaces.GuardIsFresh | services/booking-service/internal/infrastructure/persistence/booking_repo_impl.go:85-109 | a write that passes the version check was computed from the stored row |
| BookingRaces.SagasStayCoupled | services/booking-service/internal/application/command/saga_coordinator.go:85-290 | in any event order and with any number of accepts, a COMPLETED saga's booking is past acceptance and a failed saga's booking is CANCELLED |
| BookingRaces.RacesAreSafe | services/booking-service/internal/application/command/reject_booking.go:50-69 | reject and timeout together release a booking's coins at most once, exactly once if it is REJECTED, never if it was ACCEPTED, and at most one cancellation event is written |
| BookingRaces.HandlersAreSound | services/booking-service/internal/application/command/system_reject_booking.go:46-65 | what every handler writes about booking, saga and outbox fits together |
| BookingRaces.InvRun | services/booking-service/internal/application/command/saga_coordinator.go:48-373 | histories, snapshots, sagas and outbox stay consistent over every run |
| BookingNews.OutboxTellsHistory | services/booking-service/internal/infrastructure/persistence/booking_repo_impl.go:85-130 | over every interleaving the events in the outbox are those of the request and of each committed change of the booking, in order, and no others |
| BookingNews.OrdersNameRun | services/booking-service/internal/application/command/saga_coordinator.go:60-328 | over every interleaving every transfer, refund and release names the client and the price of its booking |
| BookingNews.SagasExplainedRun | services/booking-service/internal/application/command/saga_coordinator.go:48-225 | over every interleaving a saga that waits for escrow, chat room or refund has had it asked for, and a completed one has had the acceptance announced |
| BookingNews.SerialRunsAreRaces | services/booking-service/internal/application/command/saga_coordinator.go:362-373 | every serial run of the service is an interleaving with the same bookings, sagas and outbox |
| BookingRuns.LatestSaga | services/booking-service/internal/infrastructure/persistence/booking_saga_repo_impl.go:46-53 | the newest saga of the booking, or none if there is none |
| BookingRuns.SqlTestIsIntersection | services/booking-service/internal/infrastructure/persistence/booking_repo_impl.go:216-245 | the SQL overlap test is exactly intersection of half-open intervals |
| BookingRuns.CompanionQueryIff | services/booking-service/internal/infrastructure/persistence/booking_repo_impl.go:216-245 | the overlap query for a companion answers exactly whether an accepted booking of that companion shares a moment with the range |
| BookingRuns.ClientQueryIff | services/booking-service/internal/infrastructure/persistence/booking_repo_impl.go:216-245 | the overlap query for a client answers exactly whether a pending or accepted booking of that client does |
| BookingRuns.AcceptStartsIff | services/booking-service/internal/application/command/accept_booking.go:50-136 | an accept opens a saga and asks for the transfer of the price exactly for the booking's companion, a pending booking and a companion who is not busy then |
| BookingRuns.RequestIff | services/booking-service/internal/application/command/request_booking.go:44-109 | a booking can be requested exactly with fewer than ten pending ones of the companion, a duration, neither party busy then, and two hours ahead; what is stored and announced |
| BookingRuns.AcceptNeedsFreeCompanion | services/booking-service/internal/application/command/saga_coordinator.go:135-187 | only a chat-room event accepts a booking, and only if the overlap query found nothing |
| BookingRuns.NeverDoubleBooked | services/booking-service/internal/application/command/saga_coordinator.go:135-187 | in every reachable state two accepted bookings of one companion have disjoint time ranges |
| BookingRuns.SecondChatRoomCancels | services/booking-service/internal/application/command/saga_coordinator.go:135-174 | a second chat-room event cancels an accepted booking and asks for a refund, since the query finds the booking itself |
| BookingRuns.ChatRoomAcceptsIff | services/booking-service/internal/application/command/saga_coordinator.go:116-188 | a chat-room event leaves a booking accepted if and only if it was pending and no accepted booking of the companion shares a moment with it, and reverts it with a refund if and only if one does |
| BookingRuns.AcceptedHasSagaRun | services/booking-service/internal/application/command/saga_coordinator.go:116-188 | in every reachable state an accepted booking has a saga |
| BookingRuns.NextChatRoomCancels | services/booking-service/internal/application/command/saga_coordinator.go:135-174 | on every run a chat-room event with a new id reverts every accepted booking |
| BookingRuns.SecondChatRoomRun | services/booking-service/internal/application/command/saga_coordinator.go:135-174 | a run from the empty tables on which that happens |
| BookingRuns.RecordedIff | services/booking-service/internal/infrastructure/persistence/processed_event.go:24-48 | an event id is recorded exactly if some delivery of it succeeded in the state it arrived in |
| BookingRuns.AtMostOnce | services/booking-service/internal/infrastructure/persistence/processed_event.go:24-48 | after a successful delivery, every further delivery of the same id leaves everything as it is |
| BookingRuns.ExactlyOnce | services/booking-service/internal/infrastructure/persistence/processed_event.go:24-48 | after every sequence of deliveries with repeats, failures and retries the tables are a fold, without any record of ids, over the successful commands and the first successful delivery of each id |
| BookingPaths.ReservePath | services/booking-service/internal/application/command/saga_coordinator.go:294-359 | a reserving booking becomes pending with its event, or is cancelled silently |
| BookingPaths.LateFreeze | services/booking-service/internal/application/command/saga_coordinator.go:307-328 | coins frozen for a closed booking go back to its client; for any other the event changes nothing |
| BookingPaths.ReleasePath | services/booking-service/internal/application/command/reject_booking.go:35-75 | exactly the companion or the clock rejects exactly a pending booking, with the event and the release of the price to its client |
| BookingPaths.CancelPath | services/booking-service/internal/application/command/cancel_booking.go:29-75 | exactly the booking's own client or companion cancels it, pending or accepted, with one event that tells who and whether late |
| BookingPaths.CompletePath | services/booking-service/internal/application/command/complete_booking.go:29-91 | exactly the client or the clock completes exactly an accepted booking, with the price announced |
| BookingPaths.DisputePath | services/booking-service/internal/application/command/dispute_booking.go:28-48 | an accepted booking can be disputed and a disputed one resolved, silently |
| BookingPaths.AcceptSagaPaths | services/booking-service/internal/application/command/saga_coordinator.go:48-290 | from every pending booking with a free companion, every answer of the other services leads to an accepted booking with a completed saga, or to a cancelled one with a failed saga and, once coins were in escrow, their refund asked for; all that is written on the way |
| BookingPaths.OnlyKnown | services/booking-service/internal/application/command/saga_coordinator.go:58-75 | no transaction touches an unknown booking, and an answer about a booking without saga leaves nothing |
| BookingService.BookingService.Update | services/booking-service/internal/infrastructure/persistence/booking_repo_impl.go:85-130 | one row under the version that was read, then one outbox row per collected event, which are cleared; otherwise nothing |
| BookingService.BookingService.HandleEscrowSuccess | services/booking-service/internal/application/command/saga_coordinator.go:48-81 | the newest saga waits for the chat room and the chat room is asked for, together; no saga or booking is an error and leaves nothing |
| BookingService.BookingService.HandleFailure | services/booking-service/internal/application/command/saga_coordinator.go:85-290 | the three handlers that fail a booking write the saga state and cancel the booking from any status, together |
| BookingService.BookingService.HandleChatRoomCreated | services/booking-service/internal/application/command/saga_coordinator.go:116-188 | the booking is accepted and its saga completed if the companion is free; otherwise it is cancelled, late if need be, and a refund is asked for; `ChatRoomAcceptsIff` says when |
| BookingService.BookingService.HandleChatRoomFailed | services/booking-service/internal/application/command/saga_coordinator.go:192-225 | the saga reverts and the client's refund of the price is asked for, without touching the booking |
| BookingService.BookingService.HandleCoinsFrozen | services/booking-service/internal/application/command/saga_coordinator.go:294-334 | a reserving booking becomes pending; a closed one gives the coins back; any other is left alone |
| BookingService.BookingService.HandleCoinsFreezeFailed | services/booking-service/internal/application/command/saga_coordinator.go:338-359 | a reserving booking is cancelled; any other status is an error that leaves nothing |
| BookingService.BookingService.HandleDisputeCreated | services/booking-service/internal/application/command/dispute_booking.go:28-48 | an accepted booking becomes disputed; any other status is an error that leaves nothing |
| BookingService.BookingService.HandleDisputeResolved | services/booking-service/internal/application/command/resolve_booking.go:28-48 | a disputed booking becomes resolved; any other status is an error that leaves nothing |
| BookingService.BookingService.AcceptBooking | services/booking-service/internal/application/command/accept_booking.go:50-136 | opens a saga and asks for the transfer, for the right companion, a pending booking and a free slot; `AcceptStartsIff` says when |
| BookingService.BookingService.Release | services/booking-service/internal/application/command/reject_booking.go:35-75 | reject and timeout write the booking and the release of its coins together or not at all |
| BookingService.BookingService.CancelBooking | services/booking-service/internal/application/command/cancel_booking.go:29-75 | only the booking's own client or companion cancels |
| BookingService.BookingService.CompleteBooking | services/booking-service/internal/application/command/complete_booking.go:29-53 | an accepted booking is completed by its own client only |
| BookingService.BookingService.AutoComplete | services/booking-service/internal/application/command/complete_booking.go:71-91 | an accepted booking is completed by the system |
| BookingService.BookingService.Deliver | services/booking-service/internal/application/command/saga_coordinator.go:362-373 | the idempotency check and the handler commit together or leave nothing behind |
| BookingService.Consume | services/booking-service/internal/infrastructure/messaging/kafka_consumer.go:89-141 | at most three attempts, fewer if the context is cancelled; all but a successful last one returned an error; the offset is committed exactly when the last succeeded, and then the event had exactly that attempt's effect |
| Outbox.NothingIsLost | services/booking-service/internal/infrastructure/messaging/outbox_worker.go:60-130 | under every interleaving of workers, crashes, failed publishes and updates, clock and cleanup, a row marked or deleted was sent, and an unsent row is there and free at most one minute after its last fetch |
| Outbox.MarkOrRelease | services/booking-service/internal/infrastructure/messaging/outbox_worker.go:106-129 | a sent row whose update is written is published now without a lease; an unsent one can be fetched at once |
| Outbox.DoneStaysDone | services/booking-service/internal/infrastructure/messaging/outbox_worker.go:60-130 | a marked row is never unmarked by any run, so no later fetch takes it |
| Outbox.NoRowInTwoBatches | services/booking-service/internal/infrastructure/messaging/outbox_worker.go:60-130 | if batches finish within their lease no row is in two batches at once |
| Outbox.SharedIffLate | services/booking-service/internal/infrastructure/messaging/outbox_worker.go:67-93 | while every row is in one batch, a row in flight can be fetched if and only if its batch outlived its lease |
| Outbox.ExclusiveStepIff | services/booking-service/internal/infrastructure/messaging/outbox_worker.go:60-130 | from such a state exactly the fetches of rows in flight lead to a row in two batches |
| Outbox.LateReleaseSpreads | services/booking-service/internal/infrastructure/messaging/outbox_worker.go:108-116 | from every reachable state with a free row: after a late batch shared it, its release lets two punctual batches have the row at once |
| Outbox.OutboxWorker.ProcessBatch | services/booking-service/internal/infrastructure/messaging/outbox_worker.go:60-130 | a batch is a run of the state machine that ends with the batch done; every taken event is sent and, if its update was written, published; every other one is free again if its update was |
| Outbox.OutboxWorker.PublishOne | services/booking-service/internal/infrastructure/messaging/outbox_worker.go:106-129 | one event is sent and marked published, or released, as far as updates are written; no other row changes |
| Outbox.OutboxWorker.LeaseRows | services/booking-service/internal/infrastructure/messaging/outbox_worker.go:80-93 | the selected rows, and no others, are leased for one minute |
| Outbox.OutboxWorker.RunCleanup | services/booking-service/internal/infrastructure/worker/db_cleanup_worker.go:46-57 | exactly the published rows older than the retention are deleted, the others unchanged |
| DisputeSagas.SagaAggregate.OnFinanceSuccess | services/dispute-service/internal/domain/aggregate/saga_state.py:81-96 | advances only from the finance step, clears the error and collects the event |
| DisputeSagas.SagaAggregate.OnFinanceFailed | services/dispute-service/internal/domain/aggregate/saga_state.py:98-115 | fails the saga, only from the finance step |
| DisputeSagas.SagaAggregate.OnInteractionSuccess | services/dispute-service/internal/domain/aggregate/saga_state.py:117-132 | completes the saga, only from the interaction step |
| DisputeSagas.SagaAggregate.OnInteractionFailed | services/dispute-service/internal/domain/aggregate/saga_state.py:134-156 | stays, counts the failure and records the error |
| DisputeSagas.Orchestrator.ProcessSaga | services/dispute-service/internal/application/saga/refund_saga.py:28-69 | the recursive orchestrator leaves exactly the saga row, port calls and published events of its specification, events in order and once |
| DisputeSagas.Orchestrator.Start | services/dispute-service/internal/application/saga/payout_saga.py:22-35 | a saga is saved and processed; a snapshot call that throws leaves nothing |
| DisputeSagas.Orchestrator.RetryPending | services/dispute-service/internal/infrastructure/broker/saga_worker.py:51-95 | a retry pass reloads and processes each pending saga in turn |
| DisputeSagas.BeginStep | services/dispute-service/internal/application/saga/refund_saga.py:22-26 | starting a saga, whatever its ports answer, keeps every saga's story |
| DisputeSagas.RetryAllStep | services/dispute-service/internal/infrastructure/persistence/repositories.py:115-131 | so does every retry pass |
| Disputes.DisputeAggregate.AssignAdmin | services/dispute-service/internal/domain/aggregate/dispute.py:135-141 | OPEN to RESOLVING only |
| Disputes.DisputeAggregate.Settle | services/dispute-service/internal/domain/aggregate/dispute.py:143-207 | a verdict only from RESOLVING, with admin, resolution and notes |
| Disputes.DisputeCommandService.CreateReport | services/dispute-service/internal/application/command/dispute.py:29-74 | succeeds exactly for a valid reason and a booking without any dispute, open or closed |
| Disputes.DisputeCommandService.AssignAdmin | services/dispute-service/internal/application/command/dispute.py:76-86 | succeeds exactly for an OPEN dispute, which gets the admin; otherwise nothing changes |
| Disputes.DisputeCommandService.ResolveDispute | services/dispute-service/internal/application/command/dispute.py:88-136 | dispute, saga, calls and notices of a verdict, or nothing if it is refused or the payout snapshot throws |
| DisputeLaws.SoundRun | services/dispute-service/internal/application/command/dispute.py:29-136 | every run keeps one dispute per booking, one saga per decision of that kind, and a saga for every decision about money |
| DisputeLaws.SagaStories | services/dispute-service/internal/application/saga/payout_saga.py:22-79 | over every run: one finance call per saga, first; interaction calls only after its success; failed exactly if it failed; the retry count is the number of failed interaction calls; a saga left behind is finished or found by the retry query |
| DisputeLaws.MoneyMovesOnce | services/dispute-service/internal/application/command/dispute.py:88-136 | over every run of commands and retries, whatever the ports answer, at most one finance call is made for a booking, for a dispute decided that way |
| DisputeLaws.VerdictIsFinal | services/dispute-service/internal/domain/aggregate/dispute.py:85-95 | a decided dispute never changes in any field, and no dispute goes back |
| DisputeLaws.FailedMoneyIsFinal | services/dispute-service/internal/domain/aggregate/saga_state.py:98-115 | once a saga's finance call failed, no run ever calls finance for that booking again |
| DisputeLaws.VerdictIsTrueIff | services/dispute-service/internal/application/command/dispute.py:88-121 | over every run, for every dispute decided with money: some command decided it, and a finance call succeeded for its booking if and only if that command's finance call did, which is if and only if its saga did not fail |
| DisputeLaws.VerdictMovesMoneyIff | services/dispute-service/internal/application/command/dispute.py:99-121 | the deciding command's verdict stands for ever, and money moved if and only if its finance call succeeded |
| DisputeLaws.RefundedWithoutRefund | services/dispute-service/internal/application/command/dispute.py:99-109 | a run that ends with a dispute REFUNDED and no refund made |
| DisputeNews.EventsTellCalls | services/dispute-service/internal/application/saga/refund_saga.py:28-69 | over every run a saga's published events are exactly the announcements of its port calls, each failure with its error and number, and the error on record is the last call's |
| DisputeNews.NoticesTellDispute | services/dispute-service/internal/application/command/dispute.py:29-136 | over every run a dispute's notices are one report, one assignment and one decision, as far as it has come and as its row says |
| DisputeNews.ErrorsAreKept | services/dispute-service/internal/application/saga/refund_saga.py:42-65 | a given error text is kept, and a failure without one gets a text |
| DisputeNews.ReportMeans | services/dispute-service/internal/application/command/dispute.py:29-74 | a report opens a dispute exactly for a known reason and a booking without any dispute |
| DisputeNews.AssignMeans | services/dispute-service/internal/application/command/dispute.py:76-86 | an assignment takes exactly an open dispute to an admin |
| DisputeNews.ResolveMeans | services/dispute-service/internal/application/command/dispute.py:88-136 | a resolution decides exactly a dispute being resolved, for a known verdict and, for a payout, with its snapshot taken; it starts the saga of its kind for the dispute's booking, and a rejection starts none |
| DisputeNews.RetryMeans | services/dispute-service/internal/application/saga/refund_saga.py:49-65 | a pending saga makes one more interaction call and is resolved if it succeeds, and otherwise pending with one more failure; no other saga changes |
| DisputeNews.RetryPassReachesAll | services/dispute-service/internal/infrastructure/broker/saga_worker.py:51-95 | a pass makes exactly one interaction call for each saga the retry query found, in order, and leaves each resolved or pending as its call went; no other saga changes |
| TokenFamilies.TokenService.GenerateTokenPair | services/identity-service/internal/infrastructure/crypto/jwt_token_service.go:45-114 | stores one unrevoked token in the new family, or nothing if minting fails |
| TokenFamilies.TokenService.ValidateRefreshToken | services/identity-service/internal/infrastructure/crypto/jwt_token_service.go:116-185 | the verdict in the order of the checks, and the family revoked on reuse |
| TokenFamilies.TokenService.RevokeRefreshToken | services/identity-service/internal/infrastructure/crypto/jwt_token_service.go:187-191 | revokes that token only |
| TokenFamilies.TokenService.RevokeAllUserTokens | services/identity-service/internal/infrastructure/crypto/jwt_token_service.go:193-197 | revokes every token of the user and no other |
| TokenFamilies.TokenService.RotateRefreshToken | services/identity-service/internal/infrastructure/crypto/jwt_token_service.go:199-269 | revokes the old token even if minting fails, and mints in the same family |
| TokenFamilies.Handlers.HandleRefresh | services/identity-service/internal/application/command/refresh_token.go:34-61 | succeeds exactly for a genuine token of an active account that can be minted; reuse revokes the family and everything of the user |
| TokenFamilies.Handlers.HandleLogout | services/identity-service/internal/application/command/logout.go:26-34 | a genuine token is revoked; a reused one still takes its family down; anything else changes nothing |
| TokenFamilies.Handlers.FinishLogin | services/identity-service/internal/application/command/login_google.go:82-93 | a new family for an active account only |
| TokenFamilies.Handlers.HandleLock | services/identity-service/internal/application/command/lock_account.go:56-71 | locks an active account and revokes all its tokens |
| TokenFamilies.Handlers.HandleUnlock | services/identity-service/internal/application/command/unlock_account.go:34-60 | unlocks a locked account; its tokens stay revoked |
| TokenFamilies.FamiliesRun | services/identity-service/internal/infrastructure/crypto/jwt_token_service.go:45-269 | in every sequential run each family has at most one unrevoked token and one user, and a locked account has no unrevoked token |
| TokenFamilies.ReuseEndsFamily | services/identity-service/internal/infrastructure/crypto/jwt_token_service.go:154-167 | once a revoked token is shown, no later step of any run gives its family an unrevoked one; shown to refresh, its user keeps none of the tokens held then |
| TokenFamilies.ReplayEndsFamily | services/identity-service/internal/application/command/refresh_token.go:34-61 | a token that was rotated or logged out and is shown again at any later time leaves its family dead for ever |
| TokenFamilies.RefreshHandsOver | services/identity-service/internal/infrastructure/crypto/jwt_token_service.go:199-269 | after a successful refresh the minted token is the family's only live one and no other token changed |
| TokenFamilies.RotateIsSafeIff | services/identity-service/internal/infrastructure/crypto/jwt_token_service.go:199-269 | a rotation keeps one live token per family if and only if nothing else is live in that family at that moment |
| TokenFamilies.RacingRefreshes | services/identity-service/internal/application/command/refresh_token.go:36-55 | two requests that both validate before either rotates always leave two live tokens |
| TokenFamilies.RefreshMintsIff | services/identity-service/internal/infrastructure/crypto/jwt_token_service.go:154-185 | a refresh gives a new token exactly for one that is unrevoked, unexpired, is the text shown and whose user may log in, in its family and for its user |
| TokenFamilies.LoginMintsIff | services/identity-service/internal/application/command/login_google.go:82-93 | a login gives a token in a family of its own exactly for an account that may log in, and changes no other token |
| TokenFamilies.LogoutEndsFamily | services/identity-service/internal/application/command/logout.go:26-34 | after a logout with the family's token the family has no unrevoked token, in any later state |
| TokenFamilies.AccountSteps | services/identity-service/internal/domain/aggregate/user_account.go:97-130 | a new account may log in, a locked one may not and has no token left, an unlocked one may again; others are unaffected |
| TokenFamilies.OthersUntouched | services/identity-service/internal/infrastructure/crypto/jwt_token_service.go:154-197 | no step, reuse and locking included, touches a token of another user |
| AccountCache.KeysDiffer | services/identity-service/internal/infrastructure/persistence/user_account_repo_impl.go:30-121 | no two lookups share a cache key, within a key family or across families |
| AccountCache.AccountRepository.Save | services/identity-service/internal/infrastructure/persistence/user_account_repo_impl.go:38-50 | an account with a taken id, email or Google id is refused; otherwise it is stored at the next version and its three keys are evicted |
| AccountCache.AccountRepository.Update | services/identity-service/internal/infrastructure/persistence/user_account_repo_impl.go:52-71 | accepted exactly at the stored version without a clash; the given values are written where they are not zero, and the keys of the given account are evicted |
| AccountCache.AccountRepository.FindBy | services/identity-service/internal/infrastructure/persistence/user_account_repo_impl.go:73-144 | a hit answers from the cache, a miss from the table; only existing rows are cached |
| AccountCache.CacheIsInvisible | services/identity-service/internal/infrastructure/persistence/user_account_repo_impl.go:38-144 | for every sequential run, with entries expiring at any time and callers updating accounts they were given, every result and the table are those of the table alone |
| AccountCache.UpdateIsCoherentIff | services/identity-service/internal/infrastructure/persistence/user_account_repo_impl.go:66-69 | an update leaves a coherent cache if and only if email and Google id are kept or the old entry is not cached |
| AccountCache.StaleAnswer | services/identity-service/internal/infrastructure/persistence/user_account_repo_impl.go:66-69 | after an update that changes a cached email the old email still finds the old row, although the table has nobody with it |
| AccountCache.StaleEmail | services/identity-service/internal/infrastructure/persistence/user_account_repo_impl.go:52-117 | such a state arises from a Save and a FindByEmail |
| AccountCache.NoLostUpdate | services/identity-service/internal/infrastructure/persistence/user_account_repo_impl.go:52-64 | of two updates from the same version at most one is ever accepted |
| AccountCache.SaveIff | services/identity-service/internal/infrastructure/persistence/user_account_repo_impl.go:38-43 | an account is stored exactly when nobody has its id, email or Google id |
| AccountCache.SaveIsRead | services/identity-service/internal/infrastructure/persistence/user_account_repo_impl.go:38-50 | it is then found by all three as given, at the next version, and no other row changed |
| AccountCache.UpdateIff | services/identity-service/internal/infrastructure/persistence/user_account_repo_impl.go:52-64 | in conflict exactly when the stored version is another, refused exactly when another account has the email or Google id |
| AccountCache.UpdateIsRead | services/identity-service/internal/infrastructure/persistence/user_account_repo_impl.go:52-71 | after an accepted update role, status, violations, email and Google id are found as given, or as stored where the given value is zero, at the next version; no other row changed |
| AccountCache.CachedUpdateIsRead | services/identity-service/internal/infrastructure/persistence/user_account_repo_impl.go:52-117 | the same through the cache, by any key |
| AccountCache.FoundIsCached | services/identity-service/internal/infrastructure/persistence/user_account_repo_impl.go:91-93 | what was found is answered from the cache until it expires or is evicted |
| EndToEnd.CancellationPaysOnce | services/finance-service/main.py:227-457 | from a HELD escrow of the price, any sequence of deliveries of what any run of the booking service wrote about a booking's cancellation and refund changes nothing until one is heeded, and has the effect of that one alone |
| EndToEnd.PaidIffHeeded | services/finance-service/main.py:227-457 | the first delivered message that is not a late cancellation by the system decides: the price goes to the companion if the client cancelled late and to the client otherwise, once; without one nothing changes |
| EndToEnd.SystemCancellationPaysIff | services/finance-service/main.py:398-453 | of a booking cancelled late by the system the client is paid the price, once, if and only if a refund command is delivered; otherwise nothing changes |
| EndToEnd.IgnoredHaveRefundsRun | services/booking-service/internal/application/command/saga_coordinator.go:147-174 | over every run, a late cancellation by the system has a refund command beside it in the outbox |
| EndToEnd.AllDeliveredPays | services/finance-service/main.py:227-457 | once every such row has been delivered at least once, the price has gone to the one wallet that the first heeded message names, once |
| EndToEnd.SystemCancelsLate | services/booking-service/internal/application/command/saga_coordinator.go:147-174 | a run whose outbox has a late cancellation by the system |
| EndToEnd.OutboxAgrees | services/booking-service/internal/domain/aggregate/booking.go:153-194 | the outbox of any run has at most one cancellation event per booking, and refund commands that name its client and price |

## Left out

- Commission.CommissionBounds: over exact reals; the source multiplies binary floats, whose rounding, infinities and NaN are not modelled.
- Commission.RoundIsNearest: over exact reals, likewise.
- Commission.NetIsNegativeIff: over exact reals, likewise.
- FinanceService.FinanceCommandService.Ipn: the signature is an oracle, and a signed notification is taken to name a top-up order if it names a row.
- BookingRuns.NeverDoubleBooked: transactions are serial; what concurrent ones may do depends on database isolation that is not visible in the code.
- BookingRuns.ExactlyOnce: the cleanup worker's deletion of old processed-event ids is not modelled; after it an old event could take effect again.
- BookingService.Consume: one message; that committing a later offset passes over an unprocessed message is a matter of the broker.
- BookingRaces.RacesAreSafe: the tag that tells which handler wrote an UnfreezeCoin row is an annotation of the model; a saga handler may hold any saga of its booking, which includes the newest.
- DisputeLaws.SagaStories: saves and publishes succeed, and the version column of dispute and saga rows is not modelled, since commands and passes are serial.
- TokenFamilies.FamiliesRun: requests are sequential and revoking updates succeed, although the source ignores their errors; `RacingRefreshes` shows what concurrency does.
- AccountCache.CacheIsInvisible: evictions succeed, although the source ignores their errors; accounts are compared as rows, so the address check of the mapper is not modelled.
- Fields of booking events and of the chat-room command that only repeat the booking's parties, times and scenario: taken from the stored booking where they matter.
- Wallet, escrow and evidence ids, reason texts, timestamps of rows, and the top-up page's URL: carried along by the source without being decided on.
- HTTP and gRPC servers, gateways, Kafka, GORM, SQLAlchemy and Redis themselves: replaced by maps and atomic steps.
- JWT, RSA and PKCE computation, Google OAuth, S3 and the payment gateway's hashing: foreign calls.
- Exactly-once processing of raw freeze and unfreeze events in the finance listener, FIFO publishing, the pending cap and the client's own overlaps as global invariants: the code does not maintain them.
- Malformed and unrecognised inbound messages, backoff times and logging.
- Profile service, reviews, chat messages, upgrade requests, notifications, pagination, search filters and event mappers: only easy single-branch facts.
- The fetch, reconnect and visibility part of `bundle.js`: browser I/O.
