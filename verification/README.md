# A verified model of the taxi dispatch bot

The bot lets passengers order taxis in a messenger and hands the orders to drivers
who wait in first-in-first-out lines or are busy on a matching trip. Buttons, timers,
watchdogs and workers race for the same orders and the same drivers. This project
models the durable state behind that race, and five smaller machines beside it, and
proves what every run of them keeps.

## How the model is built

- **Dispatch.** `DispatchState` is the database: order rows, the driver queue, driver
  flags, parked passengers, personal selections. One database session is one atomic
  step, a function from state to state; `Protocol.Event` lists thirty-seven of them
  (answers to offers, four kinds of claim, reservations, the ride, five kinds of
  cancellation, the driver line, every timer and watchdog). The routines of the cascade
  (offer, no driver, busy driver, fallback) call each other as they do in the code, so
  they carry the depth that the call stack still allows: `TooDeep` is the recursion
  error, and `Protocol.Step` rolls such a transaction back. What a step learns from
  outside (the clock, the cards the outbox takes, the requests chat, which passengers
  have waited long enough) is an `Env`, free at every step.
- **The invariant.** `DispatchState.Inv` holds one row law per order and says that no
  driver is committed twice (`Exclusive`), that a reservation stands behind a ride
  (`Backed`), that an automatic offer names a departed, unsuppressed trip its driver is
  on (`RoutesOnTrips`), that an offered driver is online on the order's own line with
  his queue row reserved (`Seated`), that queue positions differ, and that parked orders
  are unassigned. `InvDuring(db, Some(d))` is its weaker form while driver d's ride is
  being closed inside one transaction.
- **What each event does.** For every event there is a lemma that gives the rows it
  leaves in the fields of the tables (who is online, where he stands, who has declined,
  where the ride leads), without the functions that compute them: `Dispatched` for the
  cascade, `Answers`, `Taking`, `Returning`, `Road`, `Endings`, `Requests`, `Shifts`,
  `Prompts` and `Questions` for the events, `Delivery` for the outbox, `Limits` for the
  limiter. They speak of transactions that end; which do not is the subject of
  `CascadeDepth`, `Wedging` and `Findings`, and `Dispatched.StuckIff`.
- **In place.** Code that changes tables step by step is also written that way: the
  classes `Desk.Session`, `Mailbox.Table`, `Timers.Desk`, `AbuseBounds.Limiter` and
  `Waiting.OrderMeter`, and the method `Keyboards.Keyboard`. Each method is proved to
  leave exactly the state that the specification function gives, and the properties are
  proved of that function.

`Protocol.Regular` restricts four events of the runs about exclusivity, because the
code does not keep the invariant without it: a dispatcher cancelling an order that is
itself a reservation, a new address for an order that is owned or closed, a refusal
after assignment by a driver who has a reservation or a card, and a broken car whose
reservation may come straight back as a card. Each restriction is a condition on the
state before the event, and each is shown to be needed by a lemma listed below. Two
groups of results hold over all runs, with no restriction on the events: who owns an
order and what is never taken back (`CustodyRuns`, from any state in which offered
orders are unowned and reserved ones belong to who reserved them), and the order of the
queue (`FifoRuns`).

## What the code does not do

- A village request whose waiting drivers have all declined it runs in a circle until
  the stack is used up, and the transaction is rolled back. So the only driver of a
  village line cannot turn such a request down for mere dislike, nor a dispatcher's for
  its distance; if the others on the line have declined, not even silence takes it from the last one; a parked one wedges
  the opportunity check, and with it undoes every answer that ends in that check and
  turns away every driver whose coming to a line would meet it.
- A personal request goes to whoever stands first on its line, who may be a stranger,
  in three cases: its driver claims another order from the chat, his car breaks down on
  the ride, or the passenger sends a new address, even after the request is closed.
- A refused delivery price, or a chat request that is no longer wanted, orphans the
  reservation and the card of its driver. A broken car may get its own reservation, or
  another parked request, as a card for the trip that is over.
- Cancelling a reserved order as a dispatcher leaves the reserving driver with a closed
  order, and the address handler changes owned orders and reopens closed ones.
- Outbox: a deletion claimed by a process that dies is never taken up again; a card
  finalized between its claim and its sending is never sent; ids that arrive while a
  deletion is being given up are lost; a card that the messenger took without an answer
  keeps its buttons beside the final one that is sent next; reports of identical
  messages without random ids must come in the order of their rows, and a card
  finalized in flight is not recognized in such a report if a note was added to a text
  that ended in blanks (unless the note itself begins with line breaks that make up
  for them).
- Timers: a cancellation whose transaction is rolled back leaves a row without a timer;
  the retry of a failed callback pushes aside a newer timer of its key.
- A promise of arrival that is used up shows 0 minutes before promotion and nothing
  after it.
- The limiter's duplicate window is one second, although its comment speaks of 350 ms.

## Model

| member | source | states |
|---|---|---|
| Protocol.StepSound | bot/parallel_orders.py:553-643 | Every regular transaction keeps the whole invariant, gives at most one order to at most one claimant who finds it unowned, and treats every other order lawfully |
| Protocol.RunKeepsInv | bot/order_service.py:389-408 | The invariant holds after every prefix of every regular run, whatever the environment answers and however deep the stack is |
| Protocol.ExclusiveCommitment | bot/queue_service.py:324-367 | From an empty order table on, nobody ever holds two live offers, two rides or two reservations; an offer excludes both other kinds; a reservation always stands behind a ride |
| CustodyRuns.OwnerStep | bot/handlers.py:3192-3218 | In one step of any event, from any sane state, an order's driver changes only from nobody to the claimant named by the event, or from somebody to nobody |
| CustodyRuns.NoStealing | bot/handlers.py:6372-6381 | Over all runs, between two different owners of an order there is a moment at which nobody owns it |
| CustodyRuns.OrdersStay | bot/order_service.py:526-548 | Over all runs order rows never disappear |
| CustodyRuns.ForEverStep | bot/parallel_orders.py:52-65 | In one step of any event suppression of a trip and refusals are never withdrawn; request, fallback flag, exclusions and the end of an order stand until the passenger rewrites the address |
| CustodyRuns.FallbackStays | bot/handlers.py:6105-6119 | The fallback flag of an order is never withdrawn by any run without a new address for it |
| Protocol.FinishedStays | bot/handlers.py:1918-1945 | In a regular step a finished order keeps its very status |
| CustodyRuns.StepHandled | bot/parallel_orders.py:553-643 | Every event, regular or not, keeps the custody law: offered orders are unowned, reserved ones belong to who reserved them, at most one order gets an owner, a card is an old one or names an unsuppressed trip |
| CustodyRuns.HandsStep | bot/handlers.py:3530-3560 | A personal request in the hands of its driver (offered to him, ridden by him, or over) stays there in every step but three events that concern it |
| Protocol.StagedRouting | bot/order_service.py:412-432 | In every reachable state a live ordinary offer stands on the order's own village line before the fallback, on Gornozavodsk after it and for all other orders (unless the passenger chose that driver); and no card is open once the flag is set or if there is no village |
| Protocol.RouteOffersInOrder | bot/parallel_orders.py:421-483 | In every reachable state the card columns are set together or clear together; a live card lies on an unassigned order outside its fallback, names a departed, unsuppressed trip to the order's village that its driver is riding, is his only one, and he was not excluded and has no ordinary offer |
| CustodyRuns.SuppressedForEver | bot/parallel_orders.py:975-1048 | Once a card of a trip has expired, over all runs a card naming that trip is one that was open then already |
| Protocol.LateClaimChangesNothing | bot/handlers.py:3367-3372 | A claim on an order that is owned, closed, or offered to somebody else changes no order at all |
| Protocol.StaleAnswerChangesNothing | bot/accept_timeout_service.py:25-65 | Replaying a timeout, an undeliverable card, a refusal or an acceptance of an offer that is no longer live changes nothing |
| Protocol.DeadCardRefused | bot/parallel_orders.py:592-601 | A card cannot be accepted once it is closed, its trip is over or its trip is suppressed |
| Protocol.CardConsumedOnce | bot/parallel_orders.py:786-827 | Once a card is taken, declined, expired or closed with its trip, taking it, declining it and its timeout change nothing |
| Protocol.SafetyNetsIdle | bot/handlers.py:263-316 | A driver with a live offer never has a ride and never a second offer, so the two repair routines of the code never find anything |
| OrderTable.UpdateRow | bot/parallel_orders.py:611-617 | When one row may be replaced without breaking exclusivity, backing or the cards: it fits beside the others and nothing leans on what it stops being |
| OrderTable.AtMostOneEach | bot/order_service.py:299-373 | Under the invariant two orders that commit one driver in the same way are the same order |
| OrderTable.OfferExcludesWork | bot/handlers.py:263-316 | Under the invariant a driver looking at an offer has neither ride nor reservation |
| CascadeInv.OfferKeeps | bot/order_service.py:376-523 | Dispatch of one unassigned order keeps the invariant and touches nobody else's order, offer or place |
| CascadeInv.FallbackKeeps | bot/parallel_orders.py:885-972 | The fallback keeps the invariant and moves only its own order |
| CascadeInv.NotifyKeeps | bot/parallel_orders.py:421-483 | An automatic card is placed on an eligible trip or not at all, with the order's stage unchanged |
| Cascade.ClaimTrip | bot/parallel_orders.py:368-387 | The claimed trip is eligible and departed before every other eligible trip; none is claimed only if none is eligible |
| CascadeDepth.CascadeEndsIffNotStuck | bot/order_service.py:807-930 | With two frames of stack the cascade ends if and only if the order is not stuck, that is, unless everybody waiting on the consulted line has declined it and no other outlet is open |
| CascadeDepth.StuckNeverEnds | bot/parallel_orders.py:170-185 | A stuck order exhausts the stack at every depth, each pass ending in the same state |
| CascadeDepth.StuckStays | bot/parallel_orders.py:932-972 | One pass of the circle leads to a state that is stuck again and is its own successor |
| Asking.CascadeAsks | bot/order_service.py:376-523 | With two frames of stack the order stands before exactly the driver computed from the state before the cascade, the first willing one of its line or of the last resort, or, if there is none, nobody can be asked about it afterwards |
| Asking.CheckLeavesQuiet | bot/passenger_queue.py:254-358 | The opportunity check leaves the row of an order nobody can be asked about as it is |
| Asking.CheckLeavesOthers | bot/passenger_queue.py:254-358 | Whatever the state, it leaves every order outside the passenger queue as it is |
| Asking.CascadeFewer | bot/order_service.py:376-523 | The cascade makes nobody wait on any line who did not wait before |
| Dispatched.ChatIff | bot/order_service.py:807-930 | After a cascade an order is in the requests chat, out of the passenger queue, if and only if nobody willing waits on its line, it is a passenger's, it is a delivery or was refused as too far or as a delivery, and the chat is configured and accepts; it is left with nobody if the chat does not; any other order that nobody can be asked about is parked |
| Dispatched.CascadeLeaves | bot/order_service.py:376-523 | The whole row a cascade leaves, in the fields of the tables: before the first willing driver of its line or, when it has come so far, of Gornozavodsk; otherwise in the chat, with nobody, or queued |
| Dispatched.AskedIs | bot/order_service.py:412-457 | Somebody is asked if and only if a free driver who has not declined the order stands on its line, or on that of Gornozavodsk for a village order that nobody waits for and no trip takes; he is the first of them |
| Dispatched.StuckIff | bot/order_service.py:807-930 | The circle in the fields of the tables: a village request that may not go to the chat, declined by all who wait for it, while somebody does wait in its village or, with no card to send, in Gornozavodsk |
| Dispatched.FallbackLeaves | bot/parallel_orders.py:885-972 | The whole row a fallback leaves, and that it has no end if and only if everybody in Gornozavodsk, where somebody waits, has declined an order that may not go to the chat |
| Dispatched.CardIff | bot/parallel_orders.py:421-483 | An unassigned order without a card gets one if and only if nobody waits in its village, no offer card of it lies open, it is before its fallback, the messenger takes the card and some trip takes the order; the card is for the trip that departed first, and no other order changes |
| Dispatched.WaitingIff | bot/queue_service.py:277-382 | Somebody waits on a line if and only if a driver stands there who is online, shown as free, not blocked, and held by no order and no passenger; the pick is the first of them |
| Dispatched.RepairLeaves | bot/queue_service.py:191-274 | Every row after the repair: a free driver waits on his own line if it is active and otherwise where he stood, at his old place or behind everybody; nobody else's row changes |
| Wedging.CheckDeepIff | bot/passenger_queue.py:254-358 | In every state with well-formed rows and queues, whether it keeps the invariant or not, two frames of stack run out in the opportunity check if and only if the first parked request it acts upon is stuck at that point |
| Wedging.CheckIs | bot/passenger_queue.py:254-358 | The whole check comes to serving the one request found by passing over the others, or to passing over all of them |
| Wedging.CardChecked | bot/passenger_queue.py:279-303 | An order with a card keeps its row through the check unless it is the one given out to a waiting driver |
| Sending.CheckSendsIff | bot/parallel_orders.py:421-483 | A driver without a card has one after the check if and only if a request passed over gets it: a request acted upon never does |
| Sending.CheckSent | bot/passenger_queue.py:279-358 | Such a card still lies there when the check has ended, and nobody is in reach of its order |
| Prompts.PromptOnly | bot/passenger_queue.py:417-437 | Whatever the state, the opportunity check starts asking a passenger only about a request that is unconfirmed, not a dispatcher's, and has waited long enough |
| Prompts.PromptIf | bot/passenger_queue.py:279-303 | If such a request is the first one acted upon and a driver is in its reach, its passenger is asked and nothing else happens to any order |
| Prompts.HandedOn | bot/passenger_queue.py:279-358 | A request in reach that is confirmed, a dispatcher's or not yet ripe is handed to the cascade, out of the queue, when it is the first one acted upon |
| Prompts.WantedIsOffered | bot/passenger_queue.py:279-358 | It is then offered to the first driver of its line who has not declined it |
| Prompts.CheckJoins | bot/passenger_queue.py:254-358 | Whatever the state, nobody comes into the driver queue by the check who is off the line, away or busy, and it changes no driver |
| Prompts.PromptsHold | bot/passenger_queue.py:254-278 | While the question stands with a driver in reach of everybody asked, the check serves nobody else |
| Prompts.PromptsWithdrawn | bot/passenger_queue.py:254-278 | As soon as one of them has lost his driver all questions are withdrawn, and only who may be asked is asked again |
| Prompts.PausedAre | bot/passenger_queue.py:82-102 | Withdrawing the questions leaves everybody in his place and only the one excepted asked |
| Questions.YesIsOffered | bot/passenger_queue.py:440-495 | A request answered with "yes", if it is the first one acted upon and somebody on its line has not declined it, is offered to the first of them and not asked about again |
| Questions.YesIsHandedOn | bot/passenger_queue.py:485-495 | In reach of a driver it goes through the cascade, and the answer is undone if and only if it is stuck there |
| Questions.FrontIsOffered | bot/passenger_queue.py:440-495 | At the front of the queue it needs no hypothesis about the check: it is offered at once to the first willing driver |
| Questions.FrontIsAsked | bot/passenger_queue.py:393-437 | Before "yes", with nobody else being asked, its passenger, and he alone, is asked |
| Questions.NoDoes | bot/passenger_queue.py:440-533 | "No", and no answer, cancel a passenger's request and close its card; a dispatcher's only stops being asked about |
| Wedging.ServiceDeepIff | bot/passenger_queue.py:279-358 | Serving one parked request runs out of stack if and only if it is handed out and stuck in the state from which it is |
| Findings.CircleExample | bot/parallel_orders.py:937-961 | A concrete state: the only driver of a village line declines a village request and, at any depth, nothing at all changes |
| Findings.RefusalUndone | bot/handlers.py:3496-3691 | A refusal for any reason that leaves its order looking for a driver and stuck is rolled back at any depth |
| Findings.RefusalUndoneIff | bot/handlers.py:3496-3691 | For every reason a refusal is undone if and only if its own order is stuck where it is handed on, or the opportunity check that follows is wedged, possibly by another order |
| Findings.SilenceUndoneIff | bot/order_service.py:526-594 | The same for a minute of silence, after which the driver is off the line; an undone timeout leaves the offer for the watchdog to meet again |
| Findings.SilenceExample | bot/parallel_orders.py:937-961 | A concrete state: the second driver of a village line has declined, and the silence of the first changes nothing at all |
| Findings.PromotionWedged | bot/passenger_queue.py:279-303 | While a stuck village order heads the passenger queue and nobody is being asked, the opportunity check ends in the recursion error and every recovery round changes nothing |
| Findings.RecoveryUndoneIff | bot/passenger_queue.py:361-376 | A recovery round is rolled back if and only if the first request the check acts upon is stuck |
| Findings.ReturnUndoneIff | bot/lines.py:252-272 | A driver who comes to a line, by going online, choosing a line or staying on his, is turned away by the recursion error if and only if the check is wedged once he has arrived |
| Findings.PersonalRequestRefused | bot/handlers.py:3530-3560 | A refused personal request is closed, whatever the reason, if the transaction ends |
| Findings.PersonalRequestUnanswered | bot/order_service.py:549-588 | A personal request met with silence is closed, if the transaction ends |
| Findings.PersonalRequestWithoutCar | bot/handlers.py:3377-3412 | A personal request accepted without a car is closed, if the transaction ends |
| Findings.PersonalRequestLeaks | bot/handlers.py:6384-6440 | A personal request whose driver claims another order from the chat is offered to some other driver, whenever one is eligible |
| Personal.StraysIff | bot/handlers.py:6344-6474 | In one step a personal request in the hands of its driver comes before another driver if and only if the step is not rolled back and the event is his chat claim of another order, his broken car on the ride, or its new address, and the driver then asked, computed from the state in which it looks for one, is another |
| Personal.PassedOnDirectly | bot/handlers.py:6312-6331 | For a broken car without card and reservation that state is the one before the event with the driver set aside and the ride freed |
| Personal.ChatClaimStrays | bot/handlers.py:6384-6440 | A concrete state in which the chat claim sends the request to a stranger |
| Personal.BrokenCarStrays | bot/handlers.py:6312-6331 | A concrete state in which the broken car does |
| Personal.NewAddressStrays | bot/handlers.py:6088-6133 | A concrete state in which the new address of a closed request does |
| Personal.BornInHands | bot/order_service.py:299-373 | A personal request is offered to its own driver when it is made |
| Personal.StaysInHands | bot/handlers.py:3530-3560 | Over all runs it comes before nobody else as long as none of the three events concerns it |
| Findings.BrokenCarGetsCard | bot/handlers.py:6296-6331 | A concrete state in which a broken car ends with a card in front of its driver for the trip he has given up, and the invariant broken |
| Findings.CarFailureIff | bot/handlers.py:6296-6331 | If no card lies with its driver, a broken car keeps the invariant if and only if, in the state before, the check after the return of his reservation sends him none, or the transaction is rolled back |
| BrokenCar.BreakdownUndoneIff | bot/handlers.py:6296-6331 | It is rolled back if and only if that check is wedged, the ride given up is stuck where it is handed on, or the check after that is wedged |
| Findings.BreakdownIff | bot/handlers.py:6296-6331 | With nobody online there is no roll-back: the invariant holds afterwards exactly under the condition of the regular runs |
| Findings.RefusalStepIff | bot/delivery_service.py:241-262 | A refusal, of the price or from the chat, keeps the invariant if and only if its driver has neither reservation nor card, or the check after a chat refusal closes his card by giving its order out, or is wedged and undoes everything |
| OfferSteps.AcceptSound | bot/handlers.py:3367-3442 | Accepting keeps the invariant and takes exactly the offered order, or nothing (which of the two: Answers.AcceptIff) |
| OfferSteps.AcceptTakes | bot/handlers.py:3413-3442 | The accepted offer becomes the driver's one ride |
| OfferSteps.DeclineSound | bot/handlers.py:3496-3691 | Declining with any reason keeps the invariant and gives no order an owner |
| OfferSteps.AcceptTimeoutSound | bot/order_service.py:526-594 | A minute of silence keeps the invariant and gives no order an owner |
| OfferSteps.UnreachableSound | bot/outbox_service.py:171-203 | Recovering an offer whose card could not be delivered and is recognized as one keeps the invariant |
| Answers.AcceptIff | bot/handlers.py:3367-3442 | After the press of the button the driver rides the order if and only if he did before, or the offer was live before him, he was not suspended, his car was ready, he was on the line and had a current line |
| Answers.AcceptDoes | bot/handlers.py:3413-3442 | Then the order is assigned to him, he and his queue row are busy in their place, and nothing else changes |
| Answers.NoCarDoes | bot/handlers.py:3377-3412 | Without a ready car he is off the line with his refusal noted; a personal request is cancelled, any other goes through the cascade and not back to him |
| Answers.AcceptUnshown | bot/handlers.py:3367-3372 | In every other case the press changes nothing |
| Answers.DeclineDoes | bot/handlers.py:3496-3691 | The row after every reason: cancelled (personal requests, bookings, spam), waiting for an address, or through the cascade with the refusal noted, for the chat if it was too far or a delivery; the driver keeps his place, away only if he says so |
| Answers.SilenceDoes | bot/order_service.py:526-594 | Silence takes the driver off the line; a personal request is cancelled, any other goes through the cascade with nothing noted against him and not back to him |
| Answers.UndeliverableDoes | bot/outbox_service.py:171-203 | An undeliverable card does the same, but leaves a personal request alone |
| ClaimSteps.TakePendingSound | bot/handlers.py:3174-3237 | A claim from the list takes one pending order as the driver's ride or changes nothing |
| ClaimSteps.TakeFromChatSound | bot/handlers.py:6344-6474 | A claim from the chat succeeds if and only if the button is open, and then the order is the driver's ride, even if handing on his other offer fails |
| RouteSteps.ReserveSound | bot/parallel_orders.py:553-643 | A reservation is made only for a rider without one, of an unassigned order, and with a card only while it is live; otherwise no order changes (exactly when: Taking.ReserveIff) |
| RouteSteps.DeclineConsumes | bot/parallel_orders.py:786-827 | A declined card is closed, its driver excluded, the order falls back, and the trip row is untouched, so it may still be offered others |
| RouteSteps.ExpiryConsumes | bot/parallel_orders.py:975-1048 | An expired card is closed the same way and its trip is suppressed while it goes on |
| RouteSteps.RouteTimeoutSound | bot/parallel_orders.py:975-1048 | Expiry followed by the opportunity check keeps the invariant |
| RouteSteps.DeclineReservedSound | bot/parallel_orders.py:760-783 | Declining a reserved order keeps the invariant and leaves the order without owner |
| RouteSteps.EtaTimeoutSound | bot/parallel_orders.py:1178-1196 | Two minutes without an arrival time keep the invariant |
| RouteSteps.ReleaseSound | bot/parallel_orders.py:1144-1163 | Giving a reservation back keeps the invariant, also in the middle of a trip's end |
| Taking.ReserveIff | bot/parallel_orders.py:553-643 | A driver has reserved the order afterwards if and only if he had, or he rides and has no reservation, nobody has or is offered it, no offer card of it lies open, nobody free waits for it, his ride leads to no village or to that of the order and not back, and the card, if he pressed one, is the live one of this ride; the whole new rows; otherwise no order and no driver changes |
| Taking.CardTaken | bot/parallel_orders.py:646-653 | A live card is always taken when nobody waits in the village, its driver has reserved nothing else and no offer card of the order lies open |
| Taking.ClaimDoes | bot/handlers.py:3174-3237 | A claim from the list succeeds if and only if the driver has neither ride nor offer, may work, has an active line, and nobody has the order or looks at it; the order is his ride, he is on the line and busy; otherwise nothing changes |
| Taking.ChatDoes | bot/handlers.py:6344-6474 | A claim from the chat succeeds if and only if he has no ride and nobody has the order; the offer that lay before him is withdrawn and no third order changes |
| Returning.DeclineCardDoes | bot/parallel_orders.py:786-827 | A declined live card is closed, its driver excluded for good, and the order falls back as FallbackLeaves says; no other order changes; a card that is not live does nothing |
| Returning.CardExpiryDoes | bot/parallel_orders.py:975-1048 | An expired card does the same and its trip is suppressed |
| Returning.DeclineReservedDoes | bot/parallel_orders.py:760-783 | A reservation given up falls back if its driver was heading for its village, and returns to the passenger queue otherwise |
| Returning.TimeUnnamedDoes | bot/parallel_orders.py:1178-1196 | A reservation is given back after two minutes if and only if no time was named |
| Returning.NamesTimeDoes | bot/parallel_orders.py:656-700 | Naming the time notes it for the driver who reserved the order, and changes nothing else |
| Trips.ReleaseKeeps | bot/parallel_orders.py:1051-1089 | After a trip's cards are released none names the trip, none is opened or readdressed, and committed orders stand still |
| Trips.RideOfIsRide | bot/handlers.py:148-184 | The menu lock finds the driver's one ride, and finds nothing exactly when he has none |
| Handoff.EndRideKeeps | bot/handlers.py:1911-1985 | Closing a ride leaves nothing of the trip but, perhaps, the reservation |
| Handoff.PromoteCloses | bot/parallel_orders.py:1199-1243 | Promotion makes the reservation the driver's one ride and restores the full invariant |
| Handoff.IdleCloses | bot/queue_service.py:174-188 | Without a reservation the driver may be put anywhere and the full invariant is restored |
| TripSafety.CompleteSound | bot/handlers.py:4346-4443 | Completing a ride keeps the invariant, and a reservation of its driver is his one ride afterwards (the rows left: Endings.CompleteDoes) |
| TripSafety.PassengerCancelSound | bot/handlers.py:1911-1985 | A passenger's cancellation keeps the invariant and orphans no reservation |
| TripSafety.ArriveSound | bot/parallel_orders.py:318-328 | Arrival, and the one card it may send, keep the invariant |
| CancelSafety.DispatcherCancelSound | bot/handlers.py:5214-5243 | A dispatcher's cancellation of anything but a reservation keeps the invariant and hands the reservation over |
| CancelSafety.DispatcherCancelOfReservation | bot/handlers.py:5220-5242 | Of a reservation it always destroys the invariant: the closed order stays in the name of its driver, who is shown as free at his place in the line, or as off line, in the middle of his ride |
| CancelSafety.AdminCancelSound | bot/admin_order_cancel_service.py:91-182 | An administrator's cancellation of any order keeps the invariant and orphans no reservation |
| CancelSafety.DriverCancelSound | bot/handlers.py:6164-6295 | A driver who breaks off the ride because of the customer leaves a lawful state, his reservation being his next ride |
| Endings.CompleteDoes | bot/handlers.py:4346-4443 | A finished ride is stored as completed and still its driver's; his reservation is his next ride; without one he is away, and off the line if he had joined it for this order only |
| Endings.PassengerCancelsRide | bot/handlers.py:1911-1985 | The passenger's cancellation stores his ride as cancelled and still its driver's, unless it has begun; the driver goes on to his reservation or is free at his old place |
| Endings.PassengerCancelsOrder | bot/handlers.py:1911-1985 | An order that is nobody's ride is cancelled and nobody is left with it |
| Endings.DispatcherCancelsRide | bot/handlers.py:5214-5243 | The same of a dispatcher's own order that is being ridden; nobody else's is touched |
| Endings.DispatcherCancelsOrder | bot/handlers.py:5214-5243 | The same of his order that nobody has: whoever looks at it waits again |
| Endings.AdminCancelsRide | bot/admin_order_cancel_service.py:91-182 | The administrator cancels at any time; the driver gets his place back only if he is on the line |
| Endings.AdminCancelsOrder | bot/admin_order_cancel_service.py:91-182 | The same of an order that is nobody's ride, unless it is over |
| Endings.DriverCancelDoes | bot/handlers.py:6164-6295 | A ride broken off because of the passenger is cancelled and still its driver's; he goes on to his reservation or is away |
| Endings.ReleaseFalls | bot/parallel_orders.py:1051-1089 | When a trip is over, exactly the orders with its card lose the card and fall back; no other order changes |
| BrokenEnds.CarFailureSound | bot/handlers.py:6296-6331 | A broken car gives ride and reservation back to the pool, provided no card comes back to its driver on the way |
| BrokenCar.CarMayBreakSuffices | bot/handlers.py:6296-6331 | None does if, in the state before, he has no reservation, or no open order could ride along with his trip, or no card lies with him and the check after the return of his reservation sends him none |
| BrokenCar.NobodyGetsCard | bot/parallel_orders.py:331-365 | No card comes back if no open order fits the trip |
| BrokenCar.ComesBackIff | bot/parallel_orders.py:1144-1163 | Where no card lies with the driver, one comes back, in a transaction that ends or not, if and only if that check sends it |
| BrokenCar.CardStays | bot/parallel_orders.py:421-483 | If one does, no later part of the transaction closes the card: it outlives the ride |
| BrokenEnds.QuietTripNoCard | bot/parallel_orders.py:331-365 | No card can return if the broken trip has not departed, is suppressed, leads to no village or includes its way back |
| BrokenEnds.NoReservationNoCard | bot/handlers.py:6237-6260 | Without a reservation no card can return |
| BrokenEnds.RefusalKeepsIff | bot/delivery_service.py:241-262 | Before the opportunity check, refusing the price or a stale chat request keeps the invariant if and only if the driver has neither reservation nor card |
| Road.CarDoes | bot/handlers.py:6296-6331 | A broken car ends a ride its driver had joined the line for; any other goes through the cascade, and he is away |
| Road.RefuseDoes | bot/delivery_service.py:241-262 | A refused ride is cancelled and the driver put where he belongs: off the line, at his old place, or at the tail of his line |
| Road.ArriveDoes | bot/parallel_orders.py:318-328 | Arrival is noted, and a card goes out if and only if the latest order a busy driver could take has none and some trip takes it |
| Road.RideNotes | bot/handlers.py:3833-3841 | The moment of departure is kept, once, and boarding starts the ride |
| Road.NoRideNotes | bot/handlers.py:3913-3916 | Without a ride neither these nor arrival change anything |
| PassengerSafety.CreateOrderSound | bot/handlers.py:1630-1751 | A new order always exists afterwards, unowned, and the invariant holds even if its dispatch failed |
| PassengerSafety.SubmitDirectKeeps | bot/order_service.py:299-373 | A personal request reaches exactly the chosen driver, who is committed nowhere, or no order is created |
| PassengerSafety.UpdateAddressIff | bot/handlers.py:6088-6133 | The address handler meets its purpose if and only if the order is unowned and open |
| PassengerSafety.UpdateAddressKeeps | bot/handlers.py:6105-6133 | On such an order it replaces the route alone, keeps refusals and suppression, and keeps the invariant |
| PassengerSafety.StepOutSound | bot/handlers.py:2738-2828 | Leaving or stepping away keeps the invariant although the opportunity check may offer the leaving driver an order in between |
| PassengerSafety.OnlineSound | bot/lines.py:252-272 | Joining, choosing or keeping a line keeps the invariant |
| PassengerSafety.ConfirmSound | bot/passenger_queue.py:440-495 | The answer to an actuality question keeps the invariant |
| PassengerSafety.DispatcherUnclaimedKeeps | bot/passenger_queue.py:192-231 | Closing a dispatcher's order after half an hour keeps the invariant and frees the driver looking at it |
| Requests.NewOrderDoes | bot/passenger_queue.py:133-189 | A new request exists afterwards, nobody's and dispatched: before the first driver of its line, in the chat, with a card on the first trip that takes it, before the first of Gornozavodsk, or parked; no other order and no driver changes |
| Requests.SubmitDoes | bot/order_service.py:299-373 | A personal request is offered to its driver if and only if he is still held and free; otherwise only the hold goes |
| Requests.SelectDoes | bot/handlers.py:883-964 | Selecting a driver gives up the earlier selection and holds him if and only if he waits in a line, may work and has nothing to do |
| Requests.DropDoes | bot/handlers.py:827-854 | Dropping a selection frees its driver, and the opportunity check runs |
| Requests.NewAddressDoes | bot/handlers.py:6088-6133 | A new address of an unowned open order puts it through the cascade afresh, before the fallback and with nobody excluded from cards; refusals stand |
| Requests.DispatcherExpiryDoes | bot/passenger_queue.py:192-231 | A dispatcher's order that nobody has is cancelled when its time is up, and whoever looks at it waits again; nothing else is touched |
| Requests.ChatExpiryDoes | bot/order_service.py:940-952 | A request is cancelled by the chat's timeout if and only if it is still in the chat |
| Shifts.GoesOnlineDoes | bot/handlers.py:2709-2735 | An idle driver with a ready car and a line of his own joins its tail, or that of the line he stepped away from; anybody else is refused |
| Shifts.PicksLineDoes | bot/lines.py:252-272 | Picking an active line makes it his own and puts him at its tail |
| Shifts.StaysOnLineDoes | bot/lines.py:304-324 | Staying puts him at the tail of his line if it is active, and merely shows him as free if not |
| Shifts.LeavesDoes | bot/lines.py:275-285 | An idle driver who leaves, and one whose half hour away is over, is off the line and out of the queue |
| Shifts.StepsOutDoes | bot/handlers.py:2738-2828 | Stepping out is refused unless he is idle; he is away in his place, or off the line |
| Shifts.HeldStepsOut | bot/handlers.py:2738-2828 | A driver held by a passenger drops the hold first, and in the end no order lies before him |
| PassengerQueue.TryPromoteKeeps | bot/passenger_queue.py:254-358 | The opportunity check keeps the invariant and leaves everybody who is committed, and every driver's flags and place, as they are |
| DriverLine.PickIsFirst | bot/queue_service.py:277-367 | The pick is the eligible driver standing first, and there is one exactly if somebody is eligible |
| DriverLine.RepairDoes | bot/queue_service.py:191-274 | The repair touches exactly the unengaged online drivers, gives each a waiting row, keeps positions distinct and adds rows at the tail |
| DriverLine.RepairIdempotent | bot/queue_service.py:191-274 | Repairing twice is repairing once |
| Fifo.RepairIsFair | bot/queue_service.py:191-274 | The repair frees nobody with a ride, reservation, live offer or hold, leaves everybody else a waiting row, and lets nobody overtake |
| Fifo.OfferFair | bot/order_service.py:376-523 | The cascade moves nobody's position, at any depth |
| Fifo.PromoteFair | bot/passenger_queue.py:254-358 | Neither does the opportunity check |
| FifoRuns.FirstIsAsked | bot/order_service.py:427-457 | If anybody on the consulted line is eligible, the order is put before one whom no eligible driver stands ahead of |
| FifoRuns.StepFair | bot/queue_service.py:37-63 | In every transaction, rolled back or not, everybody but a driver whom it takes off the line or sends to the tail in that state keeps his position, and newcomers stand behind all of them |
| FifoRuns.PatienceKeepsPlace | bot/queue_service.py:85-188 | Over all runs a driver whom no step takes off the line or sends to the tail keeps his position |
| FifoRuns.NobodyOvertakes | bot/queue_service.py:37-63 | Whoever stands ahead of such a driver after a run stood ahead of him before it, at the same position all the time |
| Desk.Session.JoinQueue | bot/queue_service.py:45-63 | In place: the driver waits on the line named, behind everybody, and no other row changes |
| Desk.Session.LeaveQueue | bot/queue_service.py:66-70 | In place: the driver's row is gone, every other row is as before |
| Desk.Session.StepAway | bot/queue_service.py:73-82 | In place: the driver steps away and keeps line and position, no other row changes |
| Desk.Session.ComeBack | bot/queue_service.py:85-95 | In place: he waits on the line he left, behind everybody, and no other row changes |
| Desk.Session.Assign | bot/queue_service.py:98-109 | In place: driver and row are busy, line and position kept, no other row changes |
| Desk.Session.LetGo | bot/queue_service.py:139-147 | In place: a reserved row waits again at its place, an away driver stays away |
| Desk.Session.SendToTail | bot/queue_service.py:150-161 | In place: a queued driver waits behind everybody on his line, any other is off line |
| Desk.Session.Restore | bot/queue_service.py:174-188 | In place: a queued driver waits at his old position, no other row changes |
| Desk.Session.EngagedDrivers | bot/queue_service.py:204-240 | In place: collects exactly the drivers with a ride, reservation, live offer or hold |
| Desk.Session.RepairVisiblyFreeDrivers | bot/queue_service.py:191-274 | In place: the state afterwards is the specified repair |
| Desk.Session.NextWaitingDriver | bot/queue_service.py:277-367 | In place: repairs, and returns the specified pick |
| Desk.Session.ClaimAutoOfferTrip | bot/parallel_orders.py:368-387 | In place: the scan finds the specified trip |
| Desk.Session.NotifyBusy | bot/parallel_orders.py:421-483 | In place: at most one card, exactly as specified |
| Desk.Session.OfferNext | bot/order_service.py:376-523 | In place: the mutually recursive cascade leaves exactly the specified state, also when it runs out of stack |
| Desk.Session.NoDriver | bot/order_service.py:807-937 | In place: the no-driver step, of which Dispatched.CascadeLeaves says what it leaves |
| Desk.Session.FallBack | bot/parallel_orders.py:885-972 | In place: the fallback step |
| Desk.Session.Promote | bot/passenger_queue.py:254-358 | In place: the loop over parked requests with its early exits leaves the specified state, although every probe repairs the queue anew; whom it asks and whom it offers is in Prompts and Questions |
| Desk.Session.ReleaseTripOffers | bot/parallel_orders.py:1051-1089 | In place: all cards of a trip are closed and their orders handed on |
| Desk.Session.FindReserved | bot/parallel_orders.py:1199-1206 | In place: finds the driver's earliest reservation |
| Desk.Session.PromoteAfterCurrent | bot/parallel_orders.py:1199-1243 | In place: the reservation becomes the ride |
| Desk.Session.ExpireOffer | bot/order_service.py:526-594 | In place: the timeout of an offer |
| Desk.Session.AcceptOffer | bot/handlers.py:3367-3442 | In place: the acceptance, with and without a car, of which Answers.AcceptDoes, NoCarDoes and AcceptUnshown say what it leaves |
| Desk.Session.ExpireCard | bot/parallel_orders.py:975-1048 | In place: the timeout of a card |
| Desk.Session.CancelFromAdmin | bot/admin_order_cancel_service.py:91-182 | In place: the administrator's cancellation, and whether it changed anything |
| Desk.Session.OfferExpiryTransaction | bot/order_service.py:526-594 | In place: one session, rolled back as a whole when the stack runs out; the invariant holds either way |
| Desk.Session.ReconcileOnce | bot/accept_timeout_service.py:25-65 | In place: the watchdog's pass is the run of the timeouts it collected, each with an environment and a stack of its own, keeps the invariant and repairs no more than it collected |
| Markers.MarkerRoundTrip | bot/outbox_service.py:83-100 | Parsing the printed marker gives back both ids after any number of finalization suffixes |
| Markers.MessageOnly | bot/outbox_service.py:305-310 | A marker without a chat id gives back the message id and no chat id |
| Texts.RTrim | bot/keyboards.py:35-39 | What is cut off is blank, what is kept is a prefix that does not end in a blank, in any script |
| Outbox.RunInv | bot/outbox_service.py:235-332 | The invariant of one message and its worker holds over every sequence of events |
| Outbox.WithdrawalAbsorbs | bot/outbox_service.py:582-617 | After a successful withdrawal no claim, send result, deletion, finalization, event or restart makes the message pending, sending, failed or sent, hands it over again or edits it |
| Outbox.WithdrawnUnsent | bot/outbox_service.py:264-275 | A message withdrawn before it was handed over is never handed over |
| Outbox.FinalizedForEver | bot/outbox_service.py:470-529 | After a successful finalization every later send or edit carries no buttons, no copy with buttons appears but one that was on its way, and if the card is handed over once, no copy shows any whenever the row says sent |
| Outbox.InFlightFinalized | bot/outbox_service.py:300-332 | A card finalized in flight stays in a finalize state after the send succeeds or the process dies, and keeps its empty keyboard in every case |
| Outbox.FinalTextKeeps | bot/outbox_service.py:506-518 | The trimmed original stays a prefix, the result is contained, and repeating the call adds nothing |
| Outbox.EventOrderIrrelevant | bot/outbox_service.py:160-163 | Whether the messenger's report of a row comes before or after the answer to its sending, the status is the same, and the stored ids are if and only if answer and report do not name different ones |
| Matching.OwnRowByRandom | bot/outbox_service.py:103-120 | A report with the random id of one row finds that row, whatever the texts and the order of the reports |
| Matching.InOrder | bot/outbox_service.py:120-138 | Without random ids the n-th report of one text gives its chat id to the n-th open row of that text among the first hundred, and to no other row |
| Matching.SwappedIds | bot/outbox_service.py:120-138 | Two such reports that change places exchange the ids of their rows |
| Matching.FinalizedFoundIff | bot/outbox_service.py:139-155 | A card finalized in flight fits a report of its original text if and only if nothing was added or the note begins with line breaks that make up for the blanks cut off the original; always if none were cut off |
| Matching.BlankHides | bot/outbox_service.py:139-155 | A concrete card with a blank at its end that is found by neither search |
| Matching.FindIs | bot/outbox_service.py:103-155 | The row a report is matched with: the latest of its random id, else the first in sight that awaits its text, else the first finalized meanwhile, else none |
| Outbox.FinalizedIdsStay | bot/outbox_service.py:519-529 | Both ids survive any number of finalizations |
| OutboxFaults.DeletionLost | bot/outbox_service.py:656-703 | A concrete run from a new card: withdrawn, its deletion claimed, the process restarted; whatever follows, the card stays in the chat with its ids known |
| OutboxFaults.DeletedAfterRestartIff | bot/outbox_service.py:656-703 | A withdrawn message with usable ids can be deleted after a restart if and only if its deletion was not claimed at that moment |
| OutboxFaults.FinalizedUnsent | bot/outbox_service.py:532-579 | A concrete run from a new card: claimed, then finalized; whatever follows, it is never handed over |
| OutboxFaults.HandedAgainIff | bot/outbox_service.py:470-529 | After a successful finalization the card can be handed over once more if and only if it had not been claimed yet or is in flight |
| OutboxFaults.LateIdsLost | bot/outbox_service.py:373-431 | A concrete run from a new card whose ids arrive while its deletion is being given up: they are lost and the card stays |
| OutboxFaults.LateIdsKeptIff | bot/outbox_service.py:373-431 | Ids that arrive in the course of a deletion without ids are kept if and only if they arrive before the row is read, after the deletion has ended, or the message is recent |
| OutboxFaults.IdsLostIff | bot/outbox_service.py:373-431 | Of a withdrawn message not in flight the usable ids are lost by exactly one step: giving up a deletion that read the row without them |
| OutboxFaults.OldCardSeen | bot/outbox_service.py:275-345 | A concrete run in which the row says sent without buttons while an older copy still shows them |
| OutboxFaults.LeftOverIff | bot/outbox_service.py:470-529 | From the state at the call: a copy with buttons can outlive a finalization beside a row that says sent if and only if the call leaves one in the chat or on its way and the card is still to be sent again or has a second copy |
| Delivery.HandedIff | bot/outbox_service.py:264-300 | A message is handed over by one step alone, the reading of a claimed row still to be sent, and what is handed over is the row's own text and keyboard |
| Delivery.EditedIff | bot/outbox_service.py:434-579 | Exactly which steps ask for an edit, and its text and keyboard |
| Delivery.AnswerDoes | bot/outbox_service.py:300-345 | The status after the answer to a send, whatever was wanted of the message meanwhile |
| Delivery.AnswerKeepsIds | bot/outbox_service.py:300-345 | The ids an answer brings are stored, beside those reported before |
| Delivery.BecomesSentIff | bot/outbox_service.py:300-345 | A row comes to say sent by exactly the steps listed |
| Delivery.CrashDoes | bot/outbox_service.py:333-345 | A crash on the way: the message will be sent again unless something else was wanted of it, and a copy may be out |
| Delivery.ClaimsDo | bot/outbox_service.py:235-261 | Which rows each of the three claims takes, and what it makes of them |
| Delivery.StaleSuppressed | bot/outbox_service.py:64-80 | A card of an order that is over is cancelled instead of handed over |
| Delivery.DeletionDoes | bot/outbox_service.py:373-431 | The end of a deletion: done, asked for again, or given up |
| Delivery.FinalizeDoes | bot/outbox_service.py:470-529 | The row after a finalization, in every status |
| Delivery.FinalRunDoes | bot/outbox_service.py:554-579 | The row after a requested finalization has been carried out, or could not be |
| Delivery.UpdateDoes | bot/outbox_service.py:434-467 | The row after its text is rewritten, in every status |
| Delivery.WithdrawDoes | bot/outbox_service.py:582-617 | The row after a withdrawal, in every status |
| Delivery.ReportDoes | bot/outbox_service.py:158-163 | The messenger's report stores both ids and brings a given-up deletion back |
| Delivery.RestartDoes | bot/outbox_service.py:656-703 | A restart takes up what the last process was doing, but not its deletions |
| Mailbox.Table.ClaimBatch | bot/outbox_service.py:235-261 | In place: abandoned rows return, then at most one batch of due rows is claimed, lowest first, and every other row is untouched |
| Mailbox.Table.ClaimRequested | bot/outbox_service.py:351-370 | In place: the same for requested deletions and finalizations |
| Mailbox.Table.Recover | bot/outbox_service.py:656-703 | In place: every row as a restart leaves it |
| Mailbox.Table.CancelOrDelete | bot/outbox_service.py:582-617 | In place: one row withdrawn, and whether it was |
| Mailbox.Table.FinalizeTracked | bot/outbox_service.py:470-529 | In place: one row finalized, and whether it was |
| Timers.ScheduleRefines | bot/timers.py:127-134 | Scheduling is setting one key of a plain map from keys to alarms; the earlier generation is gone |
| Timers.CancelRefines | bot/timers.py:209-213 | Cancelling is removing one key |
| Timers.LookRefines | bot/timers.py:104-121 | Dropping a dead record is invisible; what fires is a live, due alarm than which none is earlier, and of equal deadlines the one set first |
| Timers.WakeFires | bot/timers.py:104-121 | The loop fires if and only if a live alarm is due, however many dead records lie above it |
| Timers.RestartRestores | bot/timers.py:296-318 | After a restart exactly the durable rows are live, each at its time or at once if that has passed |
| Timers.AttendanceIff | bot/timers.py:39-51 | Every durable row has a live timer or a running callback, and this is lost exactly by a rolled back cancellation of an idle row |
| Timers.RowAfterRun | bot/timers.py:84-101 | A successful run removes its row if and only if no newer timer of the key is live; a failed run keeps it and retries after fifteen seconds |
| Timers.FailureReplacesNewer | bot/timers.py:51-81 | The retry of a stale callback replaces a newer live timer of its key |
| Timers.AlarmSurvivesIff | bot/timers.py:84-134 | Short of a restart a live alarm survives an event, with its deadline and callback, if and only if it is not set anew or cancelled, does not fire, and no running callback of its key fails |
| Timers.Desk.Push | bot/timers.py:132-134 | In place: the record goes to its sorted place |
| Timers.Desk.Schedule | bot/timers.py:127-206 | In place: refines setting one key, negative delays counting as none |
| Timers.Desk.Cancel | bot/timers.py:209-225 | In place: refines removing one key, and says whether it was live |
| Timers.Desk.Serve | bot/timers.py:104-121 | In place: one round fires an earliest due alarm if and only if one is due, and changes no other |
| Abuse.CollectorInvisibleFromStart | bot/abuse_service.py:69-77 | For every history with a monotone clock the verdicts and alerts with the collector equal those without it |
| Abuse.CollectorInvisible | bot/abuse_service.py:103-204 | The same from any two states that judge alike |
| Abuse.StaleIsFresh | bot/abuse_service.py:69-77 | A state idle for a day with its mute expired judges everything like a new one |
| Abuse.HandleAlike | bot/abuse_service.py:126-181 | Alike states give one event the same verdict and stay alike |
| AbuseBounds.RateBound | bot/abuse_service.py:129-140 | Counting all earlier events, an allowed event is at most the tenth of any ten seconds and the fiftieth of any minute |
| AbuseBounds.MuteHolds | bot/abuse_service.py:182-204 | Nothing is allowed while muted, and no event shortens a mute |
| AbuseBounds.MuteNeverShrinks | bot/abuse_service.py:141-164 | Over any run the end of the mute never moves back |
| AbuseBounds.ViolationsBounded | bot/abuse_service.py:141-164 | The day's violations never exceed twenty-five, over any run |
| AbuseBounds.Limiter.CleanUp | bot/abuse_service.py:69-77 | In place: idle users are forgotten, at most once an hour |
| AbuseBounds.Limiter.AllowEvent | bot/abuse_service.py:103-204 | In place: exempt users change nothing; everybody else gets the specified verdict and state |
| Limits.RateIff | bot/abuse_service.py:126-164 | Over every run, a user who is not muted is stopped for his rate if and only if his tenth press before this one lies within ten seconds, or his fiftieth within a minute |
| Limits.SlowIsAllowed | bot/abuse_service.py:126-204 | Who is slow, not muted, and presses no watched button is let through |
| Limits.RateVerdict | bot/abuse_service.py:141-164 | The verdict, the length of the mute and the note to the administrator after too many events |
| Limits.MutedVerdict | bot/abuse_service.py:129-140 | A muted user is not heard, and a flood makes of the first minute a quarter of an hour |
| Limits.RepeatVerdict | bot/abuse_service.py:155-167 | The fourth press of a button in ten seconds warns; a later one mutes for an hour while the warning stands |
| Limits.DuplicateVerdict | bot/abuse_service.py:169-181 | A press is swallowed if and only if it repeats a deduplicated one within a second |
| Limits.CleanupForgets | bot/abuse_service.py:69-77 | At most once an hour exactly the users are forgotten who have sent nothing for a day and are not muted |
| Waiting.SnapshotIsFinal | bot/waiting_service.py:96-111 | Looking at the meter and freezing it at the same instant give the same bill |
| Waiting.RideWithinTotal | bot/waiting_service.py:48-74 | Over any run of start, stop and boarding the seconds of the ride are part of the total |
| Waiting.BillMonotone | bot/waiting_service.py:83-98 | Minutes and cost never fall while the clock runs |
| Waiting.PauseGrantsNothing | bot/waiting_service.py:42-58 | After a pause of any length the meter shows what it would have shown without it, less its length, and at most one second less |
| Waiting.MeterStores | bot/waiting_service.py:48-58 | After any windows the meter has grown by exactly their stored seconds, and by as many for the ride if they were opened during it |
| Waiting.EqualTotalsEqualBills | bot/waiting_service.py:83-98 | Two series of windows that store equal totals give equal bills |
| Waiting.CutsNeverCost | bot/waiting_service.py:48-98 | Cutting a wait into n windows never raises the bill and takes less than a minute and n seconds off it, before boarding and during the ride |
| Waiting.TruncationBound | bot/waiting_service.py:48-58 | n windows lose less than n seconds and never gain |
| Waiting.MinutesClose | bot/waiting_service.py:83-93 | Rounding to minutes moves a total by thirty seconds at most |
| Waiting.OrderMeter.StopWaiting | bot/waiting_service.py:48-58 | In place: the running window is added to the totals and reported |
| Waiting.OrderMeter.Finalize | bot/waiting_service.py:101-111 | In place: the stored bill is the snapshot of that instant |
| Waiting.AllowanceEach | bot/waiting_service.py:83-93 | Waiting before boarding and on the ride have a free allowance each, and the minutes beyond it are paid |
| Waiting.FreeIff | bot/waiting_service.py:83-93 | Nothing is charged if and only if neither exceeds its allowance |
| Waiting.MinutesAre | bot/waiting_service.py:83-93 | Minutes are rounded to the nearest, half a minute to the even one |
| Waiting.MeterDoes | bot/waiting_service.py:42-58 | A window is opened at most once and closed with its whole seconds, which count for the ride only if it was opened on it |
| Eta.PromotionKeepsPromise | bot/parallel_orders.py:1205-1224 | Promotion never moves the promised arrival earlier, and by less than a minute later unless it is overdue |
| Eta.ShownAcrossPromotion | bot/handlers.py:1871-1886 | The minutes shown just before and just after are equal if and only if some are left |
| Eta.CountdownAfterPromotion | bot/handlers.py:1871-1886 | From then on the two countdowns never differ by more than a minute |
| Eta.ShownIsLeast | bot/handlers.py:1871-1886 | The minutes shown are the least in which the promised moment is reached, none without a promise |
| Keyboards.Keyboard | bot/keyboards.py:53-103 | Refused if and only if there are more buttons than places; otherwise the buttons are the same in the same order, with fitted captions, within both limits and without empty rows; the shape is the given one if that has few enough rows, and otherwise full rows of the least width that fits |
| Keyboards.FitLabelFits | bot/keyboards.py:35-39 | A fitted caption has at most forty characters, loses nothing but what is beyond the cut and the blanks before it, and fitting again changes nothing |
| Keyboards.WidthFits | bot/keyboards.py:78-93 | The width chosen by ceiling division is within the limit and needs no more rows than there are |
| Keyboards.NormalizedDo | bot/keyboards.py:58-77 | Cutting rows keeps the flattened sequence, bounds every row and leaves none empty |
| Keyboards.WidthIsLeast | bot/keyboards.py:78-93 | The width chosen in the compact layout is the least that fits |

## Left out

- BrokenCar.CarMayBreakSuffices: exact if no card lies with the driver (Findings.CarFailureIff); if one does, giving it back first may change who waits, and the three conditions are sufficient and not claimed to be necessary.
- BrokenEnds.RefusalKeepsIff: speaks of the state before the opportunity check that follows a refusal in the chat; Findings.RefusalStepIff speaks of the whole step.
- Personal.StraysIff: for a broken car with a card or a reservation the state in which the request looks for a driver is the one after both have been given back.
- CancelSafety.DispatcherCancelSound: restricted to orders that are not reservations, because DispatcherCancelOfReservation shows that the code is unsound on those.
- Matching.InOrder: which rows are recent does not change in the course of the reports.
- OfferSteps.UnreachableSound: a personal request that a new address has sent to a stranger and back carries an ordinary card text, which the model takes for a personal one.
- Protocol.LateClaimChangesNothing: a claim from the chat may take an order in front of another driver, since the code does not look at the offer there; that case is not late.
- CascadeDepth.CascadeEndsIffNotStuck: needs two frames of stack, the least with which an order that is not stuck can end.
- The conversation state of users, with its copy of the current offer, and legacy rows written by earlier versions.
- Bookings, false-call debts, ratings, tariffs, promo codes, penalties and blocking, the price negotiation before a delivery starts.
- Limits on ordering: bans, working hours, one open order per passenger.
- Changes of role, temporary drivers whose term ends, and two driver cancellation handlers that no button reaches.
- The passenger's choice to wait or give up (`wait_choice`), which cancels an order or sends a card: no message of the program offers its two buttons (`passenger_wait_choice_keyboard` is never used), so only a card from an earlier version could reach it.
- The order of rows by creation time, which is the order of their numbers here; positions in the passenger queue, which are the order of a sequence here.
- Rows skipped because another session holds their lock: one step sees the whole table.
- Delays and attempt counts of outbox retries, and the recovery of payment details that could not be delivered.
- The heap as an array: the model keeps its records in the order in which the heap gives them out.
- Branches taken when the database is out of reach inside a timer.
- Real threads and condition variables: a section under a lock is one step.
- Rounding of money to two decimals, and floating-point rounding of clocks, which are real numbers here.
- Messages, texts, menus, pictures and everything else the messenger is asked for; a result of it is an input of the step.
- Recognition of cities and of the way back in the text of a request: an order carries what was recognized.
- Button objects that are not well formed.
