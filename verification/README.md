# InterDoor federation: a verified model

InterDoor joins independently run nodes of a door game through one hub. Each node keeps an append-only event log, two sync cursors, a mark for
every handler it has run on every foreign event, a table of obligations, player rows and inventories. The hub keeps one deduplicated
feed, an index of debts, queues of attacks and journeys, and player locations. Requests and replies get lost, either side may stop between any two
database statements, and everything is retried.

This project models that federation in Dafny and proves what it keeps over whole runs. Every theorem about runs is for all runs: any
number of nodes, any interleaving, any loss, any stop.

The modules, in reading order:

- `Ids`, `Events`, `Ledger`: identifiers, events and the queries on them, and the three ways a debt event changes a table.
- `Protocol`: the federation as a state machine. A step is a local operation, one hub statement, or one piece of a sync tick.
- `Replication`, `Delivery`: the replication invariant and what it means for readers of a log.
- `Causality`, `Status`, `Weights`: order of debt events, uniqueness of ids, agreement on status and on weights, crash replay.
- `Traces`: what one step can do to one node. `Crashes`, `CrashFree`, `OnePayer`, `UndonePayment`: handlers that run again after a stop.
- `Projection`, `HubLedger`, `CalmHub`, `PayerIndex`, `RowAgreement`, `StaleIndex`, `LateReply`: exactly when the hub's debt index is right, and runs after which it is wrong.
- `Ages`: when each obligation was made, on every node. `Ticks`, `TickLaws`, `Engine`: one tick as a function and as a run, what it delivers and where it stops, catching up, and the
  store, hub store and sync loop as objects updated in place.
- `Payments`: oldest-first payment.
- `Travel`, `Whereabouts`, `Homes`, `NodeTravel`: the hub's travel desk, where a character can be played and belongs, and the node's closures.
- `Barter`: paying with goods. `Loot`, `Arena`: goods taken in fights across nodes.
- `Gate`, `GateLaws`, `HubServer`, `Wire`: what the hub lets in.

Node ids are taken to contain no colon, as runs start (`Protocol.Start`); the identifier lemmas say which facts need that.
Clock readings, random numbers, combat outcomes, which statement fails and how far the hub gets are inputs of the steps.

Where code and documentation differ, the model follows the code:

- Projecting debts is described as idempotent (`games/ledgerofthelow/internal/hub/server.go:183`). It is, but it does not commute:
  a change projected before the creation is dropped for good. If the hub stops between appending and projecting, or handles two pushes at once, another
  node may pull the debt, pay it and have the payment projected first. The index then shows the debt open for ever, with a single payer and all events
  delivered. `StaleIndex.HubCanStayBehind` is such a run. `Projection` says for all runs what the index shows and exactly when hub and nodes agree on status;
  `RowAgreement` says for all runs with one payer exactly when the whole row agrees. `PayerIndex` puts the condition in terms of the payer's push cursor, for runs in which a push
  and the processing of its reply are one step; `LateReply` is a run in which they are not and the cursor misleads. `CalmHub` shows that the index is always right when moreover no push
  stops part way.
- Handlers are described as running once per event and index (`games/ledgerofthelow/internal/engine/obligations.go:127-131`). They run again when the node
  stops before the mark. `Crashes.RerunIff` says exactly when that changes a table, `UndonePayment` is a run in which it undoes a payment, and
  `CrashFree` proves that it does not matter in any run in which it does not do so, and `OnePayer` that it never does with one payer for every obligation.
- The travel queue is meant to keep a character in one place. It does so if a departure is one step, starts from an active row and gets the
  hub's answer, and a report of arrival takes effect before the node gives up on it or never. `Whereabouts` proves that, and has a family of failing runs for each
  condition dropped.
- A number field may be `null`: decoding null into a number succeeds (`games/ledgerofthelow/internal/hub/server.go:283-292`).

## Model

| member | source | states |
|---|---|---|
| `Ids.EventIdInjective` | games/ledgerofthelow/internal/engine/store.go:366-371 | Event ids formatted from node and number are equal only for equal node and number, for any node ids at all |
| `Ids.ObligationIdInjective` | games/ledgerofthelow/internal/engine/obligations.go:29-30 | The same for obligation ids |
| `Ids.RecoveryExact` | games/ledgerofthelow/internal/engine/store.go:129-137 | Start-up reads back every number ever written into an obligation id exactly when the node id contains no `:o_` |
| `Ids.RefNodeOfPlayer` | games/ledgerofthelow/internal/hub/server.go:383-388 | The node read out of a player id is the node it was made with exactly when that node id has no colon |
| `Causality.IdsNeverReused` | games/ledgerofthelow/internal/engine/store.go:116-139 | In every run with restarts and failed inserts, no two stored events share an id and no two creations share an obligation id, on one node or across nodes |
| `Causality.OwnIdsReadBack` | games/ledgerofthelow/internal/engine/store.go:129-137 | In every run, each of a node's own obligation ids reads back as the number it was made with, which is at most the counter |
| `Engine.Store.MaxSeq` | games/ledgerofthelow/internal/engine/store.go:121-127 | The recovered event counter is the highest number in the node's own events, zero if there are none |
| `Events.EventsSinceIsSuffix` | games/ledgerofthelow/internal/engine/eventlog.go:37-59 | On an ordered log, selecting one source past a cursor and sorting returns exactly the log past the cursor |
| `Events.FeedSinceIsPage` | games/ledgerofthelow/internal/hub/sqlite.go:213-243 | A page of the feed is the next entries of other nodes past the cursor, without gaps, up to the limit |
| `Engine.Store.MaxObligation` | games/ledgerofthelow/internal/engine/store.go:129-137 | The highest number read back from the ids of the node's own obligations, whatever its sign, zero if there are none |
| `Engine.Store.Migrate` | games/ledgerofthelow/internal/engine/store.go:116-139 | Start-up leaves the tables alone and is the protocol's restart step |
| `Engine.Store.CreateObligation` | games/ledgerofthelow/internal/engine/obligations.go:27-49 | A new row, made now and open, and its debt.created; when the id is taken, an error and only a used-up number; when the event cannot be inserted, the row without the event, and an error |
| `Engine.Store.Emit` | games/ledgerofthelow/internal/engine/store.go:359-372 | The number is used up even if the insert fails; otherwise exactly one event is appended |
| `Engine.Store.RunHandler` | games/ledgerofthelow/internal/engine/eventlog.go:75-101 | One round of the handler loop: skipped only on a repeated event whose handler is marked, otherwise run and marked; for each failing statement the table, marks and runs it leaves are given outright |
| `Engine.Store.ApplyEvent` | games/ledgerofthelow/internal/engine/eventlog.go:65-103 | A failing insert changes nothing; otherwise the row is stored once and the handler loop ends in the state of the protocol's handler steps, failures at any statement included. Without a fault a new debt event leaves exactly its row in the table: a creation the whole row, made at the event's time; a change only status or weight of an open row |
| `Engine.EventStore.AppendEvents` | games/ledgerofthelow/internal/hub/sqlite.go:196-211 | Appends, in order, exactly the events whose id is new, up to where the hub stops; reports how many |
| `Engine.EventStore.MaterializeEvents` | games/ledgerofthelow/internal/hub/sqlite.go:350-395 | The debt index becomes the projection, in order, of the events whose statement did not fail, up to where the hub stops |
| `Engine.SurvivingIs` | games/ledgerofthelow/internal/hub/sqlite.go:350-395 | The events so projected are exactly those of the batch whose statement did not fail |
| `Engine.Syncer.Tick` | games/ledgerofthelow/internal/fed/fed.go:312-346 | Node and hub end in the state of the tick function for every combination of lost requests, lost replies, hub stops and handler faults; `TickLaws` says what that state is |
| `TickLaws.PushLaw` | games/ledgerofthelow/internal/fed/fed.go:321-333 | After the push part of any tick the feed holds of the node's own log exactly the longer of what it held and what lies before the end of the appended part, in order |
| `TickLaws.PushProjects` | games/ledgerofthelow/internal/fed/fed.go:321-333 | The index has been projected over exactly the events past the push cursor that the hub got to, and over none before all are appended |
| `TickLaws.PushDone` | games/ledgerofthelow/internal/fed/fed.go:325-333 | The push counts as done exactly when there is nothing to send or all of it was projected and the reply arrived; then the cursor is at the end of the log, with nothing past it, and otherwise where it was |
| `TickLaws.TickStops` | games/ledgerofthelow/internal/fed/fed.go:312-346 | Without a heartbeat nothing happens; a push that is not done or a failed pull ends the tick with nothing applied; with something to send and no reply the tick is not done and the push cursor stays |
| `TickLaws.LuckyTickDelivers` | games/ledgerofthelow/internal/fed/fed.go:312-346 | After a tick in which nothing goes wrong the feed has the node's whole log, nothing of it lies past the push cursor, and the index is the old one projected over what lay past the old cursor |
| `TickLaws.CursorStopsAt` | games/ledgerofthelow/internal/fed/fed.go:339-346 | If the insert or the cursor of a pulled event fails, the tick is not done and the hub cursor is at the event before |
| `TickLaws.HandlerStops` | games/ledgerofthelow/internal/engine/eventlog.go:75-101 | A due handler that fails or cannot be marked stops the event |
| `TickLaws.AllMarkedAfter` | games/ledgerofthelow/internal/engine/eventlog.go:74-103 | Without a fault every handler of the event ends up marked |
| `TickLaws.NewEventTable` | games/ledgerofthelow/internal/engine/obligations.go:132-206 | Without a fault a new event changes the table as one run of the mirror does, however often the mirror is registered, and not at all if it is not |
| `Ticks.TickIsRun` | games/ledgerofthelow/internal/fed/fed.go:312-346 | Every tick, whatever goes wrong in it, is a run of the protocol; so all theorems about runs hold of ticks |
| `Ticks.LuckyTick` | games/ledgerofthelow/internal/fed/fed.go:334-346 | A tick in which nothing goes wrong takes 500 entries, or all there are, off the backlog of foreign entries, own events notwithstanding |
| `Ticks.CatchesUp` | games/ledgerofthelow/internal/fed/fed.go:96-116 | A node b foreign entries behind has exactly max(0, b - 500k) left after k such ticks; it has caught up exactly when k is at least b / 500 rounded up |
| `Replication.StepKeepsInv` | games/ledgerofthelow/internal/fed/fed.go:312-346 | Every single step of the protocol, including each hub statement of interleaved pushes, keeps the replication invariant |
| `Delivery.ReplicaIsPrefix` | games/ledgerofthelow/internal/engine/eventlog.go:37-103 | In every run, the events of a stored on b are a gap-free prefix of a's own log, contents included, in number order |
| `Delivery.FeedIsPrefix` | games/ledgerofthelow/internal/hub/sqlite.go:196-211 | With any number of overlapping or retried pushes in flight, the feed restricted to a node is an in-order prefix of its log and has everything at or below its push cursor |
| `Delivery.PassedIsApplied` | games/ledgerofthelow/internal/engine/eventlog.go:65-131 | Every foreign feed entry at or below a node's hub cursor is stored with all its handlers marked applied; the marked handlers of an event are always a prefix of its handler list |
| `Delivery.MarkedNeverRunsAgain` | games/ledgerofthelow/internal/engine/eventlog.go:74-90 | Once a handler is marked applied, no later part of any run executes it |
| `Causality.CausalOrder` | games/ledgerofthelow/internal/engine/obligations.go:87-125 | In every reachable feed and node log, an obligation's debt.created comes before everything that changes it, whoever paid |
| `Ages.MirroredAge` | games/ledgerofthelow/internal/engine/obligations.go:133-155 | In every run, on every node, the row of another node's obligation has the creation time, maker and terms of the debt.created event of that id in the node's log |
| `Ages.MirroredHasEvent` | games/ledgerofthelow/internal/engine/obligations.go:133-155 | And that log has such an event |
| `Ages.AgeStays` | games/ledgerofthelow/internal/engine/obligations.go:132-206 | No step of any run changes when, by whom or on what terms an obligation was made, or removes it |
| `Ledger.MirrorAndProjectionAgree` | games/ledgerofthelow/internal/hub/sqlite.go:350-395 | Row by row, a node's mirror and the hub's projection are the same function of the event, although the SQL differs |
| `Status.StatusConverges` | games/ledgerofthelow/internal/engine/obligations.go:132-206 | Once everything is delivered and applied, every node has exactly the obligations anyone created and holds for resolved exactly those anyone resolved, however many nodes paid and however payments and pulls interleaved |
| `Status.ResolvedStays` | games/ledgerofthelow/internal/engine/obligations.go:157-189 | No node goes back from resolved to open in any run |
| `Status.HubResolvedStays` | games/ledgerofthelow/internal/hub/sqlite.go:374-392 | Nor does the hub |
| `Weights.WeightsConverge` | games/ledgerofthelow/internal/engine/obligations.go:174-188 | With one payer per obligation, once everything is delivered every node has the row the feed gives, weight included |
| `Crashes.RerunIff` | games/ledgerofthelow/internal/engine/eventlog.go:74-101 | In every run, when the debt handler is about to run again on an event it has run on and the node has not finished, the second run changes the table exactly when the event is an adjustment of a still open obligation which the node itself has adjusted since |
| `CrashFree.CompanionRun` | games/ledgerofthelow/internal/engine/eventlog.go:74-101 | Every run in which no second run of a debt handler changes a table has a companion in which each handler is marked as soon as it has run, and which ends with the same hub and, on every node, the same log, whole table, cursors, counters and, where no mark is outstanding, marks |
| `OnePayer.CrashesDoNotMatter` | games/ledgerofthelow/internal/engine/eventlog.go:74-101 | With one payer for every obligation no second run ever changes a table, so every run has such a companion |
| `UndonePayment.ReplayUndoesAPayment` | games/ledgerofthelow/internal/engine/obligations.go:174-188 | With two payers this fails: a run in which a node pays 7 down to 5 between a stop and the next try, and the next try puts the 7 back |
| `Projection.IndexIsProjection` | games/ledgerofthelow/internal/hub/sqlite.go:350-395 | In every run, with any interleaving, repetition, break-off or failed statement, the debt index is the projection of the run's projection history |
| `Projection.IndexRow` | games/ledgerofthelow/internal/hub/sqlite.go:350-395 | In every run each row of the index, weight included, is what the projection history makes of it, by the same row function that the nodes' mirrors follow |
| `Projection.IndexShows` | games/ledgerofthelow/internal/hub/sqlite.go:374-384 | In every run the index has an obligation exactly when a creation of it was projected, and shows it resolved exactly when some resolution of it was projected while its row was there |
| `Projection.HubAgreesIff` | games/ledgerofthelow/internal/hub/sqlite.go:350-395 | Once everything is delivered and applied, hub and node agree that an obligation is resolved exactly when nobody resolved it or some resolution was projected on time, and agree that it exists exactly when its creation, if any, was projected |
| `Projection.AcknowledgedWasProjected` | games/ledgerofthelow/internal/hub/server.go:178-187 | If no projecting statement fails unnoticed, every event at or below its source's push cursor has been projected, however pushes overlapped |
| `Projection.HubDiffersOnlyEarly` | games/ledgerofthelow/internal/hub/server.go:178-187 | So once everything is delivered, applied and acknowledged the hub has every obligation the nodes have, never a resolution they lack, and lacks a resolution exactly when it was always projected too early |
| `RowAgreement.PayersRowIff` | games/ledgerofthelow/internal/hub/sqlite.go:350-395 | In every run with one payer, whatever overlaps, stops or is still on its way: the hub's row equals the payer's exactly when the creation was projected, some resolution was projected on time if the payer resolved, and the last adjustment that found the row there and open is the payer's last, if the payer adjusted |
| `RowAgreement.HubRowAgreesIff` | games/ledgerofthelow/internal/hub/sqlite.go:350-395 | Once everything is delivered and applied, the same condition decides whether the hub's row equals every node's |
| `PayerIndex.SerialRowIff` | games/ledgerofthelow/internal/hub/server.go:178-187 | If each push and the processing of its reply is one step, with stops anywhere in the push, and the payer's log is acknowledged, the condition reads: the payer made the obligation, or its row had entered the index before the payer's last adjustment and its last resolution, where there are any, were acknowledged |
| `PayerIndex.SerialRowAgreesIff` | games/ledgerofthelow/internal/hub/server.go:178-187 | Under the same restriction and once everything is delivered and applied, this decides whether the hub's row equals every node's |
| `LateReply.CursorIsNotEnough` | games/ledgerofthelow/internal/fed/fed.go:321-333 | Without that restriction the push cursor does not decide it: a run in which pushes do not overlap at the hub but a reply is processed after the next push, with one payer, an acknowledged log, nothing acknowledged when the row entered, and a hub that shows the debt open |
| `StaleIndex.HubCanStayBehind` | games/ledgerofthelow/internal/hub/server.go:178-184 | The condition can fail: a run with one payer that ends with everything acknowledged and applied, both nodes resolved and the hub open |
| `CalmHub.IndexFollowsFeed` | games/ledgerofthelow/internal/hub/sqlite.go:350-395 | If each push, with the processing of its reply, is one step and is handled wholly or not at all, then between steps the index has exactly the obligations the feed created, exactly the resolutions the feed made, and, with one payer, the row the feed gives |
| `CalmHub.HubAndNodesAgree` | games/ledgerofthelow/internal/hub/server.go:178-187 | If moreover everything is delivered and applied, the hub and every node agree on existence and status of every obligation, and on the whole row when one node did all the paying |
| `CalmHub.PayersRowIsProjected` | games/ledgerofthelow/internal/hub/server.go:178-187 | Under the same restriction, whenever a node's log is acknowledged the hub's row of every obligation it alone has paid on equals its own row, whoever made the obligation |
| `Payments.OpenListUnique` | games/ledgerofthelow/internal/engine/obligations.go:61-81 | The debtor's open obligations, oldest first and by id among equals, form exactly one list |
| `Payments.ListOpen` | games/ledgerofthelow/internal/engine/obligations.go:61-81 | The query returns that list |
| `Payments.OldestFirst` | games/ledgerofthelow/internal/engine/obligations.go:61-81 | Of two debts of the list the earlier made comes first, and of two made at once the one whose id is a beginning of the other's or has the smaller first differing character |
| `Engine.Store.DebtLoad` | games/ledgerofthelow/internal/engine/obligations.go:52-58 | The sum of the debtor's open weights |
| `Payments.LoadIsTotal` | games/ledgerofthelow/internal/engine/obligations.go:52-81 | The load is the sum over the list |
| `Payments.PayDebtLaw` | games/ledgerofthelow/internal/engine/obligations.go:87-125 | A payment closes a prefix of the list, lightens at most the next debt, leaves every other row alone, lowers the load by what it settles, and its events replayed over the old table give the new one; with positive weights it settles exactly the smaller of amount and load and keeps all open weights positive |
| `Payments.RestFits` | games/ledgerofthelow/internal/engine/obligations.go:105-121 | What comes off the partly paid debt is less than its weight, and what is settled is the covered debts plus that rest |
| `Payments.PayReplays` | games/ledgerofthelow/internal/engine/obligations.go:174-206 | The events emitted are one for each covered debt and one for the rest, and replaying them reproduces the table |
| `Payments.PaymentEvents` | games/ledgerofthelow/internal/engine/obligations.go:105-121 | The events are resolutions of the covered debts in list order and then one adjustment of the next debt from its weight to that less the rest, numbered on from the counter, each with its own clock reading |
| `Payments.PayIsRun` | games/ledgerofthelow/internal/engine/obligations.go:87-125 | A payment is a run of the protocol's resolve and adjust steps, each made on the weight it read |
| `Payments.HalfPayment` | games/ledgerofthelow/internal/engine/obligations.go:105-121 | A payment that updates a row and then fails to emit leaves exactly that row unreported: the events replay to the table on every other row, and the load has fallen by what was taken off it as well |
| `Engine.Store.PayDebt` | games/ledgerofthelow/internal/engine/obligations.go:87-125 | The loop computes exactly this, in place; a failing update ends it with the rows, events and load of the debts before, and a failing insert of an event with the row it should have reported changed besides |
| `Travel.TravelStore.SubmitTravel` | games/ledgerofthelow/internal/hub/sqlite.go:417-472 | Queues a journey and the location row, both given outright with the home that was sent or else the recorded one, or refuses for the first reason that applies and changes nothing; keeps the travel invariant |
| `Travel.RefusalMeaning` | games/ledgerofthelow/internal/hub/sqlite.go:417-472 | For each refusal the exact condition under which it is the one given, in terms of the two tables |
| `Travel.TravelStore.ArriveTravel` | games/ledgerofthelow/internal/hub/sqlite.go:555-596 | Only the destination of a pending journey moves the player, and then the journey has arrived, all else of it kept, and the player is recorded there with the journey's home and no journey; keeps the travel invariant |
| `Travel.TravelStore.BlockTravel` | games/ledgerofthelow/internal/hub/sqlite.go:598-610 | Only the destination of a pending journey blocks it, and only the status of that journey changes |
| `Travel.TravelStore.QueueRetry` | games/ledgerofthelow/cmd/hubadmin/main.go:418-440 | A blocked journey becomes pending whatever else the tables say, and nothing else changes |
| `Travel.RetryExact` | games/ledgerofthelow/cmd/hubadmin/main.go:433-440 | A retry keeps the travel invariant exactly when the location row still names the journey, which is exactly when the player has submitted nothing since |
| `Travel.Itinerary` | games/ledgerofthelow/internal/hub/sqlite.go:417-486 | In every run with timely retries: at most one pending journey per player, its origin and id in the location row, and the arrived journeys are exactly those of a chain from the node in the player's id to the recorded current node |
| `Travel.UntimelyRetry` | games/ledgerofthelow/cmd/hubadmin/main.go:433-440 | A retry after a newer journey breaks the chain |
| `NodeTravel.PlayerStore.Travel` | games/ledgerofthelow/cmd/node/main.go:107-124 | Export, mark, submit and roll back amount to the departure move for every ending: queued, the row is inactive and the journey carries the row's home, its status and the state; refused or unsent, the row is active and the hub as before; stopped, the row is inactive and the hub as before |
| `NodeTravel.PlayerStore.TravelImport` | games/ledgerofthelow/cmd/node/main.go:89-95 | The row keeps the home of the snapshot, whichever node imports it, takes its status, and is active at home |
| `NodeTravel.PlayerStore.DrainTravel` | games/ledgerofthelow/internal/fed/fed.go:371-403 | The arrivals loop of a tick is a sequence of moves, whatever fails in it; each journey ends arrived, blocked or still pending by what happened to it, each written row is its snapshot's, and no other journey or row changes |
| `Whereabouts.PlayedInOnePlace` | games/ledgerofthelow/internal/engine/server.go:251-255 | If a departure is one step, the hub's reply to a submission is not lost, and a report of arrival takes effect at once or never, then in every run, retries of blocked journeys included, at most one node lets a player log in, and while a journey is pending only its destination does |
| `Whereabouts.RetryKeeps` | games/ledgerofthelow/cmd/hubadmin/main.go:433-440 | A retry of a blocked journey is always safe here: since the block nobody has let the player in, so nothing newer can have been submitted |
| `Whereabouts.NobodyIsLost` | games/ledgerofthelow/internal/fed/fed.go:371-403 | A registered player who can log in nowhere is on a pending journey, was blocked at the end of the latest one, or was left marked by a node that stopped in a departure |
| `Homes.HomeIsWhereRegistered` | games/ledgerofthelow/internal/engine/snapshot.go:39-71 | In every run all rows of a player on all nodes and the snapshots of all the player's journeys have as home the node that registered the player, and so have the journeys and the location row at the hub if that node's name is not empty |
| `Whereabouts.LostReplyDoubles` | games/ledgerofthelow/cmd/node/main.go:119-122 | If the reply to an accepted submission is lost, the player can log in at both ends after the import |
| `Whereabouts.SecondSession` | games/ledgerofthelow/cmd/node/main.go:107-124 | A second departure from a session still open after the first is refused, and its roll-back reopens the origin while the journey is pending |
| `Whereabouts.ImportDuringDeparture` | games/ledgerofthelow/cmd/node/main.go:116-119 | A tick that repeats and confirms the import between marking and submitting lets the submission through with the row active |
| `Whereabouts.LateConfirmation` | games/ledgerofthelow/internal/fed/fed.go:396-402 | A report of arrival that takes effect after the node gave up on it, while the next tick still holds the journey, lets the player leave and the tick then reopen the row |
| `Barter.ConsumeLaw` | games/ledgerofthelow/internal/game/module.go:910-923 | What is consumed is exactly the value lost; goods worth no more than the cost are used up; otherwise the cost is met and exceeded by less than a unit of the last good touched, so by at most 8 |
| `Barter.LightestFirst` | games/ledgerofthelow/internal/game/module.go:912-920 | A good is touched only when all lighter ones before it are used up |
| `Barter.Market.GoodsValue` | games/ledgerofthelow/internal/game/module.go:902-908 | The total of quantity times weight over the stock |
| `Barter.Market.ConsumeForCost` | games/ledgerofthelow/internal/game/module.go:910-923 | The nested loops hand over exactly these units and delete empty rows; a unit whose update fails counts as paid and stays, and the value lost is what was consumed less what stayed |
| `Barter.HandedButRows` | games/ledgerofthelow/internal/game/module.go:910-923 | Row by row: a listed good has lost as many units as were counted as taken less those whose update failed, and any other row is as it was |
| `Barter.KnownGoods` | games/ledgerofthelow/internal/game/content.go:30-66 | The nine trade goods and what a unit of each is worth; any other is worth nothing |
| `Barter.Market.Buy` | games/ledgerofthelow/internal/game/module.go:819-840 | Goods that do not cover the price are emptied of value, value lost plus new debt is the price, and the debt is a row owed to Maren with its debt.created; otherwise no debt changes and at most 8 is overpaid |
| `Barter.Market.Bonesetter` | games/ledgerofthelow/internal/game/module.go:537-560 | The same for the fee of 15, owed to the Bonesetter, and nothing at all happens to a healthy player |
| `Barter.Market.PayDebt` | games/ledgerofthelow/internal/game/module.go:842-860 | With positive weights, exactly the smaller of debt load and goods value is settled, although whole units are handed over; always, the load falls by what is settled and the events replay to the table |
| `Loot.CutBounds` | games/ledgerofthelow/internal/game/module.go:1146-1150 | A rounded cut is at most half the stack rounded up, and at least one of two or more |
| `Loot.LootExact` | games/ledgerofthelow/internal/game/module.go:1132-1158 | Of each good the loot has the stack times the fraction, to the nearest unit with halves up; only if that is nothing of every good, it is one unit of the first |
| `Loot.StealLaw` | games/ledgerofthelow/internal/game/module.go:1132-1158 | A theft takes at least one unit from a victim who has any, at most half of each stack rounded up, and loses nothing on the way |
| `Arena.Fighters.StealLoot` | games/ledgerofthelow/internal/game/module.go:1132-1158 | From a list of the victim's goods, heaviest first, the loop takes of each the stack times the fraction to the nearest unit, or one unit of the heaviest if that is nothing of every good; a line whose update fails is loot all the same and stays with the victim |
| `Arena.Fighters.TransferLoot` | games/ledgerofthelow/internal/game/module.go:1160-1166 | Within a node the loot goes from victim to attacker, line by line, but for lines whose insert fails |
| `Arena.Fighters.IncomingPvP` | games/ledgerofthelow/internal/game/module.go:1372-1453 | The event carries the whole loot; the victim loses it but for lines whose update fails |
| `Arena.Fighters.OnResolved` | games/ledgerofthelow/internal/game/module.go:1455-1490 | The attacker is credited only at home and only for requests the hub made, with every line whose insert succeeds |
| `Loot.KeptExactly` | games/ledgerofthelow/internal/game/module.go:1455-1490 | Of each line of the loot all of it is credited if its insert succeeds, and none of it otherwise |
| `Loot.OneHome` | games/ledgerofthelow/internal/game/module.go:1467 | A node whose id has no colon passes the home test exactly when it is the node in the attacker's id |
| `Loot.BooksBalance` | games/ledgerofthelow/internal/fed/fed.go:347-370 | In every run, for every good: held, in transit and lost make up what there was and what doubled, even if requests are resolved repeatedly and single updates and inserts fail |
| `Loot.LootIsConserved` | games/ledgerofthelow/internal/game/module.go:1372-1490 | If resolve-and-emit and credit-and-mark are each one step and no update or insert fails, held plus in transit never changes |
| `Loot.CreditableIff` | games/ledgerofthelow/internal/game/module.go:1455-1490 | Loot on its way can be credited exactly when the attacker's home is a node other than the one that emitted the event, and crediting takes it out of transit; a fight arranged by the hub within one node is never credited |
| `Gate.PushAcceptedIff` | games/ledgerofthelow/internal/hub/server.go:148-176 | A push is accepted exactly when every event is the sender's own, in schema, and refers only to its game |
| `Gate.BadBatchChangesNothing` | games/ledgerofthelow/internal/hub/server.go:155-177 | One event that is not admissible leaves the feed unchanged |
| `Gate.OneGame` | games/ledgerofthelow/internal/hub/server.go:299-344 | After any requests whatever, no stored debt.created, pvp.resolved, attack or journey joins nodes of different games |
| `GateLaws.StoredParties` | games/ledgerofthelow/internal/hub/server.go:299-344 | In every reachable hub, creditor and debtor of each stored debt.created and attacker and victim of each stored pvp.resolved are given as non-empty texts, and the node of each is none, the world's own, or a member that plays the game of the event's source |
| `GateLaws.AdmissibleMeaning` | games/ledgerofthelow/internal/hub/server.go:148-176 | An event is admissible exactly when it is the sender's own, in schema, and each field that names a party holds a reference to nobody's node, the world's own, or a member of the same game |
| `GateLaws.SchemaMeaning` | games/ledgerofthelow/internal/hub/server.go:190-255 | For each event type, the names of the text and number fields it has to bring; an event is in schema exactly when its envelope is full and they are there in that form |
| `GateLaws.PushAnswers` | games/ledgerofthelow/internal/hub/server.go:148-176 | The exact condition for each answer to a push: somebody else's event, an event out of schema, a reference out of order, accepted |
| `GateLaws.FirstBadReference` | games/ledgerofthelow/internal/hub/server.go:299-344 | The first bad reference of a batch decides between unknown node and other game |
| `GateLaws.AppendTakesAll` | games/ledgerofthelow/internal/hub/sqlite.go:196-211 | Appending keeps the feed as a beginning, and afterwards every id of the batch is there |
| `GateLaws.AppendAddsOnce` | games/ledgerofthelow/internal/hub/sqlite.go:196-211 | Each new entry is an event of the batch whose id is nowhere before it |
| `GateLaws.RegisteredGame` | games/ledgerofthelow/internal/hub/sqlite.go:133-147 | After any requests a node is a member exactly when it asked to register, with the game of its first registration |
| `HubServer.Server.RegisterNode` | games/ledgerofthelow/internal/hub/sqlite.go:133-147 | A taken node id is refused and changes nothing; otherwise the node is a member with the game it gave |
| `HubServer.Server.ValidateEventSchemas` | games/ledgerofthelow/internal/hub/server.go:190-255 | Accepts exactly the batches whose every event has a full envelope and the fields of its type |
| `HubServer.Server.ValidateRefsSameGame` | games/ledgerofthelow/internal/hub/server.go:329-344 | The first reference to an unknown node or another game decides |
| `HubServer.Server.HandleEventsPush` | games/ledgerofthelow/internal/hub/server.go:148-187 | All checks come before the first append; accepted is exactly when all events are admissible, and then each party of each debt and fight is nobody's, the world's own, or of a member of the sender's game; every id of an accepted batch is in the feed, and a refused one changes nothing |
| `Gate.AttackMeaning` | games/ledgerofthelow/internal/hub/server.go:390-443 | An attack is queued exactly when it is by the sender's own player, in good form and with a new id, on a player of a known, active node of the same game |
| `GateLaws.AttackAnswers` | games/ledgerofthelow/internal/hub/server.go:390-443 | The exact condition for each refusal of an attack |
| `HubServer.Server.HandlePvPQueue` | games/ledgerofthelow/internal/hub/server.go:390-443 | Queues exactly the attacks that meet these conditions, names the victim's node in the queue, leaves the queue alone otherwise, and keeps the one-game invariant |
| `Gate.JourneyMeaning` | games/ledgerofthelow/internal/hub/server.go:508-560 | A journey is queued exactly when it is in good form and with a new id, to another, known, active node of the same game, and the hub has the player at the sender with nothing pending; then it is the player's pending journey and all others are as they were |
| `GateLaws.JourneyAnswers` | games/ledgerofthelow/internal/hub/server.go:508-560 | The exact condition for each refusal of a journey that comes before the travel tables |
| `HubServer.Server.HandleTravelSubmit` | games/ledgerofthelow/internal/hub/server.go:508-560 | Queues exactly the journeys that meet these conditions, changes nothing otherwise, and keeps the one-game invariant |
| `Wire.SameAppend` | games/ledgerofthelow/internal/hub/sqlite.go:196-211 | Appending a batch of events is the same operation whether events are read as what happened or as typed fields |
| `Wire.DebtsInSchema` | games/ledgerofthelow/internal/hub/server.go:224-244 | A debt event with its texts filled in passes the hub's schema |
| `Wire.DebtAdmittedIff` | games/ledgerofthelow/internal/hub/server.go:299-344 | A node's well-formed debt.created, as sent, is let in exactly when creditor and debtor are each nobody's, the world's own, or of a member of its game |

## Left out

- HTTP, JSON encoding, tokens, keys, SSH, the terminal interface and the portal. Requests are typed calls that may fail before or after they take effect. Payloads are
  typed records, except in `Gate`, where the presence and kind of fields is what is checked; that struct decoding matches field names without regard to case is not modelled.
- In the protocol, writing an obligation row and emitting its event are one step; the methods of `Engine.Store` model the row whose event could not be inserted, the
  theorems about runs do not. The status theorems still let a payment report a weight read before another event changed the row; the weight theorems do not.
- Resolution texts, resolution times and `updated_at` columns.
- Integers are unbounded: 64-bit overflow is not modelled.
- Hub sequence numbers are strictly increasing with arbitrary gaps, as AUTOINCREMENT promises; node removal, backups and schema migration are not modelled.
- The SQL orders that sort equal keys arbitrarily are modelled by every list that satisfies the order.
- Roster, directory, heartbeat metrics, turn budgets, rest limits, daily reset and dead players: full-replace copies or short guarded updates with only easy properties.
- Completing and blocking attack requests at the hub: loot conservation is proved with no limit on how often a request is resolved, so it does not depend on them.
- Game state carried by a snapshot is opaque; ImportState adds goods to rows already there, so inventories are not claimed equal after a return trip, and travel is not
  part of the loot runs. Purchases and finds are not part of the loot runs either.
- Combat rounds and damage: the winner is an input, and so is the share of loot, an exact fraction between a quarter and a half; rounding of floating-point products is not modelled.
- Engine.Store.Migrate: requires that no own obligation id reads back as a negative number; by `Causality.OwnIdsReadBack` no reachable table has one.
- Whereabouts.PlayedInOnePlace: a departure is one step, the hub's reply to a submission is not lost, and a report of arrival takes effect at once or never.
- Weights.WeightsConverge: one payer for the obligation, and every payment made on the weight it read.
- PayerIndex.SerialRowIff: a push and the processing of its reply are one step; `RowAgreement.PayersRowIff` has no such restriction.
- CalmHub.IndexFollowsFeed: a push, with the processing of its reply, is one step; other nodes' steps during a push are not part of these runs.
- CalmHub.HubAndNodesAgree: the same, and no push stops part way; so for `CalmHub.PayersRowIsProjected`.
- OnePayer.CrashesDoNotMatter: one payer for every obligation, every payment made on the weight it read.
- Engine.Syncer.Tick: no projecting statement fails unnoticed in a push made by a tick; the protocol's single projecting steps may.
- Loot.LootIsConserved: no stop between taking and emitting or between crediting and marking, no failing update or insert; `Loot.BooksBalance` accounts for those.
- Barter.Market.Buy: every update of a stock takes effect; so for `Barter.Market.Bonesetter` and `Barter.Market.PayDebt`. `Barter.Market.ConsumeForCost` has the failing ones. A
  failing DELETE of empty rows is not modelled: it leaves rows at zero, which nothing lists.
- Whether a deliverable event is ever delivered when faults never end; catching up is proved for ticks without faults.
