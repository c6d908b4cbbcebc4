# A verified model of the bot's synchronisation, payment, broadcast and cache cores

The bot sells VPN subscriptions.  A subscription is bound to nodes, each node has a
panel that holds the client, money arrives through a payment provider's callbacks,
and announcements go out through a durable broadcast worker.  None of these systems
can be updated together, so the program relies on conditional updates, claims,
leases, retry ladders and per-key locks.  This project models those protocols and
proves what they keep.

Two kinds of files make up the project.  *Protocol* modules are state machines: a
database statement or transaction is one step, a panel or provider call is a step
with a nondeterministic outcome, and a crash may follow any step.  Their theorems
speak about every run.  *Code* classes and methods carry the program's own loops
and field updates, and each is proved against a function on its state; lemmas then
say what that function guarantees.

| module | what it is |
|---|---|
| `KeyedLock` | the per-key lock of subscriptions and payments, with reclaimed entries |
| `Bindings`, `RetryLadder` | rows of subscription_nodes, backoff, parking, release on recovery |
| `PlanReconcile` | the transition table of a plan change, background and transactional |
| `SyncPass` | one sync pass without interference, the delete flow, convergence |
| `PanelProtocol`, `PanelRaces`, `PanelLimits` | rows against panels in every interleaving, crashes included; what a pass does to a row that changed since its copy; which plan's limits a panel has |
| `Orders`, `OrderRuns` | order, subscription and binding transactions; runs of them |
| `OrderRaces`, `OrderLedger` | operations that act on a row loaded earlier; the audit log as a ledger |
| `Callbacks` | which order a provider callback means, and replays |
| `PaymentClaim` | claim before call: no second provider transaction for one order |
| `PendingSweep` | the paged sweep over pending orders |
| `Recipients`, `Delivery`, `ChunkSender` | recipient state, leases, and the worker that refines them |
| `Text`, `MessageSplitter`, `MessageShape` | UTF-8 sizes, words, Markdown entities, splitMessage, the shape of its messages |
| `RateLimiter`, `SharedBuckets` | token buckets and idle cleanup; lookups, takes and cleanups interleaved |
| `SubscriptionCache`, `CacheRuns`, `CacheLaws` | two maps and a list, refining a timestamped table; what hits and evictions mean |
| `Calendar` | day numbers, monthly and weekly traffic resets |

## What the code does where a reader might expect otherwise

Each of these is proved as it is, with the condition under which the expected
behaviour does hold.

- The chargeback's coverage count runs after the order was canceled and so excludes
  it; the comment at `internal/database/orders.go:606` says the opposite
  (`OrderRuns.ChargebackExactly`).
- The writes of a pass look at neither status nor version.  A plan change committed
  between the copy and the write can be lost, and a row that was reset meanwhile can be
  parked without an attempt (`PanelProtocol.ReaddedRowIsLost`,
  `PanelProtocol.RequeuedRowIsParked`, `PanelRaces.WantedAgainIsParked`).  What the row
  then is, exactly, is `PanelRaces.CopyIsCurrentExactly`; for each kind of write see
  `PanelRaces.RowIsLostExactly`, `PanelRaces.RetryLandsExactly`,
  `PanelRaces.ParkedUntriedExactly` and `PanelRaces.RemovalIsLostExactly`.
- A pass pushes the limits of the plan it loaded.  A plan change that keeps the node,
  before the row is marked active, leaves the old limits on the panel
  (`PanelLimits.OldLimitsStay`); exactly when is `PanelLimits.ActiveHasThePlanExactly`.
- A confirmation checks the grace of the row it loaded; the transaction accepts any
  pending or expired order and looks at no time.  Exactly when an order past its grace
  is granted: `OrderRaces.GrantedPastGraceExactly`.
- The recovery release computes its threshold once and then pings nodes.  It resets
  exactly the parked rows unless a row was scheduled so much later that its rung lies
  past the threshold (`RetryLadder.ReleaseOnTheLadder`, `RetryLadder.SlowPingReleasesALadderRow`).
- Background plan application marks active rows of a revoked subscription
  pending_update before the core returns early; the two entry points agree on a revoked
  subscription exactly when there is nothing to reconcile (`PlanReconcile.TwinsAgree`).
- Revocation and reanimation write back a whole row and can erase a payment confirmed
  in between (`OrderRaces.StaleWriteErasesPayment`); exactly when a revocation changes
  the status alone is `OrderRaces.RevocationIsCleanExactly`.
- In the broadcast flood loop the inner error shadows the outer one: the hint of the
  first flood is used for every wait, and an error that ends a run of floods is not the
  one recorded (`ChunkSender.RecordedError`).
- A blank text above the size limit gives no message, so its recipients are marked sent
  without a send (`MessageSplitter.NoMessagesForBlankText`).
- The cache's indices come apart when an element with an empty subscription id is
  removed or evicted, and a shared id hides the first user's entry from invalidation
  (`CacheRuns.EmptyIdStrandsAnElement`, `CacheRuns.EmptyIdBreaksTheBound`,
  `CacheRuns.SharedIdLosesTheFirstEntry`; exact conditions:
  `CacheRuns.SetKeepsTogetherExactly`, `CacheRuns.RemovalKeepsTogetherExactly`).
- Allow looks a bucket up and then takes from it under another lock.  As long as no
  cleanup drops a bucket in between, cleaning keeps the rate bound and stays unnoticed
  exactly when an idle bucket has had time to refill (`SharedBuckets.SafeBoundExactly`,
  `SharedBuckets.SafeCleaningExactly`); without that, no limits that hold a token keep the bound
  (`SharedBuckets.AllBoundedExactly`).

## Model

| member | source | states |
|---|---|---|
| KeyedLock.MutualExclusion | internal/service/sync.go:68-118 | in every interleaving of arrivals, acquisitions, timeouts and releases, two holders of one key are the same goroutine, even when the key's map entry was deleted and created again |
| KeyedLock.EntriesTrackUsers | internal/service/order.go:258-321 | in every run a key is in the map exactly while some goroutine waits for it, holds it or is leaving; the token is in the channel exactly when nobody holds the key; returning it never blocks |
| KeyedLock.InvPreserved | internal/service/sync.go:68-118 | every step keeps: each goroutine refers to the entry its key maps to, waiters counts the users, and tokens plus holders is one |
| KeyedLock.LockTable.Arrive | internal/service/sync.go:69-80 | fetch-or-create and the waiter count together are one Arrive step of the protocol |
| KeyedLock.LockTable.Select | internal/service/sync.go:92-104 | the select is an Acquire step or, after a timeout, a GiveUp step, either one when both are possible; a timeout never returns a token |
| KeyedLock.LockTable.ReturnToken | internal/service/sync.go:94-98 | the holder's release puts the token back into the entry it fetched, before it counts out |
| KeyedLock.LockTable.DropWaiter | internal/service/sync.go:110-118 | counting out, and deleting the entry at zero, is one DropWaiter step that touches no token |
| RetryLadder.ElevenAttemptsIn338Minutes | internal/service/sync.go:825-968 | a freshly transitioned row sees at most 11 failed attempts; eleven take at least 338 minutes and leave it parked |
| RetryLadder.LadderBound | internal/service/sync.go:825-899 | from any rung at most the attempts left are made, the counter stays at most 10 and the status is kept, whether or not the errors are retryable |
| RetryLadder.FullLadder | internal/service/sync.go:948-969 | a run that uses every attempt left ends parked and lasts at least the remaining backoffs |
| RetryLadder.BoundIsMet | internal/service/sync.go:948-969 | the bound is exact: failing whenever the row is due makes every attempt left, each as soon as the one before allows |
| RetryLadder.TriedAgainAfter | internal/service/sync.go:948-969 | a freshly transitioned row is tried again after 1, 3, 8, 23, 53, 98, 158, 218, 278 and 338 minutes at the soonest |
| RetryLadder.PromptElapsed | internal/service/sync.go:948-969 | failing whenever due comes at exactly those minutes |
| RetryLadder.ScheduledPreserved | internal/service/sync.go:825-899 | failures and releases keep every row freshly transitioned, on a rung below the cap, or parked with a counter of at most 10 |
| RetryLadder.ReleaseResetsExactlyTheParked | internal/database/subscription_nodes.go:196-210 | when nothing was scheduled after the clock reading, recovery resets the parked rows and no other |
| RetryLadder.ReleaseOnTheLadder | internal/service/sync.go:1105-1169 | a ladder row is released if and only if its rung lies past the threshold; one scheduled within a minute of the reading never is |
| RetryLadder.SlowPingReleasesALadderRow | internal/service/sync.go:1121-1169 | the exception occurs: two minutes of pings release a row still on the ladder |
| PlanReconcile.BindingStore.Reconcile | internal/service/plan_reconcile.go:99-287 | the core carries the table out for all nodes except those whose write failed, reports exactly those, and with fail-fast stops if and only if some needed write fails |
| PlanReconcile.BindingStore.AddPath | internal/service/plan_reconcile.go:162-223 | the add path settles exactly the target nodes, or stops having written some of the table's rows and no other |
| PlanReconcile.BindingStore.RemovePath | internal/service/plan_reconcile.go:225-287 | the remove path settles the rows outside the target and skips those already pending removal |
| PlanReconcile.BindingStore.MarkActiveNodesPendingUpdate | internal/database/subscription_nodes.go:107-125 | exactly the active rows of target nodes become pending_update with cleared retry data |
| PlanReconcile.BindingStore.SetNodeStatus | internal/database/subscription_nodes.go:68-86 | a status transition clears the retry data; a failing one changes nothing |
| PlanReconcile.BindingStore.UpsertPendingAdd | internal/database/subscription_nodes.go:90-102 | inserts or resets a row to pending_add with cleared retry data |
| PlanReconcile.BindingStore.ApplyPlanToSubscription | internal/service/sync.go:1265-1305 | the background application: marks, then reconciles unless revoked; failures are collected, not fatal |
| PlanReconcile.BindingStore.RunPlanStatements | internal/service/sync_tx.go:36-72 | the statements inside the payment transaction succeed exactly when no needed write fails, and otherwise leave a part of the plan behind for the rollback |
| PlanReconcile.BindingStore.ApplyPlanToSubscriptionInTx | internal/service/sync_tx.go:36-72 | the transactional twin succeeds exactly when no needed write fails and otherwise leaves every row as it was |
| PlanReconcile.BindingStore.MarkAllForRemoval | internal/service/sync.go:186-223 | all rows end pending_remove with cleared retry data exactly when no write fails; otherwise a part of them, and nothing else changes |
| PlanReconcile.BindingStore.EnsureSubscriptionNodes | internal/service/subscription.go:1257-1310 | exactly the active plan nodes without a row get one, existing rows are untouched, and a failing insert stops after a prefix |
| PlanReconcile.AppliedOutcome | internal/service/plan_reconcile.go:99-287 | after an application target nodes are pending_add or pending_update (the latter exactly if they were bound), all others pending_remove, no row is lost, and only changed rows lose retry data |
| PlanReconcile.AppliedIsStable | internal/service/plan_reconcile.go:99-287 | applying the same plan again changes neither status nor retry data |
| PlanReconcile.TwinsAgree | internal/service/sync.go:1275-1305 | background and transactional application compute the same rows if and only if the subscription is not revoked or nothing needs reconciling |
| PlanReconcile.FailuresAreContained | internal/service/plan_reconcile.go:99-287 | a failed write affects its own row only, and the next application completes the change |
| SyncPass.SyncService.ProcessPendingAdd | internal/service/sync.go:673-726 | create, then update when the client was known; row, panel and calls are those of the outcome in every failure case, and RowToldByCalls says what that outcome must be |
| SyncPass.SyncService.ProcessPendingUpdate | internal/service/sync.go:490-542 | optional profile read, update, and the way back to pending_add when the panel has no client |
| SyncPass.SyncService.ProcessPendingRemove | internal/service/sync.go:733-804 | a missing or inactive node drops the row without a call; otherwise the row goes only after the panel confirmed the delete |
| SyncPass.SyncService.SyncNode | internal/service/sync.go:293-404 | one pending row: revoked rows become removals first, removals skip the registry check, the rest need a supported registered node |
| SyncPass.SyncService.SyncNodes | internal/service/sync.go:277-407 | one pass settles each due row once, independently of the order, and for a revoked subscription makes no call but deletes |
| SyncPass.RowToldByCalls | internal/service/sync.go:490-804 | the calls for a row are the wanted ones, in order, up to the first that fails; the row is done exactly when none failed and the node could be asked, and otherwise the failure of the row worked on, retryable as the failed call says; the client is what the calls made of it |
| SyncPass.ActiveIsUpToDate | internal/service/sync.go:673-726 | a row becomes active only by a create that worked, or, for a client that was there, by an update that worked |
| SyncPass.Converges | internal/service/sync.go:227-407 | with every row due and every call answered, plan application plus one pass bind exactly the target nodes as active and leave the client on exactly the target panels among live nodes |
| SyncPass.PassKeepsPanelInvariant | internal/service/sync.go:277-407 | whatever the panels answer, a pass keeps: bound rows have their client, and a client on a live node has a row |
| SyncPass.RevokedOnlyDeletes | internal/service/sync.go:293-330 | a row of a revoked subscription leads to no create or update call and ends pending_remove or gone |
| SyncPass.RevokedOnlyShrinks | internal/service/sync.go:277-407 | over any run of passes and background applications of a revoked subscription, neither bindings nor clients grow |
| SyncPass.RevokeDeprovisionDelete | internal/service/subscription.go:469-517 | queue all, one pass, delete only if no binding is left; a queueing write that fails ends the flow before any panel is called, with a part of the bindings queued and nothing else changed |
| SyncPass.DeleteFlow | internal/service/subscription.go:469-517 | the subscription is deleted exactly when every live panel had a client object and confirmed; then no live node holds it, otherwise every binding left waits for removal |
| SyncPass.AbortedFlowCanBeRetried | internal/service/subscription.go:417-428 | a flow that queued only a part keeps the panel invariant, and trying again ends as the first attempt would have |
| PanelProtocol.PanelSafety | internal/service/sync.go:490-804 | in every run with unlocked plan applications, inserts, releases and crashes between any two steps: an active or pending_update row means the panel holds the client, a client without a row sits only where the node was dropped, and a deleted subscription leaves no client elsewhere and no call in flight |
| PanelProtocol.InvPreserved | internal/service/sync_tx.go:36-72 | every single step, the unlocked transaction included, keeps the relation of rows, panels and the stage of the pass |
| PanelProtocol.RetryCountIsCapped | internal/service/sync.go:825-899 | retry_count is at most 10 in every run, although failures are written from copies that may be out of date |
| PanelProtocol.PassIsASchedule | internal/service/sync.go:277-407 | the sequential pass over the due rows, in any order, is a run of the protocol with the same rows and panels at the end and, call by call, the same panel calls and the network's answers |
| PanelProtocol.RowIsASchedule | internal/service/sync.go:293-404 | every row outcome of the sequential pass is reached by protocol steps whose panel calls are the outcome's, with the network's answers |
| PanelProtocol.ReaddedRowIsLost | internal/database/subscription_nodes.go:128-141 | it happens from every state with a removal waiting on a live node: brought back between the panel's answer and the row delete, the node ends with neither row nor client |
| PanelProtocol.RequeuedRowIsParked | internal/database/subscription_nodes.go:156-173 | it happens from every such state: brought back between a fatal failure and its retry write, the node is parked without an attempt |
| PanelProtocol.QuietRunsDropOnlyRemovals | internal/service/sync.go:733-804 | if plan changes stay out of passes, every row a pass is about to drop is still pending_remove |
| PanelRaces.CopyIsCurrentExactly | internal/service/sync.go:277-407 | in every run, for every row a pass is at work on or has still to do: the row is the copy unless some step since the copy has reset it, and then it has no retry data; it has left the copied status if and only if the plan changes since the copy overtook it, spelled out for each status |
| PanelRaces.RowIsLostExactly | internal/database/subscription_nodes.go:128-141 | the delete that ends a removal takes away a row no longer pending removal exactly when the last plan change since the copy wants the node |
| PanelRaces.RetryLandsExactly | internal/database/subscription_nodes.go:156-173 | the retry metadata completes the row it was computed from when no plan change, insertion or release has reset the row since the copy, and overwrites a reset row otherwise, whether or not the status has come back |
| PanelRaces.ParkedUntriedExactly | internal/service/sync.go:825-899 | whatever the row has become, it is parked exactly when the copy's failure was not retryable or its last; a row reset since the copy is parked without an attempt of its own |
| PanelRaces.WantedAgainIsParked | internal/database/subscription_nodes.go:156-173 | it happens with the status back where it was: removed and wanted again between the failed call and the write |
| PanelRaces.RemovalIsLostExactly | internal/database/subscription_nodes.go:68-86 | marking a node active overwrites a removal exactly when the last plan change since the copy does not want the node |
| PanelLimits.ActiveHasThePlanExactly | internal/service/sync.go:575-640 | in every run with changes of plan, an active row means the panel has the current plan's limits if and only if the pass that last marked it had loaded the plan the subscription had at that marking |
| PanelLimits.OldLimitsStay | internal/service/sync.go:673-726 | it does go wrong: a plan change that keeps the node, between the panel call and the write, leaves an active row with the old plan's limits |
| Orders.OrderStore.ConfirmOrderPaidCAS | internal/database/orders.go:375-495 | order, subscription, audit and (on a plan change) bindings change together under the CAS from pending or expired; a plan application whose n-th row write fails leaves all four as they were |
| Orders.OrderStore.CancelPaidOrderAndDowngradeCAS | internal/database/orders.go:527-669 | cancels by CAS, downgrades an uncovered active subscription, rolls everything back when the plan application fails |
| Orders.OrderStore.ExpireSubscriptionWithPlanCAS | internal/database/subscriptions.go:384-431 | downgrades only an active subscription whose expiry has passed, all or nothing |
| Orders.OrderStore.FindOrCreatePendingPaymentOrder | internal/database/orders.go:166-243 | reuses an uncertain or still valid intent, otherwise expires it and creates the next |
| Orders.OrderStore.FindPendingPaymentOrder | internal/database/orders.go:111-157 | returns the first pending intent, expiring it when overdue, and creates none |
| Orders.OrderStore.MarkPaymentCreationUncertain | internal/database/orders.go:247-274 | a claim succeeds only on a pending order with neither flag nor provider id; a clear only on a flagged one |
| Orders.FirstIntent | internal/database/orders.go:166-175 | the pending order with the lowest id for the subscription and product, or none if there is none |
| OrderRuns.OpFollowsEdges | internal/database/orders.go:76-689 | every operation moves each order along pending to paid, expired or canceled, expired to paid, paid to canceled, and keeps its identity; new orders are pending |
| OrderRuns.RunFollowsPaths | internal/database/orders.go:76-689 | the same over every run |
| OrderRuns.PaidOnlyByGrant | internal/service/order.go:904-1100 | an order becomes paid by an effective confirmation and by nothing else; one needs the full amount and a loaded row that was pending, or expired within its grace |
| OrderRuns.AtMostOneGrant | internal/database/orders.go:375-495 | whatever duplicates and sweeps arrive, an order grants at most one subscription change, exactly one if it ends paid |
| OrderLedger.LedgerBalances | internal/database/orders.go:375-669 | in every run an order has one confirmation in the log if it was ever paid and none otherwise, a chargeback only after it, and each subscription as many renewals as its orders have confirmations |
| OrderRaces.GrantedPastGraceExactly | internal/service/order.go:930-1077 | with any operations between the load and the transaction, an order is granted although its row would no longer pass the checks if and only if it was loaded pending, a lookup, request or sweep then expired it, nothing else paid it, its grace is over, and the transaction is otherwise possible |
| OrderRaces.LateGrantHappens | internal/database/orders.go:111-157 | one lookup of the link between the load and the transaction is enough |
| OrderRaces.ExpiredExactly | internal/database/orders.go:76-243 | over any run a pending order ends expired exactly when a lookup, request or sweep expired it and no confirmation followed |
| OrderRuns.ConfirmIsAtomic | internal/database/orders.go:375-495 | exactly when a confirmation takes effect, in terms of the row it loaded, the row it finds and the writes that fail; then every column of order and subscription, the expiry from running or fresh time included, the two audit entries and the bindings, and nothing of any other order or subscription; nothing changes otherwise |
| OrderRuns.ExpiryExactly | internal/database/subscriptions.go:384-431 | downgrades if and only if the subscription is active, its time has passed and no needed write fails; then it is free in every column, every binding is in line with the free plan, no other subscription changed and no later expiry changes anything; otherwise nothing changed |
| OrderRuns.ChargebackExactly | internal/database/orders.go:527-669 | downgrades if and only if the order was paid, the subscription is active, no other order of it is paid with time left or no end, and no write the free plan needs fails; the bindings are then in line with the free plan and no other order or subscription changed; what happens in every other case |
| OrderRuns.CancelExactly | internal/database/orders.go:673-689 | a cancellation with the full amount ends a pending order, and nothing else changes anything |
| OrderRuns.UnderpaidChangesNothing | internal/service/order.go:960-990 | a callback for an unknown order or with less than its amount changes nothing, whichever kind it is |
| OrderRuns.PaidAccessIsBacked | internal/database/orders.go:563-655 | in every run an active subscription with a product has some paid order |
| OrderRaces.RevocationIsCleanExactly | internal/service/subscription.go:397-410 | a revocation that loaded its row before any operations changes the status alone exactly when none of them took effect on the subscription, or the last that did wrote the loaded row but for the status |
| OrderRaces.StaleWriteErasesPayment | internal/service/subscription.go:253-410 | with a confirmation anywhere between load and write the order stays settled, but a revocation keeps what was bought exactly if the loaded row already said it all, and a reanimation keeps none of it |
| OrderRuns.IntentsStayUnique | internal/database/orders.go:111-243 | every run keeps at most one pending intent per subscription and product |
| OrderRuns.IntentReusedExactly | internal/database/orders.go:166-243 | a pending intent is reused, with nothing changed, exactly if its creation is uncertain or its link has time left or no end; otherwise it is ended and a new one started |
| OrderRuns.IntentCreated | internal/database/orders.go:195-215 | without a pending intent a new one is started behind all orders, with nothing but product and amount |
| OrderRuns.IntentFoundExactly | internal/database/orders.go:111-157 | a lookup finds the pending intent and ends it exactly if its link ran out |
| OrderRuns.UncertainIntentIsReused | internal/database/orders.go:166-205 | an intent whose creation is uncertain is returned again, with nothing created or expired |
| OrderRuns.RenewalsAddUp | internal/database/orders.go:502-513 | same-plan confirmations, each before the current expiry, end at the first base plus the sum of all durations |
| OrderRuns.PaidTimeAddsUp | internal/database/orders.go:502-513 | from a subscription with no time left on the plan, the final expiry is the first confirmation's moment plus the sum of all durations in days |
| OrderRuns.RenewalOrderIrrelevant | internal/database/orders.go:502-513 | the order of in-time renewals does not matter |
| OrderRuns.ExpiryBounds | internal/database/orders.go:394-430 | an expiry is never below activation plus the duration, and is shortened exactly by a plan change of a longer subscription or a negative duration |
| PaymentClaim.OneUnrejectedCall | internal/service/order.go:668-805 | in every run with crashes each order has at most one provider create call that was not definitely rejected, and while there is one it cannot be claimed |
| PaymentClaim.UncertainNeverTimesOut | internal/database/orders.go:278-296 | an uncertain order never has a local deadline, so no lookup or sweep expires it by time |
| PaymentClaim.InvPreserved | internal/database/orders.go:247-296 | every step, every other order operation included, keeps the claim invariant |
| PaymentClaim.OrderService.RequestPayment | internal/service/order.go:562-818 | the provider is called exactly for a product on sale whose standing intent, found or created, has neither flag nor id, and every other answer has its exact condition on the orders before; after the call the order is claimable again exactly after a rejection, and holds id and deadline of a created transaction |
| PaymentClaim.OrderService.ResolveIntent | internal/service/order.go:625-666 | the standing intent if there is one, else a new one exactly for a product on sale; claim fields of all others are untouched |
| Callbacks.CallbackService.ConfirmPayment | internal/service/order.go:904-1100 | the order is found by transaction id, else by payload with the id attached, and then confirmed as loaded |
| Callbacks.CallbackService.OrderByCallbackPayload | internal/service/order.go:823-865 | the payload's order gets the id exactly if it had none; another id is never replaced |
| Callbacks.CallbackService.CancelPayment | internal/service/order.go:1390-1535 | an underpaid or unknown cancellation changes nothing, a cancellation ends a pending order, a chargeback a paid one too |
| Callbacks.CallbackAttaches | internal/database/orders.go:92-107 | after a confirmation its transaction id means the order it was for, with or without payload |
| Callbacks.RecipientExactly | internal/service/order.go:823-865 | a callback is for the order with its id, else for the payload's order as long as that has none, else for nobody |
| Callbacks.OvertakingCallbackPays | internal/service/order.go:926-940 | a full payment whose callback overtook the saving of its id pays the payload's order and leaves the id with it |
| Callbacks.IdsStayOverRun | internal/database/orders.go:278-296 | over any run that does not give its transaction id to another order, an order that left pending stays the one the id means |
| Callbacks.ReplaysChangeNothing | internal/service/order.go:904-1100 | once a callback paid an order, any replay of its transaction, with any payload, amount and time and after any operations that do not give the id to another order, the late saving of the id for the order itself included, finds that order and changes nothing |
| Callbacks.RejectedCallbackStillAttaches | internal/service/order.go:823-865 | a rejected callback leaves the id with its order and nothing else |
| Callbacks.Payee | internal/database/orders.go:33-46 | the first order with the transaction id, or none has it |
| PendingSweep.ReconcilePendingOrders | internal/service/order.go:1181-1232 | however pages are cut, the orders stale at the start are visited once each, ascending, up to the deadline |
| PendingSweep.SweepDecides | internal/service/order.go:1235-1331 | with enough time every stale order with a provider id is decided as the provider says, a confirmed payment being taken if and only if it is in full and the transaction is possible in the state of its visit; every other order is left exactly as it was |
| PendingSweep.ReconcileOrder | internal/service/order.go:1235-1299 | one order: confirmed, refused, unknown, still open, or no answer |
| PendingSweep.Page | internal/database/orders.go:48-72 | a page is a prefix of the stale orders in id order, short only when it holds them all |
| PendingSweep.RestUnchanged | internal/service/order.go:1196-1230 | settling a page changes nothing of the selection behind it |
| Recipients.BroadcastStore.Snapshot | internal/database/broadcast_recipients.go:165-193 | the first call fixes the audience, every recipient pending and untried, and later ones change nothing |
| Recipients.BroadcastStore.Claim | internal/database/broadcast_recipients.go:232-259 | exactly the first pending recipients of a running campaign are claimed, up to the limit and each once, with one more attempt, the claim's time, the rest of the row kept and a copy handed out; a pending one is left only behind a full batch |
| Recipients.BroadcastStore.RecoverStale | internal/database/broadcast_recipients.go:218-228 | a lease survives exactly if it is not older than the limit; a recipient that lost it waits again with attempts, progress and audience entry, and no other changes |
| Recipients.BroadcastStore.Finish | internal/database/broadcast_recipients.go:262-284 | an outcome is written, to that recipient's status and time alone, exactly when it is terminal and the caller still holds the lease; which error otherwise |
| Recipients.BroadcastStore.UpdateProgress | internal/database/broadcast_recipients.go:292-308 | a checkpoint is written, to that recipient's progress and time alone, exactly under the lease |
| Recipients.BroadcastStore.ResetFailed | internal/database/broadcast_recipients.go:348-392 | failed and sending recipients wait again with attempts, progress and audience entry, no other changes, and a terminal campaign runs again |
| Recipients.BroadcastStore.Cancel | internal/database/broadcast_recipients.go:318-344 | cancels a scheduled or running campaign and leaves recipients alone |
| Recipients.BroadcastStore.FinishCampaign | internal/bot/broadcast_worker.go:395-436 | counts outcomes; completed exactly when every recipient is terminal, unless it was loaded as canceled |
| Delivery.LeaseFencing | internal/database/broadcast_recipients.go:218-308 | in every run no claim is handed out twice, at most one outcome is recorded per claim, and a lost claim can neither finish nor checkpoint ever again |
| Delivery.DeliveryIsDurable | internal/database/broadcast_recipients.go:348-392 | in every run the audience is fixed, sent, blocked and unreachable are final even under retries, progress never goes back nor past the text, every chunk below it arrived, and sent means all arrived |
| Delivery.ClaimsResume | internal/bot/broadcast_worker.go:264-356 | a claim sends only chunks at or above the progress it came with, and all below had arrived |
| Delivery.ClaimStartsAtProgress | internal/bot/broadcast_worker.go:264-273 | a claim comes under a new attempt number and starts at its recipient's saved progress |
| Delivery.CheckpointSavesProgress | internal/bot/broadcast_worker.go:340-354 | a checkpoint under the lease saves the progress the worker goes on with; without the lease it changes nothing and the worker ends |
| Delivery.RecordWritesOutcome | internal/bot/broadcast_worker.go:256-261 | an outcome under the lease becomes the recipient's status, and is lost without it |
| Delivery.InvPreserved | internal/bot/broadcast_worker.go:80-356 | every step of any number of workers and of the store keeps the delivery invariant |
| ChunkSender.SendChunk | internal/bot/broadcast_worker.go:279-338 | one chunk costs at most 18 sends, with exactly one wait before each but the first, and bounded time; delivered, blocked, unreachable and given up are told by the replies; giving up means three failed attempts |
| ChunkSender.TryRound | internal/bot/broadcast_worker.go:282-334 | from the second round on a delay that grows with the round, then the send and its flood waits; the time waited is exactly that |
| ChunkSender.WaitOutFlood | internal/bot/broadcast_worker.go:300-333 | at most five waits, all with the first flood's hint, and a failure reports that first flood |
| ChunkSender.RecordedError | internal/bot/broadcast_worker.go:279-338 | the recorded error is the first reply of the last attempt; it is the last reply exactly when that attempt began and ended alike |
| ChunkSender.FloodDelay | internal/bot/broadcast_errors.go:66-79 | the wait is the hint up to 90 seconds, and five seconds without a hint |
| ChunkSender.ProcessRecipient | internal/bot/broadcast_worker.go:264-356 | every trace is one a protocol worker may produce and ends its claim; sends are at most 18 for each chunk left |
| ChunkSender.EventRefines | internal/bot/broadcast_worker.go:338-356 | each event of the code is a run of the delivery protocol that ends at the same place |
| ChunkSender.OthersLeaveWorkerAlone | internal/bot/broadcast_worker.go:206-232 | no step of anybody else moves a worker, so traces interleave freely |
| ChunkSender.CodeRunsAreDeliveryRuns | internal/bot/broadcast_worker.go:264-356 | from a fresh claim the whole trace of the code, interleaved with any steps of others and with the database answering by its state, is a run of the delivery protocol that ends the claim |
| Text.LinesHoldTheTokens | internal/bot/admin.go:352-366 | splitting into lines and then into words keeps the words and line breaks of the text |
| Text.FieldsAreWords | internal/bot/admin.go:366-392 | the fields of a line are words without space, and with their order all there is |
| Text.PiecesRejoin | internal/bot/admin.go:427-458 | the pieces of a word rejoin to it, fit unless a single character, and waste no room |
| MessageSplitter.SplitMessage | internal/bot/admin.go:300-398 | the loop computes the split, for any text and limit |
| MessageSplitter.SplitIsGood | internal/bot/admin.go:300-398 | a longer text is split faithfully: words and line breaks in order, only over-long plain words cut; messages start with a word, waste no room, exceed the limit only for an open entity, a delimited word or one character, and all but the last leave no entity open |
| MessageSplitter.NothingLost | internal/bot/admin.go:300-398 | every character that is not a space arrives once, in order |
| MessageShape.MessagesAreNeat | internal/bot/admin.go:327-393 | every message is its words and line breaks written out: one space between two words of a line and not a character more |
| MessageShape.EntityOpensAndCloses | internal/bot/admin.go:403-422 | an entity is open from its opening delimiter to its closing one, then gone, and text without delimiters changes nothing |
| MessageSplitter.OversizeOnlyForEntities | internal/bot/admin.go:327-393 | for a limit of at least 4, a message is too long only if its last append came with an entity open or it is one over-long word with a delimiter |
| MessageSplitter.NoMessagesForBlankText | internal/bot/admin.go:300-398 | an over-long text yields no message exactly when it is blank |
| MessageSplitter.HardSplitToken | internal/bot/admin.go:427-458 | the two nested loops cut at the longest fitting prefix, or one character |
| MessageSplitter.Splitter.UpdateEntities | internal/bot/admin.go:403-422 | the entity stack after a segment |
| MessageSplitter.Splitter.AddWord | internal/bot/admin.go:327-350 | a word that does not fit starts a message, but never inside an entity |
| MessageSplitter.Splitter.Flush | internal/bot/admin.go:316-326 | closes a message that is not empty and forgets its entities |
| MessageSplitter.Splitter.AddNewline | internal/bot/admin.go:353-365 | a line break closes a full message between entities, and is dropped at the start of one |
| MessageSplitter.Splitter.AddPieces | internal/bot/admin.go:379-387 | every piece of a cut word but the last becomes a message, the last stays open |
| MessageSplitter.ContainsEntityChar | internal/bot/admin.go:462-471 | found exactly if some character is a delimiter |
| RateLimiter.EventuallyAllowed | internal/ratelimiter/ratelimiter.go:45-57 | n tokens within the capacity are there after n / rate seconds |
| RateLimiter.FetchThenUseIsAsk | internal/ratelimiter/per_user.go:30-59 | lookup and take without anything between them are one request |
| RateLimiter.OrphanedExactly | internal/ratelimiter/per_user.go:30-92 | with a cleanup between lookup and take, the two are one request if and only if the cleanup kept the bucket; otherwise the take is on a bucket nobody sees |
| SharedBuckets.SafeBoundExactly | internal/ratelimiter/ratelimiter.go:126-139 | over all interleavings of lookups, takes and cleanups that drop no bucket still held: in every window a user is granted at most the capacity plus rate times length, if and only if maxIdle times the rate reaches the capacity or the capacity holds no whole token |
| SharedBuckets.AllBoundedExactly | internal/ratelimiter/per_user.go:56-92 | over all interleavings without that restriction the bound holds if and only if nothing is ever granted |
| SharedBuckets.HeldBucketBreaksTheBound | internal/ratelimiter/per_user.go:30-59 | for any limits that hold a token and any idle time, one held bucket dropped by a cleanup gives more than the capacity at one moment |
| SharedBuckets.SafeCleaningExactly | internal/ratelimiter/per_user.go:69-92 | over those interleavings cleaning changes no answer, under the same condition and no other |
| SharedBuckets.SafeRunSimulates | internal/ratelimiter/per_user.go:30-59 | with generous idle times such a run answers as one in which every request is one step at the moment it takes and nothing is swept |
| SharedBuckets.AtOnceIsSafe | internal/ratelimiter/per_user.go:56-59 | requests that look up and take at once are such runs, with the same answers and grants |
| RateLimiter.TokenBucket.AllowN | internal/ratelimiter/ratelimiter.go:45-57 | refill to at most the capacity, then all n tokens or none |
| RateLimiter.TokenBucket.RefillBucket | internal/ratelimiter/ratelimiter.go:126-139 | elapsed time adds tokens at the rate up to the capacity; a clock that did not advance changes nothing |
| RateLimiter.TokenBucket.Reset | internal/ratelimiter/ratelimiter.go:116-122 | a full bucket as of now |
| RateLimiter.PerUserRateLimiter.Allow | internal/ratelimiter/per_user.go:56-59 | answers from the user's own bucket, created full, and leaves every other bucket alone |
| RateLimiter.PerUserRateLimiter.GetOrCreateBucket | internal/ratelimiter/per_user.go:30-53 | the user's bucket, a full new one exactly if there was none; no other entry changes |
| RateLimiter.PerUserRateLimiter.Cleanup | internal/ratelimiter/per_user.go:69-92 | removes exactly the buckets idle for longer than maxIdle and returns their number |
| SubscriptionCache.Cache.Get | internal/bot/cache.go:49-89 | a fresh entry is returned and becomes the most recent, an expired one is dropped unless renewed meanwhile |
| SubscriptionCache.Cache.Set | internal/bot/cache.go:91-133 | renews a known user's entry or makes room and adds one |
| SubscriptionCache.Cache.Invalidate | internal/bot/cache.go:135-145 | removes the user's element, if any |
| SubscriptionCache.Cache.RemoveElement | internal/bot/cache.go:159-167 | takes an element out of the list and both maps, the index only for an id that is not empty |
| SubscriptionCache.Cache.InvalidateBySubID | internal/bot/cache.go:147-157 | removes the element the id leads to, if any |
| SubscriptionCache.Cache.Cleanup | internal/bot/cache.go:185-201 | the walk that removes behind itself drops exactly the stale elements of the list |
| CacheRuns.SetKeepsTogetherExactly | internal/bot/cache.go:91-133 | from list and indices one to one, a Set keeps them so if and only if no other user's entry that stays has the id, empty or not, and the entry it evicts, if any, has an id or leaves the empty one to the new entry |
| CacheRuns.RemovalKeepsTogetherExactly | internal/bot/cache.go:159-167 | a removal keeps them so if and only if the element's id is not empty |
| CacheRuns.UnsharedRunIsFair | internal/bot/cache.go:91-133 | ids that are present and not shared between users keep the condition of every Set in the run |
| CacheRuns.CacheStaysTogether | internal/bot/cache.go:49-201 | after any run in which every set id is present and not shared between users, both maps and the list hold the same elements one to one |
| CacheRuns.CacheIsTheTable | internal/bot/cache.go:49-201 | every lookup after such a run answers as a timestamped table that forgets the entry used longest ago |
| CacheLaws.HitIsLastSet | internal/bot/cache.go:49-201 | after such a run a hit is the value last set for the user, not expired, and not invalidated, dropped or replaced since |
| CacheLaws.SetIsFound | internal/bot/cache.go:91-133 | an entry is found until it expires, as long as nothing drops or replaces it and fewer other users than the limit are set or touched since |
| CacheRuns.CacheIsBounded | internal/bot/cache.go:114-133 | after such a run the size is at most max(1, maxSize) |
| CacheRuns.SectionRefines | internal/bot/cache.go:49-201 | every locked section refines one step of the table |
| CacheRuns.EmptyIdStrandsAnElement | internal/bot/cache.go:159-167 | an empty id leads to an element in the list that no map of users knows |
| CacheRuns.EmptyIdBreaksTheBound | internal/bot/cache.go:114-133 | whatever the positive limit, that element is evicted in place of a live one, and after one more user than the limit the size is over it |
| CacheRuns.SharedIdLosesTheFirstEntry | internal/bot/cache.go:147-157 | whenever both entries fit: after invalidating a shared id the first user is still served the old entry |
| Calendar.NextMonthlyReset | internal/service/subscription_presentation.go:158-177 | the earliest date after today with the day of month, within three iterations, so the fallback is dead |
| Calendar.MonthlyCountdown | internal/service/subscription_presentation.go:139-203 | it is 1 to 61 days away, and no day before it has that day of month |
| Calendar.WeeklyCountdown | internal/service/subscription_presentation.go:183-192 | the weekly reset is on the panel's weekday, 1 to 7 days away, with none earlier |
| Calendar.KnownWeek | internal/service/subscription_presentation.go:183-192 | weekdays are anchored: the first week of 2024 began on its first day, and the panel counts Monday as 1 to Sunday as 7 |
| Calendar.DescribeTrafficReset | internal/service/subscription_presentation.go:97-136 | never, unknown or a countdown, by the period, and a countdown always to the earliest reset after today |
| Calendar.AfterIsLater | internal/service/subscription_presentation.go:198-209 | comparing dates field by field is comparing day numbers |

## Left out

- Telegram, HTTP, panel, provider and SQL internals: calls are outcomes, statements are atomic steps.
- User interface: menus, keyboards, message texts, callback routing, admin draft sessions.
- Trials, invites, reminders, traffic cards, notifications, metrics, configuration, logging, heartbeat, backups, migrations, Clash output.
- Reanimation in the panel relation: it drops rows without panel deletes; its three kinds of statement are steps of the order runs only, as is revocation's row write.
- PanelLimits: plan changes outside the payment, chargeback and expiry transactions, edits of a plan's own limits, and the renew profile.
- Admin plan override and the free-plan fallback of the downgrade service; clients removed on a panel by hand; the orphan purge.
- A background reconciliation cut short by its context is a crash step; errors of context cancellation write no retry data.
- Columns that decide nothing here: last_error and error texts, currency, payment URL, reminder flags, callback amount and provider fees, audit payloads beyond the listed events, failures of best-effort audit inserts.
- Database read errors, which end an operation before it changes anything, and the provider-fee paging beside the pending sweep.
- Currency checks and the parsing of payloads and amounts; an unknown product in the expiry computation; a missing plan callback.
- Callbacks: the per-payment lock is KeyedLock's; callbacks here run one at a time, and OrderRuns interleaves their statements.
- A plan application fails by row writes that fail; failing loads and a failing mark statement roll back the same way.
- Concurrent creators losing the unique index race reload the winner: the intent functions are one transaction each.
- Campaign level: retry backoff, run list, reports and statistics; status writes without a CAS are free steps, so no permanence of canceled is claimed.
- RateLimiter: WaitN, AvailableTokens, StartCleanup; real numbers stand for floating point, and the clock is monotone.
- SubscriptionCache: Clear, Size, StartCleanup; the shared pointer to a cached subscription is a value.
- Calendar: calendar days instead of time zones and daylight saving; a date is what time.Date normalises a month overflow to.
- KeyedLock.LockTable.Arrive: the heap of entries and the phase of each goroutine are explicit fields, because an entry outlives its map slot.
- MessageSplitter.Splitter.AddWord: splitMessage's captured variables are the fields of an object here, and Go's []rune is a sequence of characters, so invalid UTF-8 is outside the model.
- Text.FieldsAreWords: strings.Fields and strings.Split are modelled by their documented results, not by their code.
