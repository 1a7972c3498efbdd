# Coupon trade, virtual DOM and supporting cores

This project models the hard parts of a shop-and-coupon application and proves properties of them in Dafny 4.11.
`dafny verify dfyconfig.toml` checks everything.

## What is modelled

**The coupon trade protocol** (`Coupon*.dfy`). Redis and MySQL cannot commit together. A Lua script takes stock in Redis,
records the buyer and appends to a stream; consumers turn entries into order rows; pay, cancel, timeout and redeem race on
conditional updates; a cancel outbox gives stock back to Redis. `CouponStores` holds both stores and everything that is
atomic in one of them (scripts, transactions, conditional updates, the pending list). `CouponSteps` is the state machine:
37 actions, one for each store command, with every thread keeping what it read in a program counter, so that any actions of
other threads, and crashes, may happen between two actions of one call. `CouponInvariant`, `CouponStorePart`,
`CouponPreservation` and `CouponRuns` prove one invariant over all runs. `CouponTheorems`, `CouponOrders`,
`CouponDelivery`, `CouponRecords`, `CouponDrain`, `CouponPolls` and `CouponRace` state what follows from it. `CouponWorld` lets one thread run its own code
while the other threads run at every pause; `CouponAccept`, `CouponConsumer` and `CouponTrade` are the services, written
with their loops and branches against that world, so each contract holds under every interleaving. The order ids come from
`IdWorker`; the payload text of dead letters and their replay is `DeadLetter`.

**The keyed virtual-DOM patch** (`Vdom*.dfy`). A live document with ordered child lists is updated in place by
`patchVnode` and `updateChildren`. `Render` is the tree that `createElm` builds from a vnode; a `DomTree` is a tree of live
nodes; `Row` says that the children of a node are exactly the roots of a list of trees that share no node. The four-index
loop is followed branch by branch; `VdomFate` is the same loop on vnodes alone, as a function. `VdomVisible` says what
there is to read in live nodes and in vnodes without going through the described tree.

**Dependency tracking and the flush queue** (`VueReactive`, `VueScheduler`): watchers and deps as objects, nested
evaluations with the target stack, and the queue with its in-flush insertion.

**Smaller cores**: the logical-expire shop cache with owner-token locks (`ShopCache`), where a load in flight has a program
counter and the database's answers are logged so that each cached value has a source; the id generator (`IdWorker`) and the
feed scroll cursor (`FeedScroll`).

## Where a wished-for property is false

- The "stock insufficient" exception of `createVoucherOrder` is reachable without any store failure: two consumers can hold
  one entry after a claim, and the slower one finds the stock gone. `CouponRace.LostRaceHappens` reaches such a state, and
  `CouponTheorems.OutOfStockOnlyAfterInsert` says exactly when: the stock is gone and the entry's own row is already there.
- A repeated purchase is answered with its first id exactly inside the published window while stock is left
  (`CouponAccept.RepeatAtSellout`; `RepeatIsRefused` reaches both refusals), as `docs/SECKILL.md` remarks for sellout.
- An id can be listed both as PROCESSING and as FAILED, exactly while the query for it says FAILED and its hint is still
  there (`CouponAccept.ProcessingBesideFailed`); `HintOutlivesLetter` reaches such a state.
- A dead-lettered payload is read back exactly if its text has at most 1000 characters (`DeadLetter.RoundTrip`);
  `TruncationCuts` says what is left of a longer one.
- The feed cursor stands for the end of the page exactly if the group of entries tied at `max` ends inside the page or was
  not continued (`FeedScroll.CursorMovesToPageEnd`); three equal times already trap the reader
  (`FeedScroll.TieGroupRepeats`).
- An invalidated shop can come back into the cache. It cannot exactly if no load that read before the commit is still to
  write at the deletion (`ShopCache.InvalidationHolds`); `StaleValueMayReturn` interleaves a rebuild and an update so that
  it does.
- Ids of one prefix can collide once a day's count passes 2^32 (`IdWorker.OverflowCollides`); `SameId` says exactly when.
- A redeem that comes second is answered with a failure although the order is redeemed. `redeemOrder` is one transaction,
  no isolation level is set anywhere, and so its re-read sees the snapshot of its first read, in which the order is PAID.
  `CouponTrade.RedeemOrder` says exactly when, and `CouponRace.LostRedeemHappens` reaches it.
- The update of a child list can read an emptied slot and throw. `VdomPatch.UpdateChildren` says exactly when, from the two
  lists; from no old list at all it does so if and only if the new list has unique keys on every level
  (`VdomFate.SafeExactlyWithUniqueKeys`), and `VdomFate.DuplicateKeyThrows` is a smallest case.

## Model

| member | source | states |
|---|---|---|
| CouponStores.EventKeyInjective | src/main/java/com/hmdp/trade/TradeOrderService.java:270-272 | two orders never share an outbox event key |
| CouponRuns.StepKeepsInv | docs/CURRENT.md:53-63 | every step of every thread, at the stores' own atomicity, keeps the whole cross-store invariant and never takes back a row, an id, a key or a status |
| CouponRuns.RunKeepsInv | docs/CURRENT.md:53-63 | the same for runs of any length, any interleaving and crashes anywhere |
| CouponPreservation.KeepsAddVoucher | src/main/java/com/hmdp/service/impl/VoucherServiceImpl.java:52-77 | saving a new coupon keeps the invariant: its ledgers start at the initial stock |
| CouponPreservation.KeepsPublish | src/main/java/com/hmdp/service/impl/VoucherServiceImpl.java:83-87 | each of the three publishing writes keeps the invariant, also when buyers are already at the script |
| CouponPreservation.KeepsRunSeckillLua | src/main/resources/seckill.lua:30-65 | the script keeps the invariant whatever it answers, and a new acceptance enters stock, buyer set, id map and stream together |
| CouponPreservation.KeepsCommit | src/main/java/com/hmdp/service/impl/VoucherOrderServiceImpl.java:263-288 | the deduct-and-insert transaction keeps the invariant although its duplicate checks may be stale |
| CouponPreservation.KeepsReleaseStock | src/main/resources/stock_release.lua:8-13 | the release script keeps the invariant: one increment for one new done key |
| CouponTheorems.CrossStoreGap | src/main/java/com/hmdp/service/impl/VoucherOrderServiceImpl.java:256-290 | in every reachable state MySQL stock minus Redis stock is exactly the accepted purchases without a row plus the cancelled orders not given back, MySQL stock plus live orders is the initial stock, and Redis never offers more than MySQL has |
| CouponTheorems.AcceptIsSound | docs/SECKILL.md:54-60 | an accepted purchase without a row always finds a unit of MySQL stock |
| CouponTheorems.OutOfStockOnlyAfterInsert | src/main/java/com/hmdp/service/impl/VoucherOrderServiceImpl.java:270-277 | the transaction finds no stock if and only if the stock is gone and the entry's own order row already exists |
| CouponTheorems.NobodyIsStuck | docs/CURRENT.md:53-63 | in every reachable state a thread inside a call has a next step of its own, whatever the others did meanwhile |
| CouponRace.LostRaceHappens | src/main/java/com/hmdp/seckill/SeckillStreamMessageHandler.java:75-100 | a concrete run in which a consumer hits that exception although no store failed |
| CouponRace.LostRedeemHappens | src/main/java/com/hmdp/trade/TradeOrderService.java:182-224 | a concrete run of two redeems of one order in which the second is refused although the order is redeemed |
| CouponOrders.OneRowPerPurchase | hmdp.sql:279 | however often an entry is redelivered, retried or replayed, one user and voucher have at most one row, under the accepted id |
| CouponOrders.NoAcceptedOrderLost | src/main/java/com/hmdp/seckill/SeckillOrderStreamConsumer.java:328-338 | every accepted id is undelivered, pending, an order row or a dead letter, in every reachable state |
| CouponOrders.ToldIdsAreKept | src/main/java/com/hmdp/service/impl/VoucherOrderServiceImpl.java:115-129 | every id a buyer was ever told stays accounted for, repeated requests get the same id, and no repeated request is flatly refused |
| CouponOrders.NeverPaidAndCancelled | src/main/java/com/hmdp/trade/TradeOrderService.java:80-97 | no run answers ok to a cancel and also to a pay or a redeem of one order |
| CouponOrders.CancelAndRedeemRecords | src/main/java/com/hmdp/trade/TradeOrderService.java:107-144 | CANCELLED orders and outbox rows are in bijection; an audit row exists exactly for USED orders and names the voucher's own shop |
| CouponOrders.StatusMovesAlongEdges | src/main/java/com/hmdp/trade/TradeOrderService.java:80-90 | a row appears UNPAID and dated now, and a step moves a status only along UNPAID to PAID to USED or UNPAID to CANCELLED, by the action of that edge |
| CouponOrders.BuyerHasFifteenMinutes | src/main/java/com/hmdp/trade/TradeConstants.java:11 | over any run, if one step makes the row of an order appear and a later one cancels the order for the timeout job, more than 15 * 60 * 1000 ms lie between the two |
| CouponOrders.ScanFindsTheOldest | src/main/java/com/hmdp/trade/TradeOrderService.java:249-255 | the scan finds only UNPAID orders of more than 15 minutes, at most 50, and every such order unless 50 that are at least as old are found |
| CouponTrade.ScanHasAnswer | src/main/java/com/hmdp/trade/TradeOrderService.java:249-255 | in every state there is such a scan result |
| CouponOrders.AuditNamesRedeemer | src/main/java/com/hmdp/trade/TradeOrderService.java:225-236 | an audit row appears only by the update of a redeem and names its operator, its shop and the order's voucher; once there it is never rewritten |
| CouponOrders.ReleasedExactlyOnce | src/main/java/com/hmdp/trade/StockReleaseOutboxWorker.java:56-72 | done keys and released orders are one to one, each released order is CANCELLED, a DONE row has its key, and Redis stock counts each key once |
| CouponOrders.LatestLetter | src/main/java/com/hmdp/service/impl/VoucherOrderServiceImpl.java:159-163 | finds a dead letter of the id if and only if there is one |
| CouponOrders.OwnerViewIsTotal | src/main/java/com/hmdp/service/impl/VoucherOrderServiceImpl.java:147-178 | the owner of an accepted id always sees PROCESSING, FAILED or SUCCESS with the right voucher; anybody else is refused |
| CouponOrders.OnlyAcceptedIdsAreKnown | src/main/java/com/hmdp/service/impl/VoucherOrderServiceImpl.java:147-178 | in every reachable state and for every user and id: "does not exist" if and only if no purchase was accepted under the id; PROCESSING, FAILED or SUCCESS if and only if one of this user was; a refusal if and only if one of another user was |
| CouponOrders.OwnerViewIsMonotone | src/main/java/com/hmdp/seckill/SeckillStreamMessageHandler.java:156-168 | over any run the owner's answer only moves from PROCESSING to FAILED to SUCCESS |
| CouponDelivery.ClaimScanPicks | src/main/java/com/hmdp/seckill/SeckillOrderStreamConsumer.java:223-244 | a claim scan picks exactly the first ten ids that are idle and foreign among the first hundred pending ones |
| CouponDelivery.DeliveryCounts | src/main/java/com/hmdp/seckill/SeckillOrderStreamConsumer.java:309-326 | a pending entry was delivered once plus once per claim, and the handler never works with a larger count |
| CouponDelivery.ExhaustedOnlyAfterClaims | src/main/java/com/hmdp/seckill/SeckillStreamMessageHandler.java:58-64 | a record is isolated for too many deliveries only after four claims, at least two minutes after its first delivery; never for a missing voucher |
| CouponDelivery.ClaimTakesOver | src/main/java/com/hmdp/seckill/SeckillOrderStreamConsumer.java:271-283 | a claim count moves by one, only by a claim, and only when the entry is taken over from another consumer that left it idle for 30 s |
| CouponRecords.Work | src/main/java/com/hmdp/seckill/SeckillOrderStreamConsumer.java:328-338 | any failure-free steps of one consumer on the records in its hands, in any state and of any number, acknowledge only those records, turn each one below the delivery limit into an order row, and are at most eight a record |
| CouponRecords.Finish | src/main/java/com/hmdp/seckill/SeckillOrderStreamConsumer.java:328-338 | a consumer with records in its hands is never stuck: it can always work them off |
| CouponDrain.EveryRound | src/main/java/com/hmdp/seckill/SeckillOrderStreamConsumer.java:132-174 | every failure-free round that hands any consumer a record, whether it reads, recovers or claims, shrinks the backlog (twice undelivered plus pending), leaves the other pending entries and threads untouched, and turns what was new or below the limit into order rows |
| CouponDrain.RoundLeft | src/main/java/com/hmdp/seckill/SeckillOrderStreamConsumer.java:150-253 | an idle consumer has such a round left if and only if something is undelivered or pending |
| CouponDrain.DrainConsumers | src/main/java/com/hmdp/seckill/SeckillOrderStreamConsumer.java:132-174 | every sequence of such rounds, of any consumers in any order, has at most as many rounds as the backlog, can be continued by each idle consumer exactly until everything is delivered and acknowledged, and then whatever was new or below the limit is an order row |
| CouponDrain.CanDrain | src/main/java/com/hmdp/seckill/SeckillOrderStreamConsumer.java:132-174 | such a sequence of one consumer alone leads to rest from every reachable state, whatever the others left behind |
| CouponPolls.DrainedStoresAgree | docs/SECKILL.md:54-60 | when nothing is pending anywhere and every dead-lettered order has a row, Redis stock equals MySQL stock |
| CouponPolls.PollOnce | src/main/java/com/hmdp/trade/StockReleaseOutboxWorker.java:39-48 | every failure-free poll of one worker finishes exactly the first fifty pending rows and keeps the order of the others |
| CouponPolls.Polls | src/main/java/com/hmdp/trade/StockReleaseOutboxWorker.java:38-48 | every k failure-free polls of one worker leave max(0, n - 50k) of n pending rows, the later ones, and change nothing else but done keys and Redis stock |
| CouponPolls.SeveralPolls | src/main/java/com/hmdp/trade/StockReleaseOutboxWorker.java:38-48 | the same for k polls of any workers in any order |
| CouponPolls.RestAgrees | src/main/java/com/hmdp/trade/StockReleaseOutboxWorker.java:38-72 | however consumers drain the group and however often enough workers then poll, the system is at rest, and the stores agree if every dead-lettered order has a row |
| CouponPolls.CanAlwaysAgree | src/main/java/com/hmdp/trade/StockReleaseOutboxWorker.java:38-72 | from every reachable state there are such failure-free rounds and polls of one thread alone |
| CouponAccept.OrderIdIsNew | src/main/java/com/hmdp/service/impl/VoucherOrderServiceImpl.java:89 | the id that nextId issues to a purchase was never issued to one before, whatever the clocks did |
| CouponAccept.SeckillVoucher | src/main/java/com/hmdp/service/impl/VoucherOrderServiceImpl.java:71-109 | exact conditions of each early refusal; at the moment of the script, "not active" if and only if the published window is closed, "sold out" if and only if it is open and no unit is left, and an id if and only if it is open and one is left: the first id for a repeated purchase, the new one for any other; that id belongs to this purchase, is accounted for and is what the buyer is told; the flat refusal of a repeat is never given |
| CouponAccept.FirstPurchase | src/main/resources/seckill.lua:30-65 | in every reachable state and for every buyer at the script, whoever bought before: a user without an id for the voucher inside the published window with stock left takes exactly one unit, and the buyer's entry, the id, the hints, one stream entry and the reply appear together |
| CouponAccept.NoPurchase | src/main/resources/seckill.lua:30-53 | in every other case the script changes nothing: the buyer has an id already, the window is closed, or no unit is left |
| CouponAccept.ResolveDuplicateOrder | src/main/java/com/hmdp/service/impl/VoucherOrderServiceImpl.java:115-129 | always answers the id that the purchase was accepted under |
| CouponAccept.FindOrder | src/main/java/com/hmdp/service/impl/VoucherOrderServiceImpl.java:121-124 | finds the row of this user and voucher, or knows there is none |
| CouponAccept.RepeatAtSellout | src/main/resources/seckill.lua:30-53 | a repeated purchase gets code 2 if and only if the published window is open and stock is left, code 1 at sellout, code 3 outside the window, and nothing changes |
| CouponAccept.RepeatIsRefused | src/main/resources/seckill.lua:30-53 | a reachable state in which the buyer of the last coupon is told "sold out", and later "not active" |
| CouponAccept.ListMyOrders | src/main/java/com/hmdp/service/impl/VoucherOrderServiceImpl.java:181-223 | exactly one row per order of the user, one per hint without an order row, one per dead-lettered id without one with its newest voucher, no row twice, in this order and the orders and the letters newest first |
| CouponAccept.ListIsComplete | src/main/java/com/hmdp/service/impl/VoucherOrderServiceImpl.java:181-223 | in every reachable state the list has a row for exactly the ids that purchases of this user were accepted under |
| CouponAccept.ListOrderMeans | src/main/java/com/hmdp/service/impl/VoucherOrderServiceImpl.java:186-215 | orders come first and newest first, then hints, then dead-lettered ids, the one with the newer last letter first |
| CouponAccept.ListedOnce | src/main/java/com/hmdp/service/impl/VoucherOrderServiceImpl.java:192-221 | an id is listed at most once among SUCCESS and FAILED, and never as PROCESSING beside SUCCESS |
| CouponAccept.ProcessingBesideFailed | src/main/java/com/hmdp/service/impl/VoucherOrderServiceImpl.java:199-221 | in reachable states an id is listed as PROCESSING and as FAILED if and only if the single query says FAILED while the hint is still in the set |
| CouponAccept.HintOutlivesLetter | src/main/java/com/hmdp/seckill/SeckillStreamMessageHandler.java:90-101 | a reachable state with both rows: a consumer isolated the record and died before clearing the hint |
| CouponAccept.ListAgreesWithQuery | src/main/java/com/hmdp/service/impl/VoucherOrderServiceImpl.java:147-223 | a SUCCESS or FAILED row is listed if and only if the single query for that id answers it |
| CouponConsumer.ApplyWithLock | src/main/java/com/hmdp/seckill/SeckillStreamMessageHandler.java:103-115 | which step decides: a failing lock, else a failing unlock (its exception takes the place of any other), else the first of duplicate check and transaction that fails, the latter only when the check found no row; only an exception that is not transient ends fatally; success means the row exists under the entry's id, and without failures the call is refused only to a consumer that lost the race for its own row |
| CouponConsumer.TransientMessages | src/main/java/com/hmdp/seckill/SeckillStreamMessageHandler.java:184-198 | an exception counts as transient by its message if and only if that contains, in letters of either case, "timeout", "lock", "connection" or the words of an empty stock |
| CouponConsumer.StockFailureIsRetried | src/main/java/com/hmdp/seckill/SeckillStreamMessageHandler.java:184-198 | the exception that createVoucherOrder throws on an empty stock counts as transient, so losing the race is retried and never isolated |
| CouponConsumer.ClearProcessingHints | src/main/java/com/hmdp/seckill/SeckillStreamMessageHandler.java:156-168 | the hint leaves the processing set before the accept key goes, a failing command ends it, and the record is then ready to be acknowledged |
| CouponConsumer.IsolateRecord | src/main/java/com/hmdp/seckill/SeckillDeadLetterService.java:29-45 | a durable dead letter with this entry and reason exists before anything is acknowledged; if it cannot be saved, the exception leaves the handler |
| CouponConsumer.Handle | src/main/java/com/hmdp/seckill/SeckillStreamMessageHandler.java:45-101 | from the fifth delivery on POISON; below, with a known voucher, exactly SUCCESS, RETRY or POISON as the call under the lock ends, so a transient failure is retried and only an exception that is not transient isolates the record; SUCCESS only with a row, POISON only with a dead letter; an exception only from the voucher lookup or the save of a letter; nothing is acknowledged |
| CouponConsumer.ProcessRecord | src/main/java/com/hmdp/seckill/SeckillOrderStreamConsumer.java:328-338 | this call acknowledges exactly this record after SUCCESS or POISON, with the record durable, and nothing after RETRY or an exception; below the limit it is retried exactly after a transient failure of a step that was reached, and never POISON unless a step failed for good |
| CouponConsumer.LookupDeliveryCount | src/main/java/com/hmdp/seckill/SeckillOrderStreamConsumer.java:309-326 | never more than the entry was delivered, so no failing lookup can isolate a record; exact for an own entry when the command works |
| CouponConsumer.RecoverOwnPending | src/main/java/com/hmdp/seckill/SeckillOrderStreamConsumer.java:183-211 | handles the first fifty own pending records, each once, among all other threads, up to one that throws; each handled one is in MySQL afterwards unless something failed around it |
| CouponConsumer.SelectToClaim | src/main/java/com/hmdp/seckill/SeckillOrderStreamConsumer.java:228-241 | the loop picks the specified ids, at most ten |
| CouponConsumer.ClaimIdleFromOthers | src/main/java/com/hmdp/seckill/SeckillOrderStreamConsumer.java:219-253 | claims exactly the selected ids that are still pending and idle at the claim, and handles them up to one that throws; each handled one is settled unless something failed around it |
| CouponConsumer.ReadOne | src/main/java/com/hmdp/seckill/SeckillOrderStreamConsumer.java:150-160 | reads the next new record if there is one and settles it unless something failed |
| CouponTrade.PayOrder | src/main/java/com/hmdp/trade/TradeOrderService.java:55-97 | ok means PAID now and is what the buyer is told; each refusal has its exact reason; losing the race means CANCELLED or USED |
| CouponTrade.CancelOrder | src/main/java/com/hmdp/trade/TradeOrderService.java:149-176 | ok means CANCELLED with its outbox row and is what the buyer is told; a refusal means PAID or USED |
| CouponTrade.CancelNeverRollsBack | src/main/java/com/hmdp/trade/TradeOrderService.java:126-133 | in every reachable state the stock row of an UNPAID order exists, so the cancel transaction never throws for it |
| CouponTrade.RedeemOrder | src/main/java/com/hmdp/trade/TradeOrderService.java:182-244 | ok exactly if the order was USED at the read, or PAID and of this shop there and still PAID at the update; then it is USED with its audit row, which names this operator and shop if the redeem was done here. A lost race exactly if it was PAID and of this shop at the read and USED at the update: the re-read sees the transaction's snapshot, and the order is redeemed and audited by the other call. A missing voucher cannot happen |
| CouponTrade.CancelNext | src/main/java/com/hmdp/trade/TradeOrderService.java:258-266 | one turn of the timeout loop: wins exactly if the order was still UNPAID and the call did not fail, and then it is CANCELLED |
| CouponTrade.CloseTimedOut | src/main/java/com/hmdp/trade/TradeOrderService.java:249-268 | it wins only orders that were UNPAID and more than 15 minutes old at the scan; every such order has left UNPAID afterwards, unless its call failed or the scan was full of 50 orders at least as old; the counter is exactly the number of cancels this job won |
| CouponTrade.ListPendingOutbox | src/main/java/com/hmdp/trade/TradeOrderService.java:275-281 | the loop returns the first pending rows in id order |
| CouponTrade.ApplyOnce | src/main/java/com/hmdp/trade/StockReleaseOutboxWorker.java:56-72 | without a throw the row is DONE and its key set, and the increment ran here exactly if the key was not set before; a throw before the script changes nothing, a throw behind it leaves the key set and the row for the next poll |
| CouponTrade.PollAndApply | src/main/java/com/hmdp/trade/StockReleaseOutboxWorker.java:39-48 | every scanned row whose call did not throw is given back and DONE, and every one whose call threw behind the script is given back, with any number of workers beside |
| DeadLetter.FormatPayload | src/main/java/com/hmdp/seckill/SeckillStreamMessageHandler.java:170-182 | the loop prints the fields joined by commas |
| DeadLetter.ParsePayload | src/main/java/com/hmdp/seckill/SeckillDeadLetterService.java:82-96 | the loop reads what the parts put into the map, the last one winning |
| DeadLetter.ParseMeans | src/main/java/com/hmdp/seckill/SeckillDeadLetterService.java:82-96 | of any text a key is read if and only if some part between commas has it in front of its first equals sign, where something must stand, but for blanks; with the value of the last such part |
| DeadLetter.SplitAtCommas | src/main/java/com/hmdp/seckill/SeckillDeadLetterService.java:87 | splitting cuts at every comma and loses nothing |
| DeadLetter.NoShorterText | src/main/java/com/hmdp/seckill/SeckillDeadLetterService.java:82-96 | whatever text is read as a map, it is at least as long as the map's joined pairs |
| DeadLetter.RoundTrip | src/main/java/com/hmdp/seckill/SeckillDeadLetterService.java:82-100 | in every iteration order a map with clean keys and values is read back as it was if and only if its text has at most 1000 characters |
| DeadLetter.TruncationCuts | src/main/java/com/hmdp/seckill/SeckillDeadLetterService.java:98-100 | of a longer text the fields before the cut come back, those behind it are lost, and the one at the cut comes back with the beginning of its value or, if the cut is inside the key, not at all |
| DeadLetter.Isolate | src/main/java/com/hmdp/seckill/SeckillDeadLetterService.java:29-38 | stores the entry's columns and its payload cut at 1000 characters |
| DeadLetter.Replay | src/main/java/com/hmdp/seckill/SeckillDeadLetterService.java:55-80 | re-adds the payload's fields, falls back to the columns when it has none, and refuses an incomplete payload |
| DeadLetter.ReplayRestores | src/main/java/com/hmdp/seckill/SeckillDeadLetterService.java:55-80 | a dead-lettered purchase is replayed with its own fields, which parse to the same order id, user and voucher |
| DeadLetter.ColumnsReplayed | src/main/java/com/hmdp/seckill/SeckillDeadLetterService.java:60-76 | without a readable payload the columns are replayed, each as the field it belongs to, and only if none is missing |
| DeadLetter.ReplayedRecord | src/main/java/com/hmdp/seckill/SeckillDeadLetterService.java:55-80 | the step that replays a letter appends one record to the stream, with the fields that are read from that letter and that parse to its own purchase; nothing else changes |
| VdomTrees.ShowsUnique | frontend/js/vue.js:5523-5588 | a node shows at most one tree |
| VdomVisible.ReadsAs | frontend/js/vue.js:5551-5586 | in a live tree that shows what a vnode describes, the texts, the comments and the elements with their data, each list in document order, are exactly those of the vnode: own texts of text vnodes and elements, comments of comment vnodes |
| VdomDocument.Document.CreateNode | frontend/js/vue.js:5563-5585 | a new node without parent or children |
| VdomDocument.Document.InsertBefore | frontend/js/vue.js:5324-5326 | moves the node in front of the reference, or to the end without one, out of its old place |
| VdomDocument.Document.RemoveNode | frontend/js/vue.js:5497-5503 | takes the node out of its parent's list, if it has a parent |
| VdomDocument.Document.SetTextContent | frontend/js/vue.js:5348-5350 | replaces all children by at most one text node |
| VdomDocument.Document.NextSibling | frontend/js/vue.js:5818 | the node behind this one |
| VdomCreate.Insert | frontend/js/vue.js:5651-5661 | inserts in front of the reference if that is a child of the parent, appends without one, and otherwise does nothing |
| VdomCreate.CreateElm | frontend/js/vue.js:5523-5588 | builds only new nodes, which show exactly the vnode's tree, puts the root where insert puts it, and changes nothing else; the texts, the comments and the elements with their data that can be read in it, in document order, are those of the vnode |
| VdomCreate.CreateChildren | frontend/js/vue.js:5663-5674 | the element's children are exactly the vnode's children, or its text |
| VdomCreate.AddVnodes | frontend/js/vue.js:5720-5724 | the new children stand in order between the given neighbours, all of them new |
| VdomPatch.RemoveVnodes | frontend/js/vue.js:5740-5752 | exactly the old children that are left leave the row |
| VdomDiff.CreateKeyToOldIdx | frontend/js/vue.js:5457-5465 | maps every key of the range to its last index, and nothing else |
| VdomDiff.FindIdxInOld | frontend/js/vue.js:5873-5878 | the first child before the end that is left and matches, or none |
| VdomDiff.IndexIsLive | frontend/js/vue.js:5827-5838 | unique new keys keep the never-updated key index from pointing at an old child that is already used |
| VdomFate.SafeExactlyWithUniqueKeys | frontend/js/vue.js:5803-5845 | the update to a list reads an emptied slot from no old list if and only if no two siblings in it share a key, on any level |
| VdomFate.SafePatchExactly | frontend/js/vue.js:5880-5938 | the same for the patch to a vnode |
| VdomFate.ListIsFine | frontend/js/vue.js:5803-5845 | with unique keys on every level no update reads an emptied slot or uses an old child twice, whatever the old list is |
| VdomFate.DuplicateKeyThrows | frontend/js/vue.js:5826-5838 | updating x, k, y to k, k, z reads an emptied slot in its second turn |
| VdomFate.OldChildUsedTwice | frontend/js/vue.js:5826-5838 | an update to a list with two equal keys in which an old child is patched and moved a second time |
| VdomPatch.FindOld | frontend/js/vue.js:5826-5830 | finds only old children that are left, never the first one as a match, and every pairing by unique keys; trouble only if two new siblings share a key |
| VdomPatch.MoveRight | frontend/js/vue.js:5816-5820 | the patched first old child ends behind the last one left, and the loop's measure shrinks |
| VdomPatch.MoveLeft | frontend/js/vue.js:5821-5825 | the patched last old child ends in front of the first one left |
| VdomPatch.PullLeft | frontend/js/vue.js:5834-5838 | the found old child is patched, its slot emptied, and it ends in front of the first one left |
| VdomPatch.DiffStep | frontend/js/vue.js:5803-5845 | every turn of the loop does what the turn on indices says, keeps the arrangement settled, left over, settled and shrinks the two windows |
| VdomPatch.UpdateChildren | frontend/js/vue.js:5783-5853 | ends as the run of the indices on the two lists says, which decides when it throws; otherwise the parent's children become exactly the new children in order, each showing its vnode, with the texts, comments and elements of the new list to be read in them; matched elements are reused, keyed ones by key, and only that row changes |
| VdomPatch.PatchVnode | frontend/js/vue.js:5880-5938 | throws exactly when the update of a child list on the way does; otherwise in the same live node the tree becomes exactly what the new vnode describes, with its texts, comments and elements to be read in document order, and nothing outside the old tree changes |
| VdomResult.Patch | frontend/js/vue.js:6066-6164 | the mounted root is patched in its node if and only if key, tag, kind, presence of data and input type fit, unless that patch breaks, and replaced by a new node otherwise; it shows exactly the new vnode's tree, with its texts, comments and elements to be read in document order, and its siblings stay |
| VdomResult.PatchedLikeFresh | frontend/js/vue.js:5880-5938 | a patched node shows the same trees as a node that createElm builds from nothing |
| VdomResult.PatchIsLocal | frontend/js/vue.js:5880-5938 | every tree outside the patched one shows what it showed |
| VdomResult.UpdatedList | frontend/js/vue.js:5783-5853 | the updated child list has each element once, and the i-th one shows the i-th new vnode |
| VdomResult.NewElementsOfKeyed | frontend/js/vue.js:5827-5844 | a keyed child keeps an existing element if and only if an old child with its key matches it |
| VdomResult.ReusedElementFits | frontend/js/vue.js:5432-5455 | an element that lives on belongs to an old child with the same key and tag, and an input keeps its type or takes text before and after |
| VdomResult.NothingGoesToWaste | frontend/js/vue.js:5803-5852 | no element is removed while a new one is made for a child that it could serve, keyed or not |
| VdomResult.ReorderKeepsElements | frontend/js/vue.js:5783-5853 | reordering matching keyed children neither creates nor removes an element |
| VueReactive.Watcher.AddDep | frontend/js/vue.js:3162-3171 | collects each dep once and subscribes only where the watcher was not subscribed |
| VueReactive.Watcher.CleanupDeps | frontend/js/vue.js:3176-3194 | afterwards the watcher is subscribed exactly once to each collected dep and to no other; other watchers keep their subscriptions |
| VueReactive.Runtime.PushTarget | frontend/js/vue.js:713-716 | the former target is on the stack |
| VueReactive.Runtime.PopTarget | frontend/js/vue.js:718-720 | the former target is back, or there is none |
| VueReactive.Runtime.Get | frontend/js/vue.js:3135-3157 | for any nested evaluation: the watcher ends subscribed once to each dep that its own reads bring in and to no other, so does every watcher evaluated on the way, the others hold what they held, the target is restored, and nobody else's subscriptions change |
| VueReactive.CollectsWhatItReads | frontend/js/vue.js:3162-3171 | a getter collects exactly the deps it reads itself and those that a watcher it depends on holds at that moment; what watchers evaluated on the way read is theirs |
| VueReactive.HoldsWhatItCollected | frontend/js/vue.js:3246-3249 | a watcher evaluated on the way holds from then on exactly what its own getter collected |
| VueReactive.Runtime.EvaluateOther | frontend/js/vue.js:3246-3249 | an inner evaluation replaces what that watcher holds by what its own getter collects and leaves the outer one's collection alone |
| VueReactive.Runtime.RenderComputed | frontend/js/vue.js:3498-3511 | a renderer that reads a computed property which has to be evaluated ends subscribed, like the computed watcher, once to exactly the deps that the computed getter collects: the deps it reads, if it depends on no other watcher |
| VueReactive.Runtime.DependOnAll | frontend/js/vue.js:3254-3260 | the target collects every dep that the other watcher collected |
| VueScheduler.Scheduler.QueueWatcher | frontend/js/vue.js:3050-3071 | keeps the waiting part free of repeats, and during a flush strictly ascending and equal to the marked ids, with the running watcher in place |
| VueScheduler.Scheduler.FlushSchedulerQueue | frontend/js/vue.js:2961-2997 | every run takes the smallest pending id, what runs hand over is queued in between, and everything queued runs unless the circular check gives up: exactly when a watcher has requeued itself in its own run for the 101st time, right behind that run |
| VueScheduler.EveryQueuedRuns | frontend/js/vue.js:2975-2997 | after a completed flush every watcher queued in it has run after it was queued |
| VueScheduler.NotPendingHasRun | frontend/js/vue.js:2949-2956 | a queued watcher that is not pending any more has run since or was given up |
| VueScheduler.Sort | frontend/js/vue.js:2973 | strictly ascending with the same ids |
| ShopCache.RunJustified | src/main/java/com/hmdp/utils/CacheClient.java:126-302 | over all interleavings of loads that read once and write once, everything cached was said by the database for that id, and lock tokens stay distinct |
| ShopCache.FreshUnlessStaleWrite | src/main/java/com/hmdp/utils/CacheClient.java:187-207 | along any run the entry of an id stays one that the database said since a given moment if and only if no load that read before it writes the id |
| ShopCache.InvalidationHolds | src/main/java/com/hmdp/service/impl/ShopServiceImpl.java:71-92 | after a commit and the deletion of the key, whatever follows, each row cached for the id is one the database said since the commit, if and only if no load of the id that read before the commit was still to write at the deletion |
| ShopCache.QuietCommitInvalidates | src/main/java/com/hmdp/service/impl/ShopServiceImpl.java:71-92 | it is enough that no load of the id stands between its read and its write at the commit |
| ShopCache.LostForEver | src/main/java/com/hmdp/utils/CacheClient.java:351-355 | a token that lost its lock never holds it again |
| ShopCache.StaleReleaseIsHarmless | src/main/resources/unlock.lua:16-19 | releasing with a token that lost its lock changes nothing, however much later |
| ShopCache.ExpiredLockIsTaken | src/main/java/com/hmdp/utils/CacheClient.java:351-376 | in every state a lock that expires under its holder can be taken by another load, which the first load's release then does not disturb |
| ShopCache.TryLock | src/main/java/com/hmdp/utils/CacheClient.java:351-355 | a fresh token if and only if the lock was free |
| ShopCache.ReleaseLock | src/main/java/com/hmdp/utils/CacheClient.java:362-376 | deletes exactly a lock held by this token, and nothing else |
| ShopCache.LoadFromDbOnly | src/main/java/com/hmdp/utils/CacheClient.java:289-302 | the database's answer of this moment, UNAVAILABLE exactly if the read threw |
| ShopCache.RebuildAsync | src/main/java/com/hmdp/utils/CacheClient.java:187-207 | unless its read or write throws, the cache holds right after the write the row the database said during this call, the marker for none; it reads, writes and gives its lock back in this order and does nothing else |
| ShopCache.HandleHit | src/main/java/com/hmdp/utils/CacheClient.java:153-185 | answers the cached shop, unless it is expired and the lock command throws; a fresh one touches nothing, an expired one hands exactly one rebuild to the pool under a new lock if the lock was free, and none if it was busy or the pool throws |
| ShopCache.LoadOnMiss | src/main/java/com/hmdp/utils/CacheClient.java:209-263 | a justified answer: what is found at the second look, with or without the lock, is the answer; with the lock a miss fills the cache unless a command failed, and the lock it took is given back |
| ShopCache.LoadUnderLock | src/main/java/com/hmdp/utils/CacheClient.java:221-259 | what another load has cached meanwhile is the answer, and the database is not asked; otherwise the answer is in the cache afterwards unless a command failed |
| ShopCache.WaitAndRetryAfterMiss | src/main/java/com/hmdp/utils/CacheClient.java:265-287 | a justified answer even when the lock is busy, never an exception: what the second look finds, or else what the database says |
| ShopCache.Query | src/main/java/com/hmdp/utils/CacheClient.java:126-151 | NOT_FOUND only if the database once answered null for the id, OK only with a shop it returned, UNAVAILABLE only if its read threw in this call; what is cached is the answer, and a miss under a free lock fills the cache unless a command failed |
| ShopCache.QueryById | src/main/java/com/hmdp/service/impl/ShopServiceImpl.java:49-59 | "does not exist" is said only if the database said so |
| ShopCache.Update | src/main/java/com/hmdp/service/impl/ShopServiceImpl.java:63-92 | the key is gone after the commit unless the delete failed, and the exact condition under which no older row comes back |
| ShopCache.StaleValueMayReturn | src/main/java/com/hmdp/utils/CacheClient.java:195-201 | a complete rebuild and a complete update without any failure, interleaved so that the old row is cached afterwards |
| IdWorker.Decodes | src/main/java/com/hmdp/utils/RedisIdWorker.java:37-49 | in range the id is timestamp times 2^32 plus count and decodes to both |
| IdWorker.SameId | src/main/java/com/hmdp/utils/RedisIdWorker.java:48 | for any 31-bit timestamps and 63-bit counts two ids are equal if and only if the low halves of the counts agree and the timestamps or-ed with the high halves agree |
| IdWorker.IdsCoincide | src/main/java/com/hmdp/utils/RedisIdWorker.java:37-49 | the same for any two calls of a worker |
| IdWorker.OverflowCollides | src/main/java/com/hmdp/utils/RedisIdWorker.java:48 | a history of 2^32 + 1 calls in one second that issues its first id again |
| IdWorker.Worker.NextId | src/main/java/com/hmdp/utils/RedisIdWorker.java:37-49 | for any clock reading, takes the next count of its prefix and day, one more than the calls so far, and issues the id with the seconds since 2022 in front of 32 bits for the count |
| IdWorker.CountsRestartDaily | src/main/java/com/hmdp/utils/RedisIdWorker.java:43-46 | a call gets the count 1 if and only if it is the first of its prefix in its 86400 seconds from midnight, and otherwise one more than the calls of that day |
| IdWorker.IdsAreDistinct | src/main/java/com/hmdp/utils/RedisIdWorker.java:37-49 | ids of one prefix never repeat, with no assumption on the clocks |
| IdWorker.IdsIncrease | src/main/java/com/hmdp/utils/RedisIdWorker.java:37-49 | a later id is larger if and only if the clock did not go back |
| FeedScroll.QueryBlogOfFollow | src/main/java/com/hmdp/service/impl/BlogServiceImpl.java:149-189 | the page, its last time, and how many of its last entries share that time |
| FeedScroll.CursorMovesToPageEnd | src/main/java/com/hmdp/service/impl/BlogServiceImpl.java:161-187 | the returned cursor is valid and stands for the end of the page if and only if the group tied at max ends inside the page or offset was 0 |
| FeedScroll.ReadAll | src/main/java/com/hmdp/service/impl/BlogServiceImpl.java:149-189 | with distinct times a scroll sees every entry exactly once, newest first, and stops |
| FeedScroll.TieGroupRepeats | src/main/java/com/hmdp/service/impl/BlogServiceImpl.java:161-175 | three entries with one time: the first page leads into the group, and the cursors then go back and forth inside it |

## Left out

- getResult: a synchronous purchase path that no controller calls; it deducts MySQL stock without an accept in Redis.
- Redis data loss, the 24 h expiry of accept keys, failed publishing and the backfill script: documented limits outside the invariant.
- Stream entries that are not the ones seckill.lua wrote, so the poison branches of parseOrder; every entry is well formed.
- The Redisson lock per user is a call that may be busy at any time; no property rests on it.
- queryOrderById and listMyOrders make their three lookups on one state; a row inserted between two of them could show a momentary "not found" or a missing row.
- initGroup: the group exists from the start with position 0, as its 0-0 creation leaves it.
- addSeckillVoucher and its publishing appear as actions of the state machine, not as a method.
- A consumer thread that is stopped is a crash of that thread; start, stop and the 15 s interval of the scans are not modelled.
- Rounds of consumers and polls of workers follow one another in the statements about draining; how soon the threads let each other run is not modelled.
- cancelUnpaidOrder is one atomic step; its first read inside the transaction only repeats what the conditional update decides.
- redeemOrder runs under the default REPEATABLE READ of InnoDB; another isolation level set on the server is not modelled.
- Clock readings are whole numbers, one per call; the sub-second difference between the Java window check and the script's epoch seconds is not modelled.
- Letters of an exception message that have two cases and are not from A to Z are not lowered.
- Metrics, logging, result texts and user roles beyond one flag.
- vnode.elm is returned as a tree of live nodes instead of being stored in the vnode; old vnodes and their elements are passed together.
- The shortcuts for identical vnode objects, static trees, async placeholders, cloned vnodes, components, transitions, keep-alive, hydration and removeOnly.
- The attribute, class, style, event and property modules: together they make an element show the vnode's whole data.
- VdomPatch.UpdateChildren: when the key index leads to an old child that has left the window, the source patches and moves it a second time (`Reuses`); what the document then shows is not modelled. Keys are strings compared exactly.
- An element vnode whose own text is the empty string is not well formed: every vnode with a tag that vue.js makes (lines 4271, 4408, 4419, 5428, 5484) has no own text at all.
- VdomPatch.PatchVnode: what the document shows after an exception in the middle of a patch.
- VueScheduler.Scheduler.FlushSchedulerQueue: takes the finite list of what runs hand over, so it does not say that mutual update loops end.
- Watchers are evaluated with a target; the untracked push of an undefined target by lifecycle hooks is not modelled. Teardown, deep traversal and the values of watchers are left out.
- The updated and activated hooks that follow a flush.
- queryWithPassThrough and the jitter of physical expiry times; eviction may happen at any moment instead.
- A cached wrapper without data: only this client writes the keys, so the branch for it is not modelled.
- A rebuild rejected by the saturated pool is a load that is dropped and keeps its lock until the expiry; nothing is proved about how soon that is.
- Feed entries with time 0, and blogs deleted between pages.
- DeadLetter.Isolate: the null payload and the error message column are not modelled.
