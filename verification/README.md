# Dazzle: the order book replica and its pricing queries

Dazzle keeps a local copy of an exchange's order book from a lossy message stream and answers
pricing queries on it. This project models the parts of it whose correctness spans several functions
or several tasks, and proves what they promise. `dafny verify dfyconfig.toml` checks everything.

## How it is laid out

| module | part of the program |
|---|---|
| `Levels`, `SortedSide` | one side of a book: what a batch of level updates means price by price; and the ordered map itself, as a sorted array edited in place behind a map view |
| `Walk`, `Pricing`, `Listings`, `OrderBook` | `walk_book`, `spread`, `mid_price`: the theory of sweeping quotes, its machine-word form, which quotes a side's map gives, and the `Book` object that carries it out |
| `FixedPoint` | prices and quantities through 64-bit floats |
| `Feed`, `Manager` | one manager's handling of its stream, as a function of the items, and the object that computes it in place |
| `Replication` | exchange, network, broadcast ring, manager, write lock and readers as one system of interleaved steps |
| `Broadcast` | the bounded broadcast ring and the filtered stream over it |
| `Requests` | the client's request table and dispatch loop, as interleaved steps of many callers and in place |
| `Subscriptions`, `Overtaking`, `SharedChannels` | the ref-counted subscriptions: as interleaved steps of many tasks and the exchange, across reconnects; a run in which they go wrong; and whole calls in place |
| `Connection`, `Backpressure`, `Channel` | the reconnect loop; the two bounded queues between it and the dispatch loop; channel names |

Each concurrent part comes twice: as a step system, over which the theorems range (every run, every
interleaving), and as a class whose whole operations are proved against it. Where an operation waits,
what the other tasks do in the meantime is a parameter: any sequence of their steps.

## What is assumed of the surroundings

- The exchange: each change id names one state of an instrument's book, id 0 the empty one; a change
  names its predecessor and its levels lead from there to its own id; a snapshot lists the state it
  names. In `Replication` an exchange with these habits is part of the system; in `Feed` they are the
  predicate `Honest`. The program applies a change without a predecessor unchecked
  (src/order_book/book_manager.rs:174); `Feed.UncheckedChangeIsFaithfulIff` says when that goes well, and
  `Feed.ChangeWithoutPredecessorCanCorrupt` gives one that does not.
- The network may lose, repeat and reorder messages, and mix all instruments. Only
  `Replication.ReadsNeverGoBack` asks for delivery in order, with losses and repetitions.
- The request id counter does not reach 2^64 and a subscription count does not reach 2^32.

## Where the code and its descriptions differ

The model follows the code.

- README.md:58 draws a `ConnectionLost` arm that resubscribes. `subscribe_order_book` filters that marker
  out (src/deribit/client.rs:308), so a manager never sees it through its own stream. The arm is in
  `Feed.Handle`; in `Replication` markers are passed over and no theorem leans on them.
- src/order_book/book.rs:153 says that `walk_book` returns None for an empty side. It returns None exactly
  for a zero quantity or a side whose sizes are all zero, the empty one included
  (`Pricing.ReportAccounts`).
- The ref-counts of src/deribit/client.rs:207-248 are right exactly as long as every subscriber that counts
  itself in finds its entry still listed and every unsubscribe command is sent for a channel nobody needs
  at that moment (`Subscriptions.RefCountIsSafeIffGuarded`). Calls that do not overlap, an unsubscribe
  counting only until its command is queued, pass both checks (`Subscriptions.RefCountIsSafe`). Nothing in
  the client enforces either: a dropped stream unsubscribes in a task of its own while the manager goes on
  to subscribe again. `Overtaking.OverlapBreaksTheCount` is a run in which a subscriber is left counted
  nowhere and the exchange no longer publishes its channel.
- The counts outlive the connection, the exchange's subscriptions do not: a channel that stays held across
  a reconnect, with no subscribe command on it still queued, is not published again as long as it stays
  held (`Subscriptions.HeldAcrossReconnectGoesDark`).
- The connection loop and the dispatch loop each wait for room in a queue that only the other drains
  (src/deribit/client.rs:148, src/deribit/connection.rs:180). `Backpressure.StuckIffBlocked` says exactly when
  they wait for ever, and `Backpressure.BlockedIsReachable` that it can come to that.
- Channel names are the keys of the subscription table, and a channel shares its key with another one
  exactly when some part of it holds a dot (`Channel.HasTwinIffDotted`).
- Prices survive being printed as floats and read back up to, and not including, 33554432.00000019, which
  always comes back one raw step higher (`FixedPoint.RoundTripIffBelowFirstLoss`).
- `spread()` saturates at 0 when the best prices cross, and counts levels of size zero, which a book can
  hold. It bounds the cost of every round trip exactly when no bid of positive size lies above an ask of
  positive size (`Pricing.SpreadBoundIffUncrossed`).

## Model

| member | source | states |
|---|---|---|
| Replication.ReplicaIsFaithful | src/order_book/book_manager.rs:148-217 | in every run of exchange, network, ring, manager, lock and readers: whenever the write lock is free the book is the exchange's book at its change id; every `get_book` result and every announced book is a whole exchange state, although fields are written and copied one by one; a ready book is a snapshot with published changes applied that follow on from each other |
| Replication.StepKeeps | src/order_book/book_manager.rs:161-203 | the inductive invariant behind it (ring and hand hold honest updates, half-written books are known exactly, no reader inside while writing) survives every step of every party |
| Replication.DescendsOn | src/order_book/book_manager.rs:174-192 | a change that passes the predecessor check extends the chain from the snapshot |
| Replication.LockedSectionTakesUpdate | src/order_book/book_manager.rs:163-194 | all writes under one lock together are the update handled in one go; the stream is given up exactly on a gap |
| Replication.ReadsNeverGoBack | src/order_book/book_manager.rs:71-73 | under in-order lossy delivery successive reads, and successive announcements, never go back in change id, across resubscriptions too |
| Replication.ReadinessNeverReverts | src/order_book/book_manager.rs:57-69 | once a snapshot has been signalled, it stays signalled |
| Replication.ReadReturnsTheBook | src/order_book/book_manager.rs:71-73 | a completed `get_book` is the manager's book as it was when the read lock was taken, which is as it still is |
| Replication.ListenersHearEachChange | src/order_book/book_manager.rs:186-202 | the announced books are, in order, the exchange's book after each change that was taken in and announced with someone listening: none from before it, and none twice |
| Replication.OwnMessageIsTaken | src/deribit/client.rs:304-309 | a look at the ring takes an own message in hand, passes any other over, and gives up exactly when the ring no longer holds it |
| Replication.EveryOwnMessageIsTaken | src/order_book/book_manager.rs:148-165 | from a subscription on, as long as the stream lasts, the manager takes in hand every message of its instrument sent since, up to where it stands, in order and once each |
| Replication.StoppedIffShutDown | src/order_book/book_manager.rs:132-135 | the manager has stopped if and only if its feed was closed or it was aborted, and then for good |
| Replication.OnlyASubscriptionMovesOn | src/order_book/book_manager.rs:103-131 | from a lag error, a gap or a timeout on, the book stays as it was and nothing is announced until a new subscription |
| Feed.ExitNamesItsItem | src/order_book/book_manager.rs:148-216 | a stream is handled up to the first item that ends it and the reason is that item's: shutdown only for a closed feed, otherwise resubscription |
| Feed.GapDetectionIsExact | src/order_book/book_manager.rs:170-202 | a run of updates is taken in whole if and only if each change names the id before it; otherwise exactly the part before the first gap is, and the book is left as that part makes it; announced are, in order, the replayed books after each change of that part that came while someone listened |
| Feed.ContiguousIsConsumed | src/order_book/book_manager.rs:161-202 | contiguous updates are all consumed, leave the replayed book with the last id, and are announced change by change as it stands after each |
| Feed.StopsAtFirstGap | src/order_book/book_manager.rs:174-184 | processing stops at the first gap, before the gap's own levels touch the book |
| Feed.SnapshotThenChangesReachLatest | src/order_book/book_manager.rs:161-192 | a snapshot and then contiguous changes leave the exchange's latest state, ready |
| Feed.ReplayIsFaithful | src/order_book/book_manager.rs:186-192 | replaying contiguous honest updates gives the exchange's state at the last id |
| Feed.StreamKeepsFaithful | src/order_book/book_manager.rs:148-217 | whatever arrives in whatever order, with timeouts and lags in between, the book stays an exchange state |
| Feed.MaintainKeepsFaithful | src/order_book/book_manager.rs:103-137 | so it does over any number of refused subscriptions and ended streams |
| Feed.ReadyIffSnapshotHandled | src/order_book/book_manager.rs:149-166 | readiness is signalled if and only if a snapshot was handled: no timeout, lag or change does it |
| Feed.RefusalIsSkipped | src/order_book/book_manager.rs:108-115 | a refused subscription is followed by the next as if it had never been tried |
| Feed.EndedGoesOnShutdownDoesNot | src/order_book/book_manager.rs:117-136 | a stream that ended is followed by the next session from where it left off, a shutdown by none |
| Feed.UncheckedChangeIsFaithfulIff | src/order_book/book_manager.rs:174-192 | a change without a predecessor id is applied unchecked; it leaves an exchange state if and only if the book agreed with the state the change leads from at every price the change does not speak of |
| Feed.HandleConcat | src/order_book/book_manager.rs:148-216 | handling a stream in two stretches is handling it in one |
| Manager.BookManager.HandleBookStream | src/order_book/book_manager.rs:140-217 | the loop over one stream, editing the book in place, ends in the state, for the reason and after as many items as handling them as values does |
| Manager.BookManager.Take | src/order_book/book_manager.rs:160-203 | one update in place: replaces, edits or leaves the book, and announces, exactly as `GapDetectionIsExact` describes for values, and reports a gap exactly when there is one |
| Manager.BookManager.MaintainBookState | src/order_book/book_manager.rs:88-138 | the outer loop over all its subscriptions |
| Levels.BatchMeaning | src/order_book/book_manager.rs:226-237 | after any batch each price holds what the last recognised action on it says, or its old value if there is none |
| Levels.DecidedOrSilent | src/order_book/book_manager.rs:226-237 | and one of the two cases always applies |
| Levels.ActionsByName | src/order_book/book_manager.rs:228-236 | "new" and "change" set the size, "delete" removes the price, any other action changes nothing |
| Levels.BatchIdempotent | src/order_book/book_manager.rs:187-192 | applying the same batch again changes nothing |
| Levels.BatchesMeet | src/order_book/book_manager.rs:187-192 | a batch makes two sides equal if and only if they already agree at every price it does not speak of |
| Levels.ListingIsBatchOfNew | src/order_book/book.rs:96-114 | a snapshot's side is the batch that adds its levels to an empty one, whatever actions they carry |
| SortedSide.OrderedLevels.Insert | src/order_book/book_manager.rs:229-231 | inserting into, or overwriting in, the sorted array is the map update, and keeps the order |
| SortedSide.OrderedLevels.Remove | src/order_book/book_manager.rs:232-234 | removing from the sorted array removes that key alone, and is harmless for an absent one |
| SortedSide.OrderedLevels.Apply | src/order_book/book_manager.rs:226-237 | one level applied to the sorted array, by the name of its action: "new" and "change" set the size, "delete" removes the price, any other does nothing |
| SortedSide.OrderedLevels.LowerBound | src/order_book/book.rs:86-87 | binary search finds the boundary between smaller prices and the rest |
| SortedSide.OrderIsDetermined | src/order_book/book.rs:80-83 | two sides with the same contents are walked in the same order |
| SortedSide.ViewSplice | src/order_book/book.rs:86-87 | an entry between smaller and larger ones is one key of the map, to add or to take away |
| OrderBook.Book.FromSnapshot | src/order_book/book.rs:96-114 | the book of a snapshot; a repeated price keeps its last size |
| OrderBook.Book.ApplyChange | src/order_book/book_manager.rs:186-192 | the in-place change is the batch on both sides with the new id |
| OrderBook.Book.WalkBook | src/order_book/book.rs:154-183 | the loop over the side's array in u64 and u128 words, none of which can overflow, reports what sweeping any best-first listing of the side's map does, prices with their own sizes |
| OrderBook.Book.OrdersList | src/order_book/book.rs:159-162 | the array is walked as such a listing: every level of the map once, with its size, asks from the cheapest up, bids from the dearest down |
| Listings.OneListing | src/order_book/book.rs:159-162 | a side's map has only one listing, best price first |
| OrderBook.Book.SweepLevels | src/order_book/book.rs:155-172 | at the loop's end notional and fill are the sweep's and fill plus rest is the order |
| OrderBook.Book.BestAsk | src/order_book/book.rs:135-137 | the least ask, or None exactly for no asks |
| OrderBook.Book.BestBid | src/order_book/book.rs:131-133 | the greatest bid, or None exactly for no bids |
| OrderBook.Book.Spread | src/order_book/book.rs:139-143 | None exactly when a side is empty; otherwise the least ask minus the greatest bid, saturating at 0, which bounds every round trip if and only if no bid of positive size lies above an ask of positive size |
| OrderBook.Book.MidPrice | src/order_book/book.rs:145-149 | lies between the best prices, halves their sum rounded down, and fits its word |
| Walk.BuyingGreedilyIsCheapest | src/order_book/book.rs:154-183 | no allocation within the ask sizes that fills the same total costs less |
| Walk.SellingGreedilyEarnsMost | src/order_book/book.rs:154-183 | no allocation within the bid sizes that fills the same total earns more |
| Walk.Exchange | src/order_book/book.rs:164-172 | the exchange argument behind it: holding back on the cheapest quote is no gain |
| Walk.SweepIsAnAllocation | src/order_book/book.rs:164-172 | the walk is itself such an allocation, at its own notional |
| Walk.SplitFills | src/order_book/book.rs:154-183 | one order for q1 + q2 pays and fills what an order for q1 does plus an order for q2 on the book that the first leaves |
| Walk.ConsumeKeepsBook | src/order_book/book.rs:164-172 | the book left is sorted as before and less deep by exactly the fill |
| Walk.ImpactGrows | src/order_book/book.rs:164-172 | the exact average never improves as an order grows |
| Walk.ExtraCost | src/order_book/book.rs:164-172 | a larger order costs at least the lowest quote for each unit more |
| Walk.FilledIsMinimum | src/order_book/book.rs:164-172 | the fill is the lesser of the order and the whole depth |
| Walk.NotionalBounds | src/order_book/book.rs:168-169 | the notional lies between the fill at the lowest and at the highest price |
| Pricing.BuyReportIsCheapest | src/order_book/book.rs:154-183 | a Buy result is reported if and only if its fill is the most the depth allows, its rest is what is missing, and its average is the least cost over all allocations per unit, rounded down |
| Pricing.SellReportEarnsMost | src/order_book/book.rs:154-183 | the same for Sell and the greatest proceeds |
| Pricing.ReportAccounts | src/order_book/book.rs:174-182 | no result exactly for a zero order or all-zero sizes; fill plus rest is the order; the average is rounded down |
| Pricing.NoOverflow | src/order_book/book.rs:155-182 | for all u64 prices, sizes and quantities the notional is at most (2^64-1) times the fill, within u128, and the average fits u64 |
| Pricing.AverageWithinTouched | src/order_book/book.rs:164-182 | the average lies between the cheapest and the dearest price actually taken from |
| Pricing.BuyImpactIsMonotone | src/order_book/book.rs:164-182 | the floored average is no lower for a larger Buy |
| Pricing.SellImpactIsMonotone | src/order_book/book.rs:164-182 | the floored average is no higher for a larger Sell |
| Pricing.CrossingCosts | src/order_book/book.rs:139-183 | for any two orders average Buy minus average Sell is at least the quoted gap |
| Pricing.SpreadBoundIffUncrossed | src/order_book/book.rs:139-183 | on any two sides, zero sizes and crossed prices included, `spread()` bounds the per-unit cost of every round trip if and only if no bid of positive size lies above an ask of positive size |
| Pricing.RoundTripsCostTheGap | src/order_book/book.rs:139-183 | the greatest such bound is the gap between the best levels with something on them; where those are the best prices and do not cross, it is `spread()` |
| FixedPoint.RoundTrip | src/order_book/book.rs:25-31 | `from_f64(to_f64(x)) == x` for every raw x below 3355443200000019 (more than 2^51), however ties are rounded in any of the three float operations, and both can always be carried out |
| FixedPoint.RoundTripIffBelowFirstLoss | src/order_book/book.rs:25-31 | the bound is sharp: all raw values below n survive if and only if n is at most 3355443200000019 |
| FixedPoint.FirstLossIsLost | src/order_book/book.rs:25-31 | 3355443200000019 itself always comes back one higher |
| FixedPoint.DistinctKeysPrintApart | src/order_book/book.rs:190-211 | distinct keys below that bound are serialized as distinct floats |
| FixedPoint.NearestInGap | src/order_book/book.rs:25-31 | which float a value rounds to, and that the error is at most half a unit in the last place |
| FixedPoint.KeysKeepOrder | src/order_book/book.rs:18-27 | a smaller price never gets a larger key, and prices up to zero get key 0 |
| Broadcast.NoSilentLoss | src/deribit/subscription_stream.rs:47-56 | over any history of sends and receives each stretch between lag errors is exactly the matching items of one contiguous slice of the sends, and each error counts exactly the sends between two slices |
| Broadcast.PollIsReceives | src/deribit/subscription_stream.rs:70-72 | a poll is some number of receives, so the same holds of polls |
| Broadcast.NextSkipsOnlyTheUnwanted | src/deribit/subscription_stream.rs:47-56 | one poll passes over unwanted items only, and reports what it missed |
| Broadcast.ReceiveIsExact | src/deribit/subscription_stream.rs:47-51 | a receiver no more than the capacity behind is given its item, one further behind the exact number it missed |
| Broadcast.SubscriptionStream.PollNext | src/deribit/subscription_stream.rs:47-72 | the loop over the ring yields the next matching item or the lag error, and stands right after it |
| Broadcast.Ring.Send | src/deribit/client.rs:125-126 | the overwriting slot array retains exactly the last sends up to its capacity |
| Broadcast.Ring.Receive | src/deribit/subscription_stream.rs:47-51 | a receiver is given the send at its position, or told how many it has missed |
| Broadcast.InstrumentIsolation | src/deribit/client.rs:304-309 | without lag, two broadcast histories that agree on one instrument's messages drive its manager to the same book and exit, whatever the other traffic, however sends and looks interleave and whoever listens; timeouts may happen, at the same point of its own messages |
| Broadcast.DrivenIsHandled | src/deribit/client.rs:304-320 | a manager that does not lag has handled exactly its own messages among those its stream has gone past, and then a timeout if there was one |
| Broadcast.LooksMoveOn | src/deribit/client.rs:304-309 | a manager that keeps up is taken past one message by each look, and handles it exactly if it is its own |
| Broadcast.TimeoutsAndLagsEnd | src/order_book/book_manager.rs:150-153 | waiting too long or falling behind the ring ends the stream and touches nothing else |
| Broadcast.ListenersOnlyHear | src/order_book/book_manager.rs:196-202 | who listens to the manager decides what is announced, and nothing else |
| Requests.RequestsMatchReplies | src/deribit/client.rs:175-205 | in every interleaving of callers and dispatcher: the table holds exactly the requests entered, not left and not answered; a caller gets the first message bearing its own id to come after its entry, which waits in its box until it looks; no id is answered twice |
| Requests.ReplyReachesItsCaller | src/deribit/client.rs:84-90 | a reply that comes while its caller listens finds the entry and goes to that caller alone |
| Requests.StrayRepliesReachNobody | src/deribit/client.rs:142-151 | replies to id 0, to pongs and to answered ids change nothing |
| Requests.BroadcastsFollowArrival | src/deribit/client.rs:98-165 | the broadcasts are the inbound book and ticker messages and loss markers, in order of arrival, in every run |
| Requests.PushesGoByKind | src/deribit/client.rs:108-141 | a push on a printed channel is broadcast, as its payload, by the channel's kind, if the payload is of that kind, and goes nowhere else |
| Requests.EveryTestTakesAnId | src/deribit/client.rs:142-151 | in every run there are as many pongs as heartbeat tests, and ids go to callers and pongs only |
| Requests.RequestTable.TakeReply | src/deribit/client.rs:195-198 | what a caller is given bears its own id |
| Requests.RequestTable.DispatchOne | src/deribit/client.rs:75-170 | one turn of the dispatch loop, on the client's own fields |
| Requests.RequestTable.DispatchLoop | src/deribit/client.rs:67-173 | the loop over a stretch of the inbound queue is its turns in order |
| Requests.RequestTable.Request | src/deribit/client.rs:175-205 | a whole request, whatever other callers and the dispatcher do while it waits: everything dispatched meanwhile is handled; it returns the first message bearing its id to come after its entry if and only if it could be sent and there was one, and its entry is gone in the end either way |
| Subscriptions.CountIsRightIffListed | src/deribit/client.rs:207-248 | in every run, whatever overlaps and whichever RPCs fail, the count is the number of unreleased subscribes throughout if and only if every subscriber that counts itself in finds its entry still listed |
| Subscriptions.LocksAreHeldByLockers | src/deribit/client.rs:214-246 | in every run a channel's lock is held exactly by the task at work under it: who fails, finishes or leaves has let go |
| Subscriptions.RefCountIsSafeIffGuarded | src/deribit/client.rs:207-248 | the counts are right, and a held channel is one the exchange was told to publish however the run settles from any of its states, if and only if moreover every unsubscribe command is sent for a channel that nobody holds, awaits or was granted |
| Subscriptions.StepKeeps | src/deribit/client.rs:207-248 | the inductive invariant behind it, kept by every guarded step at lookup, lock, enqueue, reply and count granularity, other channels' and the exchange's included |
| Subscriptions.UnservedDoesNotSettle | src/deribit/client.rs:238-243 | the other half: an unsubscribe command sent while the channel is needed can leave a holder with nothing |
| Subscriptions.RefCountIsSafe | src/deribit/client.rs:207-248 | if subscribes on a channel do not overlap unsubscribes that have not sent their command: the count is the number of unreleased subscribes, while it is positive the exchange was told to publish the channel and on an unbroken connection does, and at most one caller awaits a subscribe RPC |
| Subscriptions.HeldIsPublishedIffResubscribed | src/deribit/client.rs:214-225 | across reconnects a held channel is published if and only if a subscribe command on it was carried out over the present connection |
| Subscriptions.HeldAcrossReconnectGoesDark | src/deribit/client.rs:214-223 | a channel that stays held across a reconnect, with no subscribe command queued, stays unpublished as long as it is held |
| Subscriptions.SubscribedExactlyWhileHeld | src/deribit/client.rs:228-248 | if no command was lost either, then with none out the exchange was last told to publish the channel if and only if somebody holds it |
| Overtaking.OverlapBreaksTheCount | src/deribit/client.rs:235-239 | a 17-step run of overlapping calls that ends with a holder, count 0 and the channel unsubscribed |
| SharedChannels.SubscriptionTable.Subscribe | src/deribit/client.rs:207-226 | a whole subscribe, whatever other tasks and the exchange do while it waits: it ends as a holder or as failed, and in either case holds no lock; where all steps passed the checks the counts are right and holders served; if nobody else touched the channel, the count grows by one exactly on success, the lock is left as it was found, and it succeeds if and only if it found the lock free and either a positive count or, once accepted, its command carried out |
| SharedChannels.SubscriptionTable.Unsubscribe | src/deribit/client.rs:228-248 | a whole unsubscribe likewise: undisturbed, it takes one off the count, leaves the lock as it was found, and the last one out leaves none and its command at the end of the queue |
| SharedChannels.OthersLeave | src/deribit/client.rs:214-225 | no step of another task moves a waiting task or takes its lock away |
| Connection.PublishedStatesAreALife | src/deribit/connection.rs:105-151 | published states are always a prefix of (Connecting (Failed or Connected Failed))* Connecting Connected Stopped, and all of one once stopped |
| Connection.ConnectionsAreSeparated | src/deribit/connection.rs:147-149 | data of two connections is separated on the inbound queue by a `ConnectionLost`, and connections come in order |
| Connection.EveryFailureIsReported | src/deribit/connection.rs:121-149 | while anyone listens every published failure is reported on the queue exactly once |
| Connection.EveryFrameArrives | src/deribit/connection.rs:167-228 | for every sequence of events the data on the inbound queue is exactly the text frames that come while a connection is up and somebody listens, in order, once each, tagged with the number of connections made; and every failed attempt, set-up or connection is published |
| Connection.BroadcastIsSeparated | src/deribit/client.rs:158-165 | after dispatch a loss marker stands on the book broadcast between the messages of two connections |
| Connection.ConnectionRunner.MaintainConnection | src/deribit/connection.rs:105-151 | the loops, over any sequence of network events, enqueue exactly the text frames a scan of the events gives, stop exactly on a shutdown, and publish as the state machine does |
| Connection.ConnectionRunner.HandleConnection | src/deribit/connection.rs:153-230 | the inner loop serves one connection up to the event that breaks it or shuts it down, and hands on what `EveryFrameArrives` describes |
| Backpressure.StuckIffBlocked | src/deribit/connection.rs:167-182 | either loop waits for ever, whatever the network and the callers do, if and only if both queues are full, the connection loop has a message to pass on and the dispatch loop a heartbeat test to answer; so never one of them alone |
| Backpressure.BlockedIsReachable | src/deribit/client.rs:143-151 | and a sequence of events leads there from the idle state |
| Channel.ParseMeaning | src/deribit/channel.rs:46-68 | parsing succeeds exactly on names with at least two dots, and splits them at the first two |
| Channel.ParseUndoesNew | src/deribit/channel.rs:19-68 | a printed channel always parses, and to its own parts if and only if kind and instrument hold no dot |
| Channel.SplitIsUnique | src/deribit/channel.rs:46-68 | a name splits at its first two dots in one way only |
| Channel.SameOnlyIfPartsAgree | src/deribit/channel.rs:79-83 | such channels are one key if and only if all their parts agree |
| Channel.DottedInstrumentsCanCollide | src/deribit/channel.rs:79-83 | every dotted instrument shares a key with a shorter instrument under a longer interval |
| Channel.HasTwinIffDotted | src/deribit/channel.rs:79-83 | a channel has a twin with other parts and the same key if and only if some part of it holds a dot |
| Channel.PushesAreRoutedByKind | src/deribit/client.rs:108 | the part before a printed channel's first dot is its kind |

## Left out

- FixedPoint.RoundTrip: floats have unbounded exponents here, because the values in question are far from the exponent limits of binary64; NaN and infinities have no counterpart.
- Replication.ReplicaIsFaithful: safety only, because nothing is said about how soon a detached manager catches up.
- Requests.RequestTable.Request: does not model wrap-around at 2^64, because the counter is taken not to reach it.
- SharedChannels.SubscriptionTable.Subscribe: does not model wrap-around of the count at 2^32, because it is taken not to reach it.
- Level prices and sizes are carried by messages as raw fixed-point words: `from_f64`, which the program applies level by level, is treated on its own in `FixedPoint`.
- Channel offsets are positions in a sequence of characters, not of UTF-8 bytes; the dots are single bytes either way.
- JSON, UTF-8, TLS and WebSocket framing: messages are values already parsed, and one that does not parse is `Ignored`.
- Delays, backoff, jitter and the lengths of timeouts: each is a step that may happen at any time.
- Tokio's and DashMap's insides: channels are queues, the broadcast is a bounded ring with a position per receiver, a lock is its ownership, a map operation is one step. Fairness of locks is not modelled.
- A command lost together with its connection counts as carried out just before the reconnect: the exchange ends up the same, and a reply to it is possible in the model though not in fact.
- The shutdown of either loop in `Backpressure`, whose loops run on.
- The ticker subscription of src/deribit/client.rs:277-297 and the plain data types: they would only add easy members.
- The HTTP server, its SSE streams, metrics and configuration.
