# DLottery: a verified model

DLottery is an on-chain lottery with one live round and any number of earlier rounds whose prizes
and refunds stay claimable, a randomness adapter that stores each random word once, and an indexer
that follows the chain into a database from which an API answers. This project models the three
layers in Dafny and proves what holds of each and how they fit together. `dafny verify
dfyconfig.toml` checks all of it.

## How the model is built

**The contracts.** `Contract` describes the lottery, its provider and its token account as one
value, `World`, and every external call as a function from `World` to a new `World` or an error. A
call carries a script of the calls that others make while it waits for the token or for the
coordinator, nested to any depth, so a value of type `Call` is any re-entrant schedule. `Exec` runs
one call, `Run` a sequence of transactions from `GENESIS`. `Invariants`, `Preservation` and
`Transactions` prove that `Inv` (the books, the round history, the ticket boards and the request
table) holds at every point at which somebody else has control and that `AtRest` holds after every
run. `Interference` says what calls that enter meanwhile can do at most, `CallOutcomes` when each call
succeeds and what it leaves, over the stored fields and with the limits as numbers; `Payments` who pays
and who is paid, per call, per event and per account; `EventTruth` that storage bears out every event
ever emitted. `Objects` holds the same contracts as classes whose methods write storage step by step; each
method is proved to do what its function says, so the theorems of `LotteryTheorems`,
`LotteryOutcomes`, `CallOutcomes`, `Payments`, `EventTruth` and `NestedRandomness` are theorems about the
objects. `Growth` says what no call ever takes back.

**The reducer.** `Projection` holds the indexer's record of a draw, the reducer `Apply`, and
`ChainDraw`, the record that a browser builds from the contract directly. `ProjectionObjects` is the
reducer as it runs, updating a record and its ticket array in place. `Refinement` proves that folding
the events of any contract run gives the contract's own records; `Countdown` is a run on which the
one excepted field differs. `ReducerOutcomes` says what the reducer accepts from anybody and what then
holds of every record.

**The store.** `Store` holds the tables, the commit of a block and the rewind; `StoreTables` the
agreement of the three projection tables; `EventOrder` which events can be replayed in which order,
`StoreOrder` what that means for rewinds, `BlockOrder` for the events of one block; `StoreObjects`
the class whose transactions work on copies and replace the tables when they commit; `CommitOutcomes`
when a commit succeeds and what it adds. `History`,
`HistoryRuns` and `HistoryReads` are about reading: snapshots and history pages, also while the
indexer goes on.

**The indexer.** `Chain` is the chain as a tree of blocks: a hash stands for a parent, a timestamp
and the calls that the block executes, so the contract's state at a hash is a function of the branch
below it. `Indexing` is one pass of the indexer as a function of what the node and the database
answer at each moment of the pass; any two answers may come from different chains, and any answer may
be missing. `IndexingObjects` is the class with its loops. `IndexingSafety` proves the end-to-end
statement, `IndexingProgress` where a pass rewinds to, how far it scans, and convergence;
`IndexingChecks` says what is checked before a block is added, for every choice of answers, and what the
health record tells; `Realization` shows that what these theorems assume can be met with any life of the contract.

**Redaction.** `Redaction` is about the text that replaces endpoints in logged errors.

Facts about the code that the model keeps:

- `CommitBlock` projects events in the order given, `Rewind` replays them in table order and leaves
  the retained rows where they are. A rewind therefore either restores the state held at its block
  exactly or is refused, and it restores it for every answer of the database exactly if the related
  events up to that block (two events of one draw, refunds among themselves aside) were committed in
  table order. `StoreOrder` proves this for every store and every block, and gives a block that
  commits and can never be replayed. The indexer sorts before it commits.
- `Apply` alone accepts more than the contract emits (a sixth ticket, any free position), so the
  refinement ranges over contract runs.
- The API guide (docs/api-guide.md:38) tells clients to compare the projection with a contract read at
  the same block. The two records differ in `remainingSeconds` once a round is no longer ACTIVE before
  its deadline: the projection shows 0, the contract view counts on. `Refinement.CountdownAgreesIff`
  gives the exact condition and `Countdown.CountdownsDiffer` a run of the contract on which they show 0
  and a whole day.
- Starting a round after round 2^256 - 1 fails on checked arithmetic; nothing else ever does.
- A rewind to the block before the start stores an empty cursor hash, after which the next block is
  accepted with any parent.

Assumptions, each of them a parameter or a predicate in the model: block timestamps are positive and
leave room for 24 hours in uint64; the token moves the exact amount or reverts, and its balances fit
uint256; nobody calls as the zero address, the lottery, the provider or (except for callbacks) the
coordinator; the coordinator answers with any number or reverts, and calls back with any words at any
time; hashes do not collide; decoding a log of the contract gives the event it emitted; a node may answer late, partially or not at all, but what it
says about a hash is true of that hash (`IndexingSafety.HonestAnswer`); there is one writer to the
database, and its transactions are atomic.

## Model

| member | source | states |
|---|---|---|
| LotteryTheorems.Conservation | contracts/src/DLottery.sol:104-202 | after every run, all ticket money equals the liabilities plus the pools of COMPLETED rounds plus the refunds paid, and the token balance is the liabilities plus donations |
| LotteryTheorems.BucketDecomposition | contracts/src/DLottery.sol:108-202 | after every run, each of the four buckets is determined by the history of rounds: the live pool, the carry of the last round, the sum of declared prizes, the sum of open refunds |
| LotteryTheorems.CallPointsGuarded | contracts/src/DLottery.sol:122-202 | at each point where the token or the coordinator has control, the guard is set and the invariant of the books holds |
| LotteryTheorems.NestedCallsAreSafe | contracts/src/DLottery.sol:122-202 | whatever calls are made at such a point, the bucket equations hold, the balance covers the liabilities, and no round is settled before its request is registered |
| LotteryTheorems.SettlementNeverStuck | contracts/src/DLottery.sol:159-186 | in every reachable state finalizeDraw succeeds if and only if the round is DRAWING and its word has arrived; it then settles the round by that word and keeps the liabilities |
| LotteryTheorems.SettlementNeverStuckInside | contracts/src/DLottery.sol:159-186 | the same if and only if at every token or coordinator call point of every call, after any other calls made there: finalizeDraw has no guard, and it works while another call waits |
| CallOutcomes.StartExactly | contracts/src/DLottery.sol:108-121 | startDraw succeeds if and only if the id is current and the last round, if any, is final, claimed or not; the round opens now, closes 86400 seconds later and takes over the pending rollover, and nothing else changes |
| CallOutcomes.BuyExactly | contracts/src/DLottery.sol:122-136 | with any calls around the payment, a sale succeeds if and only if the round is current, ACTIVE, before its deadline and below five tickets, the wallet has none, the transfer goes through and nobody gives tokens meanwhile; it then records the next ticket for the exact price |
| CallOutcomes.BuyPlainly | contracts/src/DLottery.sol:122-136 | with a plain payment: if and only if the ticket is on sale and the price fits uint256 |
| CallOutcomes.PerformExactly | contracts/src/DLottery.sol:137-157 | a full or expired ACTIVE round with too few tickets is always cancelled, with a pending refund for every holder and the inherited pool carried on; with enough tickets the call succeeds if and only if the provider serves the lottery and the coordinator answers a new nonzero number, and the round then waits for it; nothing else can be drawn |
| CallOutcomes.PrizeExactly | contracts/src/DLottery.sol:187-195 | with any calls around the transfers, claimPrize succeeds if and only if the sender is the winner of a declared prize and the transfers go through; it moves exactly the fee to the DAO and exactly the prize to the winner, and completes the round |
| CallOutcomes.RefundExactly | contracts/src/DLottery.sol:196-202 | likewise, claimRefund succeeds if and only if the sender holds an unrefunded ticket of a cancelled round, and moves exactly the ticket price to the sender |
| CallOutcomes.CallbackExactly | contracts/src/VRFProvider.sol:45-52 | only the coordinator is heard; the first callback with a word for a requested number stores it and, given gas, settles the round by it at once; any other callback changes nothing |
| CallOutcomes.DeliverExactly | contracts/src/VRFProvider.sol:53-58 | a word can be delivered if and only if it is stored; the first delivery settles its round by it, a later one changes nothing |
| CallOutcomes.SetLotteryExactly | contracts/src/VRFProvider.sol:31-35 | setLottery succeeds if and only if the configurator calls it, no lottery is set, and the target is a contract |
| CallOutcomes.ServesForGood | contracts/src/VRFProvider.sol:31-35 | in every continuation the provider keeps the lottery it was given |
| CallOutcomes.ViewsTell | contracts/src/DLottery.sol:91-103 | canStartDraw and canPerformDraw tell whether those calls are open, and claimable is nonzero exactly if the plain claim succeeds, and is then its amount |
| Interference.LockedSettles | contracts/src/DLottery.sol:122-202 | whatever is called while the guard is held pays nobody, logs settlements only, and changes no round except to settle it |
| Payments.PaysExactly | contracts/src/DLottery.sol:122-202 | every call, with any nested calls, moves exactly the payments that its storage calls for between exactly their parties; calls other than purchases and claims pay nobody |
| Payments.PaidAsLogged | contracts/src/DLottery.sol:122-202 | after every run the events report exactly what was moved, payer, recipient and amount, in order |
| Payments.BalanceOfPayments | contracts/src/DLottery.sol:122-202 | after every run the balance is the gifts plus what was paid in minus what was paid out |
| Payments.AccountsBalance | contracts/src/DLottery.sol:122-202 | after every run each account has paid one ticket price per round it holds a ticket of, and got the prizes it won and claimed, its refunds and, as the DAO, the fees of claimed prizes |
| EventTruth.LogIsTrue | contracts/src/DLottery.sol:108-202 | after every run storage bears out every event ever emitted, in all its fields and its time |
| EventTruth.SalesBeforeDeadline | contracts/src/DLottery.sol:122-126 | in every run each sale is logged before the deadline that the start of its round announced, 86400 seconds after that start |
| LotteryTheorems.DeployedRuns | contracts/src/DLottery.sol:71-81 | tokens that were at the address before the deployment and a provider that already names another contract add nothing new: every run from such a start is a run from the empty one |
| LotteryTheorems.NeverPanics | contracts/src/DLottery.sol:104-202 | in every reachable state and whatever happens during its token or provider calls, a call fails on checked arithmetic if and only if it would start a round beyond the last number of uint256 |
| LotteryOutcomes.PayOne | contracts/src/DLottery.sol:187-202 | a pending claim succeeds, pays the claimant what claimable reports and the DAO its fee, discharges itself and leaves every other claim as it was |
| LotteryOutcomes.AnyOrderPayability | contracts/src/DLottery.sol:187-202 | all pending claims succeed in every order, each pays its own recipients, and together they leave both outstanding buckets at zero, and do not touch the live pool, the rollover or the surplus |
| LotteryOutcomes.RolloverClosedForm | contracts/src/DLottery.sol:108-181 | a pool is the ticket price times this round's tickets and those of all NO_WINNER rounds since the last round with a winner |
| LotteryOutcomes.ExactFee | contracts/src/DLottery.sol:174-178 | twenty times the fee is the profit if and only if the token has a decimal place or the ticket count is odd; otherwise it is below by less than 20, in the winner's favour |
| LotteryOutcomes.TicketBoard | contracts/src/DLottery.sol:122-172 | ticketOf and the owner table are inverse on 1..participantCount, the winner is the owner of the lucky number and exists exactly if it was sold, and all earlier rounds are final |
| LotteryOutcomes.FrozenOutcomes | contracts/src/DLottery.sol:108-202 | in every continuation the board and the pool are frozen after ACTIVE and the result after settlement; only a declared prize becomes a completed one |
| LotteryOutcomes.SettledIffDelivered | contracts/src/VRFProvider.sol:36-58 | delivered implies ready implies requested, and a round is settled exactly if its request is delivered, by its stored word |
| LotteryOutcomes.NoReroll | contracts/src/VRFProvider.sol:45-58 | the first accepted word of a request, arriving between calls, decides its round in every continuation, through later callbacks, failed deliveries and retries |
| NestedRandomness.PointGrows | contracts/src/DLottery.sol:122-202 | what the calls at a token or coordinator call point of a successful call have logged, requested, stored or delivered is not taken back by the rest of that call |
| NestedRandomness.NoRerollInside | contracts/src/VRFProvider.sol:45-58 | so does a first word that arrives inside another call, at any of its call points and among any other calls made there |
| Growth.ExecGrows | contracts/src/VRFProvider.sol:36-58 | every call, with any nested schedule, only adds to the log at its own time, only adds to the stages of requests and never replaces an accepted word |
| Transactions.ExecInv | contracts/src/DLottery.sol:108-202 | every call, with any nested schedule, keeps the invariant and only lets the state evolve forwards |
| Transactions.RunInv | contracts/src/DLottery.sol:108-202 | so does every sequence of transactions |
| Preservation.LockedCalls | contracts/src/DLottery.sol:159-186 | calls that enter while the guard is set keep the invariant; of all rounds only the current one can change, from DRAWING to its outcome, and not at all before its request is registered |
| Preservation.SettledRoundOk | contracts/src/DLottery.sol:159-181 | settling a DRAWING round gives a well-formed round of either outcome |
| Objects.DeployLottery | contracts/src/DLottery.sol:71-81 | the deployment checks and the constructor together, on an address that may hold tokens already and a provider that may name another contract: a lottery with the checked configuration, no rounds, and just those tokens as gifts, or InvalidConfiguration |
| Objects.Deploy | contracts/src/DLottery.sol:71-81 | deployment succeeds exactly within the constructor's bounds, and then takes over its arguments, and the ticket price fits uint256 |
| Objects.PriceFits | contracts/src/DLottery.sol:74-77 | ten tokens of at most 75 decimals never overflow |
| Objects.Lottery.StartDraw | contracts/src/DLottery.sol:108-121 | the method writes the state that the call function gives, or reverts with its error and changes nothing |
| Objects.Lottery.BuyTicket | contracts/src/DLottery.sol:122-136 | likewise, with any calls made during the token transfer |
| Objects.Lottery.PerformDraw | contracts/src/DLottery.sol:137-157 | likewise, with any calls made before the coordinator answers |
| Objects.Lottery.FulfillRandomness | contracts/src/DLottery.sol:159-181 | likewise; only the provider is heard, and a request that is unknown or whose round does not wait changes nothing |
| Objects.Lottery.FinalizeDraw | contracts/src/DLottery.sol:183-186 | likewise, through the provider's delivery |
| Objects.Lottery.ClaimPrize | contracts/src/DLottery.sol:187-195 | likewise, with any calls made during either transfer |
| Objects.Lottery.ClaimRefund | contracts/src/DLottery.sol:196-202 | likewise, with any calls made during the transfer |
| Objects.VRFProvider.SetLottery | contracts/src/VRFProvider.sol:31-35 | the configurator, and nobody else, sets the address once: to the observed lottery or to another contract, never to an address without code |
| Objects.VRFProvider.RequestRandomness | contracts/src/VRFProvider.sol:36-44 | an answered request is recorded on top of whatever happened meanwhile |
| Objects.VRFProvider.RawFulfillRandomWords | contracts/src/VRFProvider.sol:45-52 | the word is kept whether or not its delivery fails; repetitions change nothing |
| Objects.VRFProvider.Deliver | contracts/src/VRFProvider.sol:53-58 | a stored word is delivered once, and a failed delivery leaves it to be retried |
| Objects.RunTransactions | contracts/src/DLottery.sol:108-202 | running transactions on the objects gives the state of the run |
| Refinement.EventRefinement | backend/internal/lottery/model.go:113-230 | for every contract run the fold of its events never fails, has exactly the started rounds, and each record refreshed at any time is what a reader of the contract builds at that time |
| Refinement.ExecTracks | backend/internal/lottery/model.go:113-230 | each call, with any nested schedule, keeps the fold of the log equal to the records of the state |
| Refinement.LockedTracks | backend/internal/lottery/model.go:173-195 | settlements nested in a claim or a purchase are folded before the outer event, and the fold still follows storage |
| Refinement.StoredAgrees | frontend/src/chain.ts:70-106 | a stored record, refreshed, is the directly read one on every field except the countdown of a round that is no longer ACTIVE |
| Refinement.CountdownAgreesIff | frontend/src/chain.ts:101 | the two countdowns agree exactly while the round is ACTIVE or after its deadline |
| Countdown.CountdownsDiffer | backend/internal/lottery/model.go:99-105 | after five sales and a draw within one moment, at any time, the projection of the run shows no time left and the direct read a whole day |
| ProjectionObjects.DrawRecord.Refresh | backend/internal/lottery/model.go:99-105 | the derived fields are those of the refreshed record, and nothing else changes |
| ProjectionObjects.DrawRecord.TicketBought | backend/internal/lottery/model.go:145-165 | a sale is refused exactly for a bad number, a taken position, a wrong count or a wallet already on the board |
| ProjectionObjects.DrawRecord.RefundClaimed | backend/internal/lottery/model.go:211-225 | the first unrefunded position of the wallet is marked, and only that one |
| ProjectionObjects.ApplyEvent | backend/internal/lottery/model.go:113-230 | the in-place reducer gives the record of the value reducer, or the error and no record |
| ReducerOutcomes.AcceptsExactly | backend/internal/lottery/model.go:113-230 | an event is accepted if and only if the record is at its stage and agrees with what the event says of tickets, prize and price |
| ReducerOutcomes.FoldedRecords | backend/internal/lottery/model.go:113-230 | whatever log is accepted, made by the contract or not, every record counts its held positions and has each field set at its stage and not before |
| StoreTables.ProjectKeepsMirror | backend/internal/store/store.go:107-140 | projecting an event fails exactly if the reducer rejects it: no key or constraint is ever violated, and the three tables keep agreeing |
| StoreTables.TablesFollowFold | backend/internal/store/store.go:107-140 | the tables exist exactly if the fold of the events does, and their draws are that fold |
| StoreTables.StoreMirror | backend/internal/store/schema.sql:12-22 | in every state of the database the ticket and claim rows say what the draw bodies say |
| StoreOrder.StoreInvariant | backend/internal/store/store.go:143-248 | after any mix of commits (fresh, repeated, conflicting, invalid, in any order) and rewinds, blocks are one parent-linked run to the cursor, and the tables are the projection of the retained events |
| Store.CommitKeeps | backend/internal/store/store.go:143-190 | a commit that succeeds keeps the invariant: a fresh block moves the cursor to it, a repeated one changes nothing |
| CommitOutcomes.CommitExactly | backend/internal/store/store.go:143-190 | a commit succeeds if and only if the block is stored with this hash, or is next, has the right parent, and its events are its own and projectable; a repetition changes nothing, a fresh block adds its new events |
| CommitOutcomes.LogsStoredOnce | backend/internal/store/store.go:170-184 | after a fresh commit each event's block hash, transaction hash and log index is that of exactly one row |
| CommitOutcomes.ClaimsCite | backend/internal/store/store.go:132-138 | every claim row names the transaction and the amount of a claim event of its draw, wallet and kind, and every claim event has its row |
| Store.ListingIsUnique | backend/internal/store/store.go:210 | rows without ties can be read back in one way only, in the order of insertion |
| Store.RewindIsUndo | backend/internal/store/store.go:193-248 | with rows in table order, a rewind to any block from Start-1 to the cursor never fails on replay and gives the state held at that block |
| EventOrder.FoldForces | backend/internal/lottery/model.go:113-230 | whatever folds without error is in causal order: of two related events the one that is earlier in the life of the draw comes first |
| EventOrder.ProjectsCommute | backend/internal/store/store.go:107-140 | unrelated events, of different draws or two refunds, can be projected in either order with the same tables |
| EventOrder.ReplayIffCausal | backend/internal/store/store.go:232-236 | events that can be replayed in one order can be replayed in another exactly if that is causal, and then with the same tables |
| StoreOrder.RefusedOrExact | backend/internal/store/store.go:193-248 | whatever the order of insertion, a rewind succeeds exactly if the rows are read back in causal order, and then gives exactly the state held at its block |
| Store.CommitsThenRewind | backend/internal/store/store.go:143-248 | committing any blocks does not change what was held at any earlier block |
| Store.RewindsCollapse | backend/internal/store/store.go:193-248 | consecutive rewinds are the lower one |
| StoreOrder.CommitsUndone | backend/internal/store/store.go:143-248 | committing blocks whose related events are in table order and rewinding to the old cursor is the identity, for every answer to the query |
| StoreOrder.RewindRestoresIffAligned | backend/internal/store/store.go:193-248 | for every store and every block: a rewind restores the state held there, for every answer to the query, if and only if the related events up to it were committed in table order |
| StoreOrder.UnsortedCommit | backend/internal/store/store.go:170-184 | a batch that lists the start of a draw before a sale with a lower log index commits and then cannot be replayed |
| BlockOrder.AnyOrderCommit | backend/internal/store/store.go:170-184 | the events of a contract block in any order and with any repetitions commit exactly if their first occurrences are in causal order, and then leave what the sorted batch leaves, apart from the order of the rows |
| StoreOrder.InsertAllAligned | backend/internal/store/store.go:170-184 | a batch with related events in table order, up to exact repetitions, adds rows for which the same holds |
| StoreObjects.WriteTickets | backend/internal/store/store.go:124-131 | the loop over positions writes what the upserts of all positions give, and stops at the first violated constraint |
| StoreObjects.Project | backend/internal/store/store.go:107-140 | one event is projected into all three tables or into none |
| StoreObjects.Insert | backend/internal/store/store.go:170-184 | the loop over a batch inserts and projects the new events and skips the known ones |
| StoreObjects.Replay | backend/internal/store/store.go:232-236 | the loop over the read rows rebuilds the tables from nothing |
| StoreObjects.Store.CommitBlock | backend/internal/store/store.go:143-190 | block, projections and cursor change together, or an error is returned and nothing changes |
| StoreObjects.Store.Rewind | backend/internal/store/store.go:193-248 | tables and cursor are rebuilt together, or an error is returned and nothing changes |
| StoreObjects.Store.Read | backend/internal/store/store.go:258-320 | the snapshot is the refreshed answer to the query, cut to the page, with the cursor to follow |
| History.SnapshotPage | backend/internal/store/store.go:314-318 | a page shows at most `limit` ids and names a next cursor exactly if there was one more row |
| History.HistoryRows | backend/internal/store/store.go:281-288 | the rows of a history query are the first `limit + 1` finalized draws below the cursor |
| History.HistoryPaging | backend/internal/store/store.go:258-320 | following the cursor lists the draws finalized at the first page once each, newest first, and ends exactly when all are listed; every page before that adds `limit` of them |
| HistoryRuns.ForwardSettles | backend/internal/store/store.go:281-288 | between forward commits of a contract run finalized draws stay so and newly finalized ones are newer than all others |
| HistoryRuns.PagingAcrossCommits | backend/internal/store/store.go:258-320 | paging over stores of which each is further along the same branch neither repeats nor hides a draw |
| HistoryReads.TurnsForward | backend/internal/indexer/indexer.go:100-198 | turns of the polling loop that count no reorganisation leave a store further along the same branch |
| HistoryReads.PagingWhileIndexing | backend/internal/store/store.go:258-320 | following the cursors of successive snapshots, with any turns of the indexer between them that count no reorganisation, shows the draws finalized at the first page once each, newest first, and ends exactly when all are shown |
| HistoryReads.PagesCanBeRead | backend/internal/store/store.go:258-320 | with any turns of the indexer between the pages, reorganisations included, the cursor can be followed: every page has an answer and a snapshot, down to the end of the cursor or of the turns |
| HistoryRuns.SnapshotAgrees | docs/api-guide.md:38 | every record of a snapshot is the contract's own at the block hash and block time that the snapshot names |
| HistoryRuns.HistoryListsFinished | backend/internal/store/store.go:281-288 | of a faithful store the history lists just the rounds that the contract has finished at the cursor hash |
| HistoryRuns.SnapshotSelects | backend/internal/store/store.go:275-291 | the unfiltered query shows the contract's current round, the query for one draw exactly a started one |
| Chain.BranchLog | backend/internal/indexer/indexer.go:158-180 | the events of a branch are the log of the contract at its tip |
| Chain.BranchOrdered | backend/internal/indexer/indexer.go:164-169 | the events of a branch are strictly in table order |
| IndexingObjects.DecodeLogs | backend/internal/indexer/indexer.go:170-180 | logs are decoded one by one up to the first foreign or undecodable one |
| IndexingObjects.Indexer.FindAncestor | backend/internal/indexer/indexer.go:120-133 | the backward loop gives the result of the walk or its first failure |
| IndexingObjects.Indexer.ScanBlocks | backend/internal/indexer/indexer.go:150-196 | the scan loop leaves the store, the health record and the error that the scan function gives |
| IndexingObjects.Indexer.Sync | backend/internal/indexer/indexer.go:100-198 | a pass leaves the store, the health record and the error that the pass function gives for every choice of answers |
| IndexingObjects.Indexer.Run | backend/internal/indexer/indexer.go:46-73 | turns of the polling loop do what the sequence of passes does, and failures are counted |
| IndexingSafety.SortedInsert | backend/internal/indexer/indexer.go:164-180 | a sorted batch with repetitions inserts exactly the rows it is made of |
| IndexingSafety.FaithfulCommit | backend/internal/store/store.go:143-190 | committing the logs of the next block of the branch never fails and keeps the store faithful |
| IndexingSafety.FaithfulRewind | backend/internal/indexer/indexer.go:134-143 | a rewind of a faithful store never fails and leaves a faithful store |
| IndexingSafety.SyncFaithful | backend/internal/indexer/indexer.go:100-198 | a pass keeps the store faithful to the branch of its cursor hash, whatever changes between its calls and wherever it fails |
| IndexingSafety.EndToEnd | backend/internal/indexer/indexer.go:100-198 | after any turns of the loop, with any reorganisations and failures, the draws are the contract's at the cursor hash, and the ticket and claim tables agree with them |
| IndexingProgress.WalkStops | backend/internal/indexer/indexer.go:114-134 | the walk stops at the highest stored block that is served as it is stored, or below the start |
| IndexingProgress.CommonAncestor | backend/internal/indexer/indexer.go:114-134 | against one served branch, the blocks kept are exactly the stored ones that are on it, for a shortened head and for a reorganisation past the start as well |
| IndexingProgress.PassKeepsAncestor | backend/internal/indexer/indexer.go:114-196 | a pass leaves the store alone or keeps exactly what was held at the common ancestor under the new blocks |
| IndexingProgress.ConfirmationDepth | backend/internal/indexer/indexer.go:108-195 | a pass adds no block above the observed head minus the confirmations, nor more than 100 beyond the cursor, whatever is answered |
| IndexingProgress.StablePass | backend/internal/indexer/indexer.go:100-198 | on a chain that does not change during it, a pass succeeds and moves the cursor from the ancestor by up to 100 blocks to the safe block |
| IndexingProgress.Convergence | backend/internal/indexer/indexer.go:108-196 | on a chain that stops changing, enough passes reach the safe block with all stored blocks on the chain, and one more pass changes nothing |
| IndexingChecks.AddedChecked | backend/internal/indexer/indexer.go:150-195 | for every choice of answers, honest or not, each block added above the common ancestor has the fetched header, a recheck that gave the same hash, genuine logs only, and just the events they stand for; a pass without an error has added all up to the safe block, or a hundred |
| IndexingChecks.ScanBlockExactly | backend/internal/indexer/indexer.go:150-192 | for every choice of answers, which of missing header, changed parent, missing logs, foreign or undecodable log, missing or changed recheck and failing database refuses a block, in that order; otherwise it is stored exactly if its new events project |
| IndexingChecks.ChangedBlockStops | backend/internal/indexer/indexer.go:181-188 | if the recheck of a block in reach answers another hash or fails, the pass ends with an error and does not store the block |
| IndexingChecks.HealthTells | backend/internal/indexer/indexer.go:46-73 | after a turn synced is set exactly if the pass succeeded and reached the safe block; failures and reorganisations are counted, head, safe block and cursor are as observed, and an uncompleted rewind is reported |
| Realization.AssumptionsMeet | backend/internal/indexer/indexer.go:100-198 | for every assignment of calls to blocks there are a chain that executes them, a node that serves it, and a faithful store with blocks: the assumptions of the indexer theorems are met together |
| Redaction.Index | backend/internal/indexer/indexer.go:92-99 | the first occurrence, or -1 exactly if there is none |
| Redaction.RedactOne | backend/internal/indexer/indexer.go:82-88 | the loop for one marker terminates and is one pass over the words of the message |
| Redaction.Replaced | backend/internal/indexer/indexer.go:83-87 | one replacement has fewer colons than before, even when it is longer, and does not change what the pass gives |
| Redaction.SafeError | backend/internal/indexer/indexer.go:76-91 | the four loops together give what one pass with all four markers gives |
| Redaction.OneMore | backend/internal/indexer/indexer.go:81-89 | a later marker's loop does what looking for it from the start would do, so it never recreates an earlier marker |
| Redaction.WordByWord | backend/internal/indexer/indexer.go:76-91 | between blanks and line ends each word is kept up to the first of the four markers in it and continued by the placeholder, a word without one is kept whole, and everything between the words is kept |
| Redaction.NothingLeft | backend/internal/indexer/indexer.go:75-91 | none of the four markers is left in the result |
| Redaction.ChangedIff | backend/internal/indexer/indexer.go:76-91 | a message is changed exactly if it contains a marker, and redacting twice is redacting once |

## Left out

- HTTP routes, CORS, metrics, readiness timing and request validation: they only pass values through.
- The web client apart from the direct contract read (wallet flows, receipts, rendering): foreign calls and display.
- ABI decoding and JSON encoding of stored bodies: a body read back is the record written; a log either decodes to the event it was emitted for or is refused.
- Amounts and ids as decimal strings: they are natural numbers here, so a malformed decimal string in an event is not modelled.
- Hexadecimal letter case of addresses: an address is one value on both sides.
- PostgreSQL itself: transactions are atomic, queries answer what they ask for, ties in any order; several deployments in one database, the advisory lock and connection handling appear only as calls that may fail.
- A commit that reaches the database while its acknowledgement is lost: the pass counts it as failed; the next pass reads the cursor again.
- OpenZeppelin and Chainlink internals: mulDiv is the exact floor, the guard a flag, SafeERC20 a revert on failure; coordinator billing and gas appear as an answer that may fail and a callback that may not get through.
- Exact gas, storage packing and the getters getDraw and ticketOwners beyond what the direct read uses.
- What a provider that is bound to another contract does for that contract: only that it no longer serves this lottery.
- A token that charges a fee on transfer or changes balances by itself: the purchase refuses the first; the theorems about money do not cover the second.
- The backoff delays of the polling loop, the time of the last success and the logging calls: the number and the order of passes are arbitrary.
- Heads and block numbers beyond int64: they are unbounded integers.
- A history limit below 1: the service refuses it before it reads.
