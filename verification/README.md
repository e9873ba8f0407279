# A verified model of the trade, payment and reconciliation service

The service takes orders, books payment callbacks of a channel, tells the merchant about every paid
order through an outbox and a message queue, and reconciles its payments with the channel's daily bill.
This project models its state machines and small algorithms and proves what they keep over every run.

**Ledger.** `Tables` holds the MySQL tables as maps and sequences and each DAO call as one atomic
statement. `LedgerSpec` gives `createOrder` and `handleCallback` as single functions of the committed
tables, with the invariant every such call keeps. `Ledger` is the real thing: any number of calls,
interleaved statement by statement, with private writes, row and key locks held to the end of the
transaction, snapshot reads fixed by the first SELECT, and failure possible before every statement
(a deadlock victim or a lock timeout is such a failure). `LedgerProof` and `LedgerInvariant` show that
each commit is one atomic call; `LedgerCalls` says what one caller can rely on whatever the others do,
`LedgerAnswers` what each answer means and what a success leaves behind, `LedgerTheorems` and `Oversell`
draw the conclusions for the tables. `Services` is the same code in
imperative form, with a transaction that commits when it is released and the guard that prevents this,
proved against the atomic calls.

**Message pipeline.** `MqClient` is the publisher's connection, `Relay` the outbox relay with its
running flag, backoff and give-up, `Consumer` the notification consumer with its dedup record and three
merchant calls. `Pipeline` composes ledger, relay, broker and consumer into one machine with duplicate
deliveries, lost connections and crashes anywhere. `RelayProgress`, `ConsumerProgress` and
`PipelineProgress` show that the work also gets done: which messages can still get through, and how.

**The rest.** `ThreadPool` is the mutex and condition-variable protocol; `Reconcile` the keyed comparison
of two row lists and its totals; `ReconcileRuns` interleaved runs and difference handling; `Books` the
ledger's payments as the local side; `IdGenerator` the snowflake numbers; `Money` and `Decimal` the yuan
parser and printer; `RequestIds` the request-id check; `Prelude` shared sums and ordered keys.

Assumed of the environment: InnoDB executes a statement atomically, enforces the unique keys and CHECKs
of `sql/schema.sql` and holds row and key locks until the transaction ends; a consistent snapshot is
fixed by the first plain SELECT; the broker answers each publish at most once and keeps a confirmed
message until it is acked or nacked; numbers drawn from the id generator are new (`IdGenerator.IdsIncrease`
proves it within one process run; across restarts it rests on the clock having advanced), but calls may
use them in any order.

Where the code and its own comments disagree the code is modelled:

- `DuplicateRequest` (code 10003) is never answered: the key is inserted and marked in one transaction,
  so a committed key is always complete (`LedgerTheorems.NeverStillProcessing`).
- A repeated callback is promised code 0, but it can lose to a payment of its order that commits after
  its first read: under its own trade number before its insert (answer: trade conflict), or under another
  one before it marks the order (answer: status invalid). `LedgerTheorems.AnswersLinearize` proves that
  its answer differs from the atomic one if and only if it lost, and that the atomic answer is a replay
  then; `LedgerTheorems.OvertakenReplay` and `LedgerTheorems.OvertakenReread` give the steps of both
  cases. A callback begun after a payment of its order committed never loses
  (`LedgerCalls.LateExec`, `LedgerCalls.LateCallbackReplays`). No table is changed by any of them.
- The stored request hash is never compared: a replay returns the first answer whatever the new content.
- The pool's destructor comment says unstarted tasks are dropped; the loop drains them, provided the pool
  has a worker (`ThreadPool.ShutdownDrains`).
- `MoneyUtil.h` says amounts above 10^9 yuan are rejected; the bound is 1000000009.99 (`Money.RoundTrip`).
- An exception from the outbox scan, or a refused submit, leaves the running flag set until the process restarts
  (`Relay.StuckIff` says exactly when, `Relay.StuckUntilCrash` what follows).
- A crash right after the consumer's insert loses the notification: the redelivered copy is acked as a
  duplicate (`Consumer.CrashCutsOff`, `Consumer.RedeliveryIsAcked`).
- A bill that repeats a trade number changes the batch totals without a difference row
  (`Reconcile.BatchTotalsAgree`, `Reconcile.RepeatedLineHides`).

## Model

| member | source | states |
|---|---|---|
| LedgerTheorems.Serializable | src/services/PaymentService.cc:89-194 | For every interleaving with failures anywhere, the committed tables are those of the committed calls run one after the other in commit order, each succeeding in its place |
| LedgerTheorems.StockIsConserved | src/services/OrderService.cc:77-146 | In every reachable state stock is not negative and initial stock is stock plus all committed order quantities of the product |
| LedgerTheorems.AccountIsChained | src/dao/AccountDao.cc:36-74 | In every reachable state the balance is not negative and the account's flows lead from the opening to the current balance |
| LedgerTheorems.BalanceIsConserved | src/dao/AccountDao.cc:36-53 | Opening balance is current balance plus the sum of the account's flow amounts |
| LedgerTheorems.FlowsFormChain | src/services/PaymentService.cc:145-167 | Each flow starts where the flow inserted before it ended, before is after plus amount, the last one ends at the current balance, ids ascend |
| LedgerTheorems.PaidOrdersMatch | src/services/PaymentService.cc:93-194 | Paid orders, payments, flows and outbox messages correspond one to one by order number with equal amounts; idempotency rows and orders correspond one to one, all with status 1 |
| LedgerTheorems.NeverMovesBack | src/dao/OrderDao.cc:68-80 | Over any continuation of a run order statuses only move from pending to paid, and payments, flows, keys and messages are never changed or removed |
| LedgerTheorems.AnswersHold | src/services/OrderService.cc:148-179 | Every answer given to a caller stays true of the tables, and no request id or order is ever freshly served twice |
| LedgerTheorems.NeverStillProcessing | src/services/OrderService.cc:93-101 | No call is ever answered with 10003 |
| LedgerTheorems.CreateIsIdempotent | src/services/OrderService.cc:83-101 | Two answers for one request id carry the same snapshot, and at most one of the calls created the order |
| LedgerTheorems.SuccessMeansPaid | src/services/PaymentService.cc:116-140 | Every callback answered with success is for a paid order |
| LedgerTheorems.PaymentIsOnce | src/services/PaymentService.cc:105-143 | At most one callback per order paid it |
| LedgerTheorems.OnlySuccessWrites | src/utils/DbUtil.h:26-50 | Any step that changes a committed table is the commit of a call answered with fresh success; failed and replayed calls change nothing |
| LedgerTheorems.FailureReleasesKey | src/services/OrderService.cc:83-118 | A createOrder that fails holding its request key leaves all tables as they were, and a retry with that id is not blocked and acquires the key |
| LedgerTheorems.ReplayReturnsSnapshot | src/dao/IdempotentDao.cc:7-42 | In every continuation an in-range call begun after its key was committed has written nothing and is before its lookup, or ended with exactly the first response, or was aborted, whatever its content |
| LedgerTheorems.AnswersLinearize | src/services/PaymentService.cc:115-143 | A call that ends without writing answers what the atomic call answers on the tables of that moment, if and only if it is not a callback that lost to a payment of its order committed after its first read; then the atomic answer is a replay |
| LedgerTheorems.OvertakenReplay | src/services/PaymentService.cc:119-127 | For every payment that can succeed, a concurrent duplicate that read before its commit answers a trade conflict where the atomic call answers a replay |
| LedgerTheorems.OvertakenReread | src/services/PaymentService.cc:130-143 | For every payment that can succeed, a concurrent callback of the order under another trade number answers an invalid status where the atomic call answers a replay |
| LedgerCalls.LateCreateReplays | src/services/OrderService.cc:83-92 | The induction behind the replay: every step of every call keeps a late createOrder on its way to the stored response |
| LedgerCalls.LateCallbackReplays | src/services/PaymentService.cc:105-143 | In every continuation a callback with the right amount begun after a payment of its order committed is unanswered, answered as a replay, aborted, or rejected because its trade number is used for another order; repeating the very callback that paid is always a replay |
| LedgerCalls.LateExec | src/services/PaymentService.cc:115-143 | Such a callback never loses, at any of its statements |
| LedgerCalls.TakesInOrder | src/services/PaymentService.cc:115-167 | Whoever holds a lock only waits for locks later in one fixed order |
| LedgerCalls.NoDeadlock | src/services/OrderService.cc:83-146 | In every reachable state with calls running, one of them can execute its next statement |
| LedgerCalls.AllCanFinish | src/services/PaymentService.cc:89-194 | From every reachable state all running calls can be brought to an end by just running them |
| LedgerInvariant.NextKeeps | src/services/PaymentService.cc:89-218 | Every action of the interleaved machine keeps the whole invariant and only moves the tables forward |
| LedgerInvariant.Invariant | src/services/OrderService.cc:77-179 | The invariant holds after every run that starts from any products and accounts with non-negative stock and balances and no trade rows yet |
| LedgerSpec.CreateKeepsInv | src/services/OrderService.cc:83-146 | One atomic createOrder keeps conservation, chaining and all correspondences |
| LedgerSpec.PayKeepsInv | src/services/PaymentService.cc:93-194 | One atomic handleCallback keeps conservation, chaining and all correspondences |
| LedgerSpec.CreateEvolves | src/dao/ProductDao.cc:16-23 | One atomic createOrder moves the tables forward, touches no other product, order or key than its own, and no account, payment, flow or message |
| LedgerSpec.PayEvolves | src/dao/OrderDao.cc:68-80 | One atomic handleCallback moves the tables forward, touches no other order than its own and no account but the payer's, adds at most its own payment, flow and message, and leaves products and keys alone |
| LedgerSpec.ChainConserves | src/services/PaymentService.cc:154-167 | Along any chain of flows the first balance is the last plus everything spent |
| LedgerSpec.ChainLinks | src/services/PaymentService.cc:154-167 | In any chain each flow's before-balance is its predecessor's after-balance |
| LedgerProof.TxStable | src/services/PaymentService.cc:130-167 | What a running transaction knows survives any other commit that respects its locks |
| LedgerProof.CreateCommits | src/services/OrderService.cc:133-146 | Committing the accumulated writes of createOrder is the atomic call on the tables as they are at the commit |
| LedgerProof.PayCommits | src/services/PaymentService.cc:169-194 | Committing the accumulated writes of handleCallback is the atomic call on the tables as they are at the commit |
| LedgerProof.CreateEnds | src/services/OrderService.cc:86-118 | A createOrder that ends without commit answers as the atomic call does at that moment and leaves the tables alone |
| LedgerProof.PayEnds | src/services/PaymentService.cc:93-152 | A handleCallback that ends without commit answers as the atomic call does if and only if it did not lose to a payment of its order; if it did, the atomic answer is a replay and the given one the conflict of that branch |
| LedgerAnswers.CreateAnswersExactly | src/services/OrderService.cc:67-146 | For every database and request, each answer is given if and only if its own condition on request and tables holds, in the order the checks are made |
| LedgerAnswers.PayAnswersExactly | src/services/PaymentService.cc:69-194 | The same for every answer of handleCallback: channel, signature, order, amount, trade number, status, account, frozen or short balance, rejected flow, success |
| LedgerAnswers.AnswersMean | src/services/PaymentService.cc:69-218 | In every run each call is answered for its reason on the tables of that moment, unless it was aborted or lost to a payment of its order |
| LedgerAnswers.OrderIsAsAsked | src/services/OrderService.cc:120-146 | A created order has the caller's user, product and quantity, the price the product had from the start and the exact total; its key row has the caller and content hash; and so it stays |
| LedgerAnswers.PaymentIsAsTold | src/services/PaymentService.cc:98-167 | A callback that paid had an accepted channel and signature, the exact amount and an account that is not frozen, and left its trade number, amount, Beijing time and request id |
| LedgerAnswers.RowsStemFromCalls | src/services/OrderService.cc:120-146 | In every run each committed order with its key row, and each payment, carries the data of the committed call it stems from |
| LedgerAnswers.PaymentNumbersUnique | src/services/PaymentService.cc:106-107 | In every run no two payments share a payment number |
| Oversell.ExactlyStockSold | scripts/stress_stock.sh:42-61 | For every N, every stock S and every interleaving without technical failure: min(N,S) orders succeed, all others get stock-not-enough, S - min(N,S) units remain |
| Oversell.BuyersCanFinish | scripts/stress_stock.sh:24-40 | However far the buyers have got, running the open calls brings all of them to an answer |
| Services.Transaction.Release | src/utils/DbUtil.h:1-5 | Releasing a transaction that was neither committed nor rolled back commits it |
| Services.Transaction.Rollback | src/utils/DbUtil.h:26-35 | A rollback drops the writes and is safe to repeat |
| Services.TransactionGuard.Commit | src/utils/DbUtil.h:43-50 | A second or refused commit fails and changes nothing; otherwise the writes are merged once |
| Services.TransactionGuard.Destroy | src/utils/DbUtil.h:26-35 | After it the transaction is ended, its writes dropped unless they were committed, so that its release has no effect |
| Services.CreateOrder | src/services/OrderService.cc:64-179 | The call is the atomic call if and only if none of the statements and draws on the way to its answer fails; otherwise nothing changes and the answer is the error of a failed one; no transaction is left open |
| Services.CreateInTransaction | src/services/OrderService.cc:83-118 | The same for the stages inside the transaction, with all their early exits |
| Services.HandleCallback | src/services/PaymentService.cc:63-218 | On the raw amount string, the call is the atomic call on its decimal value if and only if no statement, draw or timestamp on the way to its answer fails; otherwise nothing changes and the answer is the error of a failed one; no transaction is left open |
| Services.PayInTransaction | src/services/PaymentService.cc:93-148 | The same for the order, dedup, status and account stages |
| Services.PayFromAccount | src/services/PaymentService.cc:150-167 | The same from the deduction on, with the balance read back for the flow |
| Services.PlaceOrder | src/services/OrderService.cc:120-146 | The same for order, snapshot and commit |
| Services.SendAndCommit | src/services/PaymentService.cc:169-194 | The same for outbox message and commit |
| Relay.RelayGuarantees | src/tasks/MessageRelayTask.cc:49-104 | In every run at most one relay is in flight, a row has at most 7 retries, a waiting one is due again within 320 seconds, giving up takes 8 failed publishes and 635 seconds, and runs without exceptions publish a message at most 8 times |
| Relay.ClosedForever | src/dao/LocalMessageDao.cc:53-81 | A row that is acked or given up is the same after every continuation although the failure marks check no status |
| Relay.ClosedIsFinal | src/dao/LocalMessageDao.cc:61-81 | No single step of any task changes such a row |
| Relay.RecordingTells | src/dao/LocalMessageDao.cc:53-81 | In every reachable state a recorded result acknowledges the row, gives it up at the eighth failure, or makes it due again after 5, 10, 20, 40, 80, 160 or 320 seconds, and touches no other row |
| RelayProgress.WaitingGetsThrough | src/tasks/MessageRelayTask.cc:49-104 | In every reachable state whose flag is not lost, a waiting message can be published and acknowledged without exceptions if and only if its eighth failure is not already waiting to be recorded |
| Relay.NextKeeps | src/tasks/MessageRelayTask.cc:78-104 | Every timer, scan, publish, mark, exception and crash keeps single flight, current batches and the retry account of every row |
| Relay.Invariant | src/tasks/MessageRelayTask.cc:49-58 | The relay invariant holds after every run |
| Relay.ScanIsDue | src/dao/LocalMessageDao.cc:26-51 | A scan yields only rows with status waiting and a retry time that has come, with their retry counts, at most 200; any such row that is missing comes after all 200 scanned |
| Relay.MessageRelayTask.RelayRound | src/tasks/MessageRelayTask.cc:60-108 | Each scanned message is treated once by its own ending, an exception neither marks it nor stops the others, no other row is touched, and the three counters count confirmed, given up and remaining messages |
| Relay.StuckExactly | src/tasks/MessageRelayTask.cc:49-58 | A step leaves the flag set without a task if and only if it was so and the process was not restarted, or the scan threw, or the submit was refused |
| Relay.StuckIff | src/tasks/MessageRelayTask.cc:49-58 | A run ends stuck if and only if a scan threw or a submit was refused with no restart after it |
| Relay.StuckUntilCrash | src/tasks/MessageRelayTask.cc:54-57 | In every continuation of a stuck run without a restart nothing is published and no stored row changes |
| MqClient.Client.EnsureConnected | src/utils/MqClient.cc:41-93 | An open connection is kept; otherwise success means a fresh one with nothing outstanding, failure means none |
| MqClient.Client.WaitConfirm | src/utils/MqClient.cc:104-118 | True exactly when the first frame is an ack |
| MqClient.Client.Publish | src/utils/MqClient.cc:120-158 | True only if the broker acked this very message; every failure closes the connection; an open connection never has an answer outstanding, so a late ack is never credited to another message |
| Consumer.NotifyConsumer.Process | src/consumer/NotifyConsumer.cc:193-267 | Verdict, record and number of merchant calls are those of the first positive answer among three; duplicates and malformed bodies call nobody |
| Consumer.UninterruptedIsProcess | src/consumer/NotifyConsumer.cc:178-267 | Left alone, the step machine does to a delivery exactly what Process does to its body |
| Consumer.AtMostThreeCalls | src/consumer/NotifyConsumer.cc:223-267 | In every run with redeliveries, lost connections and crashes a message gets at most three calls and one success, none without a record |
| Consumer.LeavingIsSettled | src/consumer/NotifyConsumer.cc:178-221 | No body vanishes; one that left the queue has a record that is final exactly if processing was never interrupted; a dead-lettered one failed three times with retry count 3 |
| Consumer.RecordTellsTruth | src/dao/NotifyDao.cc:9-44 | Notified means exactly one success, failed means three refusals, pending means in hand or interrupted |
| Consumer.SettledForever | src/dao/NotifyDao.cc:27-44 | Once settled, a message's record and call counts never change in any continuation, although the marks check no status |
| Consumer.NextKeeps | src/consumer/NotifyConsumer.cc:178-267 | Every delivery, insert, call, mark, reply, connection loss and crash keeps the consumer's invariant |
| Consumer.Invariant | src/consumer/NotifyConsumer.cc:160-191 | The consumer's invariant holds after every run |
| Consumer.CrashCutsOff | src/consumer/NotifyConsumer.cc:217-224 | Any message can be cut off before its first merchant call |
| Consumer.RedeliveryIsAcked | src/consumer/NotifyConsumer.cc:217-221 | A redelivered copy of any recorded message is acked without a call and its record stays as it is |
| Consumer.FreshNumbersDecide | src/dao/NotifyDao.cc:9-25 | With a fresh number the insert is refused exactly for a repeated message id; with a reused one a new message would be acked unrecorded |
| Consumer.QueueMoves | src/consumer/NotifyConsumer.cc:178-191 | Only a reply on an open connection acks or dead-letters a body, and no step loses one |
| ConsumerProgress.NoticeGetsThrough | src/consumer/NotifyConsumer.cc:193-267 | In every reachable state a queued notice without a record can be brought to the merchant and recorded as notified |
| Pipeline.NextKeeps | src/services/PaymentService.cc:169-194 | Every step of ledger, relay, broker and consumer keeps all their invariants and the links between them |
| Pipeline.Invariant | src/tasks/MessageRelayTask.cc:78-104 | The composed invariant holds after every run |
| Pipeline.RecordIsGenuine | src/consumer/NotifyConsumer.cc:211-221 | Every notify record stems from a published outbox message of a paid order |
| Pipeline.OrderNotifiedOnce | src/consumer/NotifyConsumer.cc:178-267 | In every composed run an order has at most one notify record, three merchant calls and one success in total, and none unless it is paid |
| Pipeline.CallsCarryPaidAmount | src/services/PaymentService.cc:183-191 | Whatever a merchant call carries is a paid order with the amount it was paid with |
| Pipeline.PaidOrderIsTracked | src/tasks/MessageRelayTask.cc:78-104 | The one message of a paid order is waiting, given up after eight failures, queued, or out of the queue with a record that is final exactly if never interrupted |
| PipelineProgress.PaidOrderCanBeNotified | src/tasks/MessageRelayTask.cc:78-104 | In every reachable state a paid order whose message is confirmed, or waiting with the relay not stuck and short of the eighth failure, and has no record yet, is notified by some continuation |
| ThreadPool.NoLostWakeup | src/utils/ThreadPool.cc:31-56 | With tasks queued and no notification pending some worker is awake, and while any worker sleeps there is an awake worker for each queued task |
| ThreadPool.FifoExactlyOnce | src/utils/ThreadPool.cc:46-72 | Accepted tasks are dequeued in order, exactly once, and each dequeued task is running or finished, never both |
| ThreadPool.ShutdownDrains | src/utils/ThreadPool.cc:16-29 | When the joins are through every accepted task was run, exactly if the pool has a worker or accepted nothing |
| ThreadPool.ShutdownNotStuck | src/utils/ThreadPool.cc:16-26 | Until all workers are gone some step is possible without spurious wakeups or new submits |
| ThreadPool.ShutdownTerminates | src/utils/ThreadPool.cc:46-57 | After the stop every worker step uses up a bounded amount of work and no other step adds any |
| ThreadPool.SubmitTellsTruth | src/utils/ThreadPool.cc:31-44 | In every run submit returns true exactly for the tasks queued, and false only for an empty task or after the stop |
| ThreadPool.PushBeforeStop | src/utils/ThreadPool.cc:35-41 | A submit that gets the mutex before the stop appends its task, one after it is refused and changes nothing |
| ThreadPool.TasksGetDone | src/utils/ThreadPool.cc:46-72 | From every reachable state of a pool with a worker, just running on finishes every accepted task |
| ThreadPool.ShutdownCompletes | src/utils/ThreadPool.cc:16-26 | From every reachable state the destructor can run to the end of its joins |
| ThreadPool.Invariant | src/utils/ThreadPool.cc:31-73 | Mutual exclusion, shutdown order, task accounting and wakeup accounting hold after every run; submits are accounted for by SubmitTellsTruth |
| Reconcile.Classify | src/services/ReconcileService.cc:23-80 | The loops compute the specified classification of the last-wins maps, which the following rows pin down entry by entry |
| Reconcile.ClassifiedIs | src/services/ReconcileService.cc:36-77 | Exactly one entry per differing trade number, none for the others, no trade number twice |
| Reconcile.EntriesTell | src/services/ReconcileService.cc:38-77 | Each entry states both sides' amounts as they are, 0 for a missing one, their difference, the kind, and the local order number where there is one |
| Reconcile.ClassifiedOrder | src/services/ReconcileService.cc:38-77 | Local-only entries come first, then channel-only, then mismatches, each by ascending trade number |
| Reconcile.LastRowWins | src/services/ReconcileService.cc:27-34 | The row kept for a trade number is the last one with it |
| Reconcile.PatchRestoresLocal | src/services/ReconcileService.cc:23-80 | Applying the differences to the channel's amounts gives exactly the local amounts |
| Reconcile.BalancedIffEqual | src/services/ReconcileService.cc:194-195 | Nothing is reported exactly when both amount maps are equal |
| Reconcile.SwapMirrors | src/services/ReconcileService.cc:38-77 | Swapping the sides swaps the kinds and amounts and negates every difference |
| Reconcile.DiffsSumUp | src/services/ReconcileService.cc:38-77 | The differences add up to the last-wins local total minus the last-wins channel total |
| Reconcile.TotalsOf | src/services/ReconcileService.cc:27-34 | The last-wins total is the row total less what repeated trade numbers overwrote |
| Reconcile.NothingOverwritten | src/services/ReconcileService.cc:27-34 | Distinct trade numbers overwrite nothing |
| Reconcile.BatchTotalsAgree | src/services/ReconcileService.cc:179-193 | The batch totals agree with the differences exactly when both sides overwrote the same amount, so always with distinct trade numbers |
| Reconcile.RepeatedLineHides | src/services/ReconcileService.cc:179-195 | A bill with a repeated line: totals differ, nothing is reported, the batch counts as balanced |
| Reconcile.SumRows | src/services/ReconcileService.cc:180-183 | The loop adds up every row, repeated ones included |
| Reconcile.Summarize | src/services/ReconcileService.cc:176-195 | The batch row is true to the compared lists, balanced exactly when the amount maps are equal |
| ReconcileRuns.OneBatchPerDate | src/services/ReconcileService.cc:145-153 | Of any interleaved runs for one date at most one succeeds and its batch is the date's |
| ReconcileRuns.BatchIsComplete | src/services/ReconcileService.cc:179-210 | A committed batch has exactly the differences of its comparison, one row each in order, and a truthful summary |
| ReconcileRuns.BatchRowsTell | src/services/ReconcileService.cc:198-208 | Each committed difference row states both sides' amounts, their difference and the order |
| ReconcileRuns.FreeDateCommits | src/services/ReconcileService.cc:145-210 | From every reachable state a run whose date nobody holds reaches its commit by its own steps |
| ReconcileRuns.FailedRunLeavesNothing | src/services/ReconcileService.cc:210-234 | Every difference row belongs to a committed batch |
| ReconcileRuns.QuietTables | src/services/ReconcileService.cc:145-234 | No step but a commit adds a batch or a difference row; an aborted run changes no table, and handling changes nothing but the status of the one pending difference it names |
| ReconcileRuns.HandledExactlyOnce | src/services/ReconcileService.cc:256-287 | Of all handling calls on one difference exactly one succeeds and its choice is the final status |
| ReconcileRuns.HandledAsAsked | src/services/ReconcileService.cc:256-287 | A handling call succeeds if and only if the difference is pending at its update; its status is then verified for verify and ignored for ignore, in every continuation |
| ReconcileRuns.StatusIsFinal | src/dao/ReconcileDao.cc:134-143 | A handled difference keeps its status in every continuation |
| ReconcileRuns.NextKeeps | src/dao/ReconcileDao.cc:11-56 | Every statement of every run and every handling call keeps the invariant |
| ReconcileRuns.Invariant | src/dao/ReconcileDao.cc:134-143 | The invariant holds after every interleaving |
| Books.LedgerAgainstBill | src/services/ReconcileService.cc:155-195 | With the day's payments as local rows a batch is balanced if and only if the bill has exactly their amounts, and the totals agree with the differences if and only if the bill overwrites nothing in sum |
| Books.OneDayEach | src/services/ReconcileService.cc:155-163 | A payment counts for exactly one day, that of the channel's timestamp plus eight hours |
| Books.ListedAmounts | src/services/ReconcileService.cc:155-174 | What the comparison sees of the local side is the day's payments, no more and no less |
| Books.MissingPaymentShows | src/services/ReconcileService.cc:38-49 | In every ledger run a local-only difference is exactly a payment of the day missing from the bill, for a paid order and its amount |
| Books.BatchOfLedger | src/services/ReconcileService.cc:176-210 | The same for every committed batch over all interleavings of reconciliation runs, with the batch's local count and total those of the day's payments and its channel ones those of the bill |
| IdGenerator.Generator.NextId | src/utils/IdGenerator.cc:44-70 | One call on any clock readings is the specified draw, with the sequence kept in 12 bits |
| IdGenerator.WaitNextMs | src/utils/IdGenerator.cc:34-40 | The wait ends at the first reading after the last millisecond |
| IdGenerator.IdsIncrease | src/utils/IdGenerator.cc:44-70 | Over any calls with readings in the era, ids are non-negative 64-bit numbers and strictly increase |
| IdGenerator.DrawAdvances | src/utils/IdGenerator.cc:47-61 | One draw exceeds all earlier ids, or refuses and changes nothing, or still waits |
| IdGenerator.DrawTells | src/utils/IdGenerator.cc:47-61 | A draw is refused if and only if its reading lies before the last millisecond; within one millisecond ids are consecutive; a new one starts at sequence 0; after the 4096th the first later reading is taken |
| IdGenerator.PackIsSum | src/utils/IdGenerator.cc:63-67 | On 64-bit words the shifts and ors add without overlap, lose nothing and keep the sign bit clear |
| IdGenerator.FieldsRecovered | src/utils/IdGenerator.cc:11-21 | Timestamp, datacenter, worker and sequence can be read back from the id |
| IdGenerator.IdIsRequestId | src/consumer/NotifyConsumer.cc:232-232 | An id is a valid X-Request-Id exactly when drawn at least 238418580 ms after the epoch |
| RequestIds.IsValidRequestId | src/common/RequestIdFilter.cc:18-31 | True exactly for 16 to 64 hexadecimal digits or dashes |
| Money.YuanStringToFen | src/utils/MoneyUtil.cc:21-75 | Accepts exactly the bounded decimal numerals, yields their value in fen within 100000000999, with every intermediate value in 64 bits |
| Money.FenIsDecimal | src/utils/MoneyUtil.cc:66-74 | The value is decimal: shifted by its number of decimals it is a hundred times the number its digits make, with the sign |
| Money.NumeralUnique | src/utils/MoneyUtil.cc:26-64 | A text reads as a numeral in at most one way |
| Money.DenotesUnique | src/utils/MoneyUtil.cc:66-74 | A text denotes at most one amount |
| Money.RoundTrip | src/utils/MoneyUtil.cc:7-19 | For every int64 the printed amount denotes itself up to 100000000999 and nothing beyond, the smallest int64 included |
| Money.ParsePrinted | src/utils/MoneyUtil.cc:7-75 | For every int64, parsing the printed amount gives it back within the bound and nothing beyond |
| Money.PrintedText | src/utils/MoneyUtil.cc:7-19 | Printing always gives a numeral with two decimals worth the amount |

## Left out

- Controllers, request filters, configuration, logging, main: plumbing without state.
- Signature computation: the verdict of the check is an input of the callback.
- JSON text: snapshots, payloads and responses are values; a message body is well-formed or not, and fields of the wrong JSON type are not distinguished.
- Identifiers (request ids, account numbers, trade numbers, order and message numbers) are natural numbers compared for equality; their text form appears only in `IdGenerator.IdIsRequestId`.
- A commit whose reply is lost although it took effect: a failed commit counts as rolled back.
- 64-bit overflow of price times quantity and of the batch totals: these are unbounded integers here.
- Calendar formatting: callback times are seconds with the fixed shift of eight hours, bill dates day indices.
- Handling calls with another action than verify or ignore, or for an unknown difference: refused without touching a table.
- Bill files and their line parser: a run is given its channel rows and its local rows as lists; `Books` ties the local ones to the ledger's payments.
- Order expiry, completion, refunds, freezing and cleanup of idempotency keys: not implemented by the service.
- Queue and exchange declarations: the bindings exist.
- Thread pool, relay runs, consumer runs and reconciliation runs are step machines on values, since their point is interleaving; their threads, flags and tables are fields of a state and update in place is not captured. A relay round, the consumer's processing, the publisher, the trade services, the classification and the id generator are also given imperatively.
- LedgerCalls.NoDeadlock: speaks of the row and key locks of written rows; shared and gap locks that InnoDB may take besides are not modelled, a call they make a deadlock victim is one that fails.
- Relay.ScanIsDue: due rows come in message-number order; the auto-increment key of the outbox table is not modelled.
- IdGenerator.Generator.NextId: packs by multiplication and addition; `IdGenerator.PackIsSum` relates that to the shifts and ors on 64-bit words.
- Oversell.ExactlyStockSold: assumes a product price that is not negative, since the order table's CHECK rejects a negative total.
- Pipeline.PaidOrderIsTracked: says where the message is, not that the relay will ever run again after a stuck flag.
