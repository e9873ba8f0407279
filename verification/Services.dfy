/** The two trade services as the source runs them: one transaction under a guard, statement after
    statement, early exits, and a guard that rolls back whatever was not committed, because a released
    transaction would otherwise be committed. Proved against the atomic calls of LedgerSpec. */
module Services {
  import opened Prelude
  import opened Tables
  import opened LedgerSpec
  import Ledger
  import LedgerProof
  import Money

  /** `open` counts the transactions begun and not yet released. */
  class Database {
    var tables: Db
    var open: nat

    constructor (tables: Db)
      ensures this.tables == tables && open == 0
    {
      this.tables, open := tables, 0;
    }
  }

  /** A transaction of the database client. Releasing the last reference commits it, unless it has
      been committed or rolled back before. */
  class Transaction {
    const database: Database
    var writes: Writes
    var ended: bool

    constructor Begin(database: Database)
      modifies database
      ensures this.database == database && writes == NoWrites && !ended
      ensures database.tables == old(database.tables) && database.open == old(database.open) + 1
    {
      this.database := database;
      writes, ended := NoWrites, false;
      new;
      database.open := database.open + 1;
    }

    method ExecCommit(refused: bool) returns (ok: bool)
      requires !ended
      modifies this`ended, database`tables
      ensures ok == !refused == ended
      ensures database.tables == if ok then Merge(old(database.tables), writes) else old(database.tables)
    {
      if refused {
        return false;
      }
      database.tables := Merge(database.tables, writes);
      ended := true;
      return true;
    }

    /** Safe to repeat. */
    method Rollback()
      modifies this
      ensures ended && writes == if old(ended) then old(writes) else NoWrites
    {
      if !ended {
        writes, ended := NoWrites, true;
      }
    }

    method Release()
      requires database.open > 0
      modifies this`ended, database
      ensures ended && database.open == old(database.open) - 1
      ensures database.tables == if old(ended) then old(database.tables) else Merge(old(database.tables), writes)
    {
      if !ended {
        database.tables := Merge(database.tables, writes);
        ended := true;
      }
      database.open := database.open - 1;
    }
  }

  /** Answers for one transaction: commits only when told to, rolls back on every other way out. */
  class TransactionGuard {
    const tx: Transaction
    var finished: bool

    ghost predicate Valid()
      reads this, tx
    {
      finished == tx.ended
    }

    constructor (tx: Transaction)
      requires !tx.ended
      ensures this.tx == tx && !finished && Valid()
    {
      this.tx := tx;
      finished := false;
    }

    /** Committing twice, or when the server refuses, fails and changes nothing. */
    method Commit(refused: bool) returns (ok: bool)
      requires Valid()
      modifies this`finished, tx`ended, tx.database`tables
      ensures Valid() && ok == (!refused && !old(finished)) && finished == (old(finished) || ok)
      ensures tx.database.tables ==
                if ok then Merge(old(tx.database.tables), tx.writes) else old(tx.database.tables)
    {
      if finished {
        return false;
      }
      ok := tx.ExecCommit(refused);
      finished := ok;
    }

    /** After it the transaction can be released without an effect. */
    method Destroy()
      requires Valid()
      modifies tx
      ensures tx.ended && tx.writes == if finished then old(tx.writes) else NoWrites
    {
      if !finished {
        tx.Rollback();
      }
    }
  }

  /** How a call ends: if none of its own steps failed, as the atomic call; otherwise nothing has changed and
      the answer is the error of a step that failed, a statement (`broken`) or another one (`thrown`). */
  predicate EndsAs(a: (Db, Outcome), before: Db, after: Db, r: Outcome, broken: bool, thrown: bool) {
    if !broken && !thrown then (after, r) == a
    else after == before && ((broken && r == Fail(DbError)) || (thrown && r == Fail(InternalError)))
  }

  predicate Hits(faults: set<nat>, path: set<nat>) { exists k :: k in path && k in faults }

  /** The statements createOrder executes up to each answer. */
  function CreatePath(r: Outcome): set<nat> {
    match r
    case Fail(ParamInvalid) => {}
    case Cached(_) => {0, 1, 2}
    case Fail(DuplicateRequest) => {0, 1, 2}
    case Fail(ProductNotFound) => {0, 1, 3}
    case Fail(StockNotEnough) => {0, 1, 3, 4}
    case Created(_, _) => {0, 1, 3, 4, 5, 6, 7}
    case _ => {0, 1, 3, 4, 5}
  }

  /** Whether it has drawn the order number by then. */
  function CreateDraws(r: Outcome): set<nat> { if r.Created? || r == Fail(DbError) then {1} else {} }

  predicate FlowRejected(db: Db, req: CallbackReq) {
    (req.orderNo in db.orders ==> db.orders[req.orderNo].totalAmountFen <= 0) || HasFlowFor(db.flows, req.requestId)
  }

  /** The statements handleCallback executes up to each answer. */
  function PayPath(db: Db, req: CallbackReq, r: Outcome): set<nat> {
    match r
    case Fail(UnsupportedChannel) => {}
    case Fail(SignVerifyFailed) => {}
    case Fail(OrderNotFound) => {0, 1}
    case Fail(AmountMismatch) => {0, 1}
    case Fail(ChannelTradeConflict) => {0, 1, 2, 3}
    case PayReplay => if req.channelTradeNo in db.payments then {0, 1, 2, 3} else {0, 1, 2, 4, 5}
    case Fail(OrderStatusInvalid) => {0, 1, 2, 4, 5}
    case Fail(AccountNotFound) => {0, 1, 2, 4, 6}
    case Fail(BalanceNotEnough) => {0, 1, 2, 4, 6, 7}
    case PaySuccess => {0, 1, 2, 4, 6, 7, 8, 9, 10, 11}
    case _ => if FlowRejected(db, req) then {0, 1, 2, 4, 6, 7, 8, 9} else {0, 1, 2, 4, 6, 7, 8, 9, 10}
  }

  /** The other steps that can fail on the way: payment number, timestamp, message number. */
  function PayDraws(db: Db, req: CallbackReq, r: Outcome): set<nat> {
    match r
    case Fail(UnsupportedChannel) => {}
    case Fail(SignVerifyFailed) => {}
    case Fail(OrderNotFound) => {}
    case Fail(AmountMismatch) => {}
    case PaySuccess => {1, 2, 3}
    case Fail(DbError) => if FlowRejected(db, req) then {1, 2} else {1, 2, 3}
    case _ => {1, 2}
  }

  /** Statement number k, from 0 for the begin to 7 for the commit, fails exactly when k is in `faults`;
      drawing the order number fails when 1 is in `throws`. */
  method CreateOrder(database: Database, req: CreateOrderReq, orderNo: nat, faults: set<nat>, throws: set<nat>)
    returns (r: Outcome)
    modifies database
    ensures var a := CreateAtomic(old(database.tables), req, orderNo);
            EndsAs(a, old(database.tables), database.tables, r,
                   Hits(faults, CreatePath(a.1)), Hits(throws, CreateDraws(a.1)))
    ensures database.open == old(database.open)
  {
    if req.quantity <= 0 || req.quantity > MAX_QUANTITY {
      return Fail(ParamInvalid);
    }
    if 0 in faults {
      assert 0 in CreatePath(CreateAtomic(database.tables, req, orderNo).1);
      return Fail(DbError);
    }
    var tx := new Transaction.Begin(database);
    var guard := new TransactionGuard(tx);
    r := CreateInTransaction(guard, req, orderNo, faults, throws);
    guard.Destroy();
    tx.Release();
  }

  method CreateInTransaction(guard: TransactionGuard, req: CreateOrderReq, orderNo: nat, faults: set<nat>,
                             throws: set<nat>) returns (r: Outcome)
    requires guard.Valid() && guard.tx.writes == NoWrites && !guard.finished && QuantityOk(req) && 0 !in faults
    modifies guard, guard.tx, guard.tx.database`tables
    ensures guard.Valid()
    ensures var db := old(guard.tx.database.tables);
            var a := CreateAtomic(db, req, orderNo);
            EndsAs(a, db, guard.tx.database.tables, r, Hits(faults, CreatePath(a.1)), Hits(throws, CreateDraws(a.1)))
  {
    ghost var db := guard.tx.database.tables;
    hide LedgerSpec.AfterCreate, HasOrderFor, Merge;
    assert 1 in CreatePath(CreateAtomic(db, req, orderNo).1);
    // 1. claim the request id
    if 1 in faults { return Fail(DbError); }
    var (claimed, w1) := TryAcquire(guard.tx.database.tables, guard.tx.writes, req);
    guard.tx.writes := w1;
    if claimed == 0 {
      if 2 in faults { return Fail(DbError); }
      var row := guard.tx.database.tables.idem[req.requestId];
      if row.status == 1 {
        return Cached(row.response);
      }
      return Fail(DuplicateRequest);
    }
    // 2. the product and its price
    if 3 in faults { return Fail(DbError); }
    var products := guard.tx.database.tables.products;
    if req.productId !in products || products[req.productId].status != 1 {
      return Fail(ProductNotFound);
    }
    var price := products[req.productId].priceFen;
    // 3. conditional deduction; the affected-row count is the only criterion
    if 4 in faults { return Fail(DbError); }
    var (deducted, w2) := DeductStock(guard.tx.database.tables, guard.tx.writes, req.productId, req.quantity);
    guard.tx.writes := w2;
    if deducted == 0 {
      return Fail(StockNotEnough);
    }
    r := PlaceOrder(guard, req, price, orderNo, faults, throws);
  }

  method PlaceOrder(guard: TransactionGuard, req: CreateOrderReq, price: int, orderNo: nat, faults: set<nat>,
                    throws: set<nat>) returns (r: Outcome)
    requires guard.Valid() && !guard.finished && faults !! {0, 1, 3, 4}
    requires LedgerProof.CreateKnows(guard.tx.database.tables, req, Ledger.CInsert(price))
    requires guard.tx.writes == LedgerProof.CreateWrites(guard.tx.database.tables, req, Ledger.CInsert(price))
    modifies guard, guard.tx, guard.tx.database`tables
    ensures guard.Valid()
    ensures var db := old(guard.tx.database.tables);
            var a := CreateAtomic(db, req, orderNo);
            EndsAs(a, db, guard.tx.database.tables, r, Hits(faults, CreatePath(a.1)), Hits(throws, CreateDraws(a.1)))
  {
    ghost var db := guard.tx.database.tables;
    StockedVerdict(db, req, price, orderNo);
    hide LedgerSpec.AfterCreate, HasOrderFor, Merge, CreateVerdict;
    // 4. the order
    if 1 in throws { return Fail(InternalError); }
    if 5 in faults { return Fail(DbError); }
    var order := NewOrder(req, price);
    var inserted := InsertOrder(guard.tx.database.tables, guard.tx.writes, orderNo, order);
    if inserted.None? {
      return Fail(DbError);
    }
    guard.tx.writes := inserted.value;
    // 5. the response snapshot
    if 6 in faults { return Fail(DbError); }
    guard.tx.writes := MarkSuccess(guard.tx.database.tables, guard.tx.writes, req.requestId, Response(orderNo, order));
    // 6. commit
    assert guard.tx.writes == LedgerProof.CreateWrites(db, req, Ledger.CCommit(orderNo, order)) by {
      assert guard.tx.writes.idem == LedgerProof.CreateWrites(db, req, Ledger.CCommit(orderNo, order)).idem;
    }
    LedgerProof.CreateMerge(db, guard.tx.writes, req, orderNo, order);
    var ok := guard.Commit(7 in faults);
    if !ok {
      return Fail(DbError);
    }
    return Created(orderNo, order);
  }

  /** `amount` is the yuan string of the callback; the request's own amount field is not used. Statements
      are numbered from 0 for the begin to 11 for the commit; `throws` says whether drawing the payment
      number (1), reading the timestamp (2) or drawing the message number (3) fails. */
  method HandleCallback(database: Database, req: CallbackReq, amount: string, n: Numbers, faults: set<nat>,
                        throws: set<nat>) returns (r: Outcome)
    modifies database
    ensures var db, parsed := old(database.tables), req.(amountFen := Money.Parsed(amount));
            var a := PayAtomic(db, parsed, n);
            EndsAs(a, db, database.tables, r,
                   Hits(faults, PayPath(db, parsed, a.1)), Hits(throws, PayDraws(db, parsed, a.1)))
    ensures database.open == old(database.open)
  {
    if req.channel != MOCK {
      return Fail(UnsupportedChannel);
    }
    if !req.signOk {
      return Fail(SignVerifyFailed);
    }
    if 0 in faults {
      FirstSteps(database.tables, req.(amountFen := Money.Parsed(amount)), n);
      return Fail(DbError);
    }
    var fen := Money.YuanStringToFen(amount);
    if fen.Some? { Money.ParsedIs(amount, fen.value as int); }
    var parsed := req.(amountFen := if fen.Some? then Some(fen.value as int) else None);
    var tx := new Transaction.Begin(database);
    var guard := new TransactionGuard(tx);
    r := PayInTransaction(guard, parsed, n, faults, throws);
    guard.Destroy();
    tx.Release();
  }

  method PayInTransaction(guard: TransactionGuard, req: CallbackReq, n: Numbers, faults: set<nat>, throws: set<nat>)
    returns (r: Outcome)
    requires guard.Valid() && guard.tx.writes == NoWrites && !guard.finished && CallbackOk(req) && 0 !in faults
    modifies guard, guard.tx, guard.tx.database`tables
    ensures guard.Valid()
    ensures var db := old(guard.tx.database.tables);
            var a := PayAtomic(db, req, n);
            EndsAs(a, db, guard.tx.database.tables, r,
                   Hits(faults, PayPath(db, req, a.1)), Hits(throws, PayDraws(db, req, a.1)))
  {
    ghost var db := guard.tx.database.tables;
    hide AfterPay, Merge, HasFlowFor;
    FirstSteps(db, req, n);
    // 2. the order and its amount
    if 1 in faults { return Fail(DbError); }
    if req.orderNo !in guard.tx.database.tables.orders {
      return Fail(OrderNotFound);
    }
    var order := guard.tx.database.tables.orders[req.orderNo];
    if req.amountFen != Some(order.totalAmountFen) {
      return Fail(AmountMismatch);
    }
    var amountFen := req.amountFen.value;
    // 3. the payment row, once per channel trade number
    if 1 in throws || 2 in throws { return Fail(InternalError); }
    if 2 in faults { return Fail(DbError); }
    var (recorded, w1) := InsertPayment(guard.tx.database.tables, guard.tx.writes, req.channelTradeNo,
                                        Payment(n.paymentNo, req.orderNo, amountFen, BeijingTime(req.timestamp)));
    guard.tx.writes := w1;
    if recorded == 0 {
      if 3 in faults { return Fail(DbError); }
      if guard.tx.database.tables.payments[req.channelTradeNo].orderNo == req.orderNo {
        return PayReplay;
      }
      return Fail(ChannelTradeConflict);
    }
    // 4. pending to paid
    if 4 in faults { return Fail(DbError); }
    var (marked, w2) := MarkPaid(guard.tx.database.tables, guard.tx.writes, req.orderNo);
    guard.tx.writes := w2;
    if marked == 0 {
      if 5 in faults { return Fail(DbError); }
      if guard.tx.database.tables.orders[req.orderNo].status == Paid {
        return PayReplay;
      }
      return Fail(OrderStatusInvalid);
    }
    // 5. the payer's account
    if 6 in faults { return Fail(DbError); }
    if order.userId !in guard.tx.database.tables.accountOf
       || guard.tx.database.tables.accountOf[order.userId] !in guard.tx.database.tables.accounts {
      return Fail(AccountNotFound);
    }
    var accountNo := guard.tx.database.tables.accountOf[order.userId];
    r := PayFromAccount(guard, req, order, accountNo, n, faults, throws);
  }

  method PayFromAccount(guard: TransactionGuard, req: CallbackReq, order: Order, accountNo: AccountNo, n: Numbers,
                        faults: set<nat>, throws: set<nat>) returns (r: Outcome)
    requires guard.Valid() && !guard.finished
    requires CallbackOk(req) && LedgerProof.Funded(guard.tx.database.tables, req, order, accountNo)
    requires faults !! {0, 1, 2, 4, 6} && throws !! {1, 2}
    requires guard.tx.writes == LedgerProof.W2(guard.tx.database.tables, req, order, n.paymentNo)
    modifies guard, guard.tx, guard.tx.database`tables
    ensures guard.Valid()
    ensures var db := old(guard.tx.database.tables);
            var a := PayAtomic(db, req, n);
            EndsAs(a, db, guard.tx.database.tables, r,
                   Hits(faults, PayPath(db, req, a.1)), Hits(throws, PayDraws(db, req, a.1)))
  {
    ghost var db := guard.tx.database.tables;
    FundedVerdict(db, req, order, accountNo, n);
    hide AfterPay, Merge, HasFlowFor, PayVerdict;
    var amountFen := order.totalAmountFen;
    if 7 in faults { return Fail(DbError); }
    var (deducted, w3) := Deduct(guard.tx.database.tables, guard.tx.writes, accountNo, amountFen);
    guard.tx.writes := w3;
    if deducted == 0 {
      return Fail(BalanceNotEnough);
    }
    // the balance read back is the transaction's own, already reduced one
    if 8 in faults { return Fail(DbError); }
    var after := guard.tx.writes.accounts[accountNo].balanceFen;
    if 9 in faults { return Fail(DbError); }
    var withFlow := InsertFlow(guard.tx.database.tables, guard.tx.writes,
      Flow(n.flowId, accountNo, amountFen, after + amountFen, after, req.orderNo, req.requestId));
    NoFlowYet(guard.tx.writes, req.requestId);
    if withFlow.None? {
      return Fail(DbError);
    }
    guard.tx.writes := withFlow.value;
    r := SendAndCommit(guard, req, order, accountNo, n, faults, throws);
  }

  method SendAndCommit(guard: TransactionGuard, req: CallbackReq, order: Order, accountNo: AccountNo, n: Numbers,
                       faults: set<nat>, throws: set<nat>) returns (r: Outcome)
    requires guard.Valid() && !guard.finished && faults !! {0, 1, 2, 4, 6, 7, 8, 9} && throws !! {1, 2}
    requires CallbackOk(req) && LedgerProof.Covered(guard.tx.database.tables, req, order, accountNo)
    requires !FlowRejected(guard.tx.database.tables, req)
    requires guard.tx.writes ==
               LedgerProof.W4(guard.tx.database.tables, req, order, n.paymentNo, accountNo, n.flowId)
    modifies guard, guard.tx, guard.tx.database`tables
    ensures guard.Valid()
    ensures var db := old(guard.tx.database.tables);
            var a := PayAtomic(db, req, n);
            EndsAs(a, db, guard.tx.database.tables, r,
                   Hits(faults, PayPath(db, req, a.1)), Hits(throws, PayDraws(db, req, a.1)))
  {
    ghost var db := guard.tx.database.tables;
    FundedVerdict(db, req, order, accountNo, n);
    hide AfterPay, Merge, HasFlowFor, PayVerdict, FlowRejected;
    // 6. the outbox message
    if 3 in throws { return Fail(InternalError); }
    if 10 in faults { return Fail(DbError); }
    var withMessage := InsertMessage(guard.tx.database.tables, guard.tx.writes, n.messageId,
      Message(req.orderNo, order.totalAmountFen, order.userId));
    if withMessage.None? {
      return Fail(DbError);
    }
    guard.tx.writes := withMessage.value;
    // 7. commit
    LedgerProof.PayMerge(db, guard.tx.writes, req, order, accountNo, n);
    var ok := guard.Commit(11 in faults);
    if !ok {
      return Fail(DbError);
    }
    return PaySuccess;
  }

  lemma FirstSteps(db: Db, req: CallbackReq, n: Numbers)
    requires CallbackOk(req)
    ensures 0 in PayPath(db, req, PayAtomic(db, req, n).1) && 1 in PayPath(db, req, PayAtomic(db, req, n).1)
  {
  }

  /** What is left to decide once the stock is taken. */
  lemma StockedVerdict(db: Db, req: CreateOrderReq, price: int, no: nat)
    requires LedgerProof.CreateKnows(db, req, Ledger.CInsert(price))
    ensures var o := NewOrder(req, price);
            CreateVerdict(db, req, no) ==
              if no in db.orders || HasOrderFor(db.orders, req.requestId) || o.totalAmountFen < 0 then Fail(DbError)
              else Created(no, o)
  {
  }

  /** What is left to decide once the payer is known. */
  lemma FundedVerdict(db: Db, req: CallbackReq, order: Order, accountNo: AccountNo, n: Numbers)
    requires CallbackOk(req) && LedgerProof.Funded(db, req, order, accountNo)
    ensures var a := db.accounts[accountNo];
            PayVerdict(db, req, n) ==
              if a.status != 0 || a.balanceFen < order.totalAmountFen then Fail(BalanceNotEnough)
              else if FlowRejected(db, req) || n.messageId in db.messages then Fail(DbError)
              else PaySuccess
  {
  }

  lemma NoFlowYet(w: Writes, rid: RequestId)
    requires w.flows == []
    ensures !HasFlowFor(w.flows, rid)
  {
  }
}
