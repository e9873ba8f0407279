/** Any number of createOrder and handleCallback transactions interleaved statement by statement.
    Writes stay private and locked until commit; SELECT reads the snapshot fixed by the
    transaction's first SELECT; any statement may fail, which rolls the transaction back. */
module Ledger {
  import opened Prelude
  import opened Tables
  import opened LedgerSpec

  datatype Call = Create(creq: CreateOrderReq) | Pay(preq: CallbackReq)

  /** The statement a transaction executes next, with the local variables it has by then. */
  datatype Pc =
    | CAcquire | CLookup | CProduct | CDeduct(priceFen: int) | CInsert(priceFen: int)
    | CMark(no: nat, o: Order) | CCommit(no: nat, o: Order)
    | PRead | PInsert(o: Order) | PLookup(o: Order) | PMark(o: Order, pay: nat) | PReread(o: Order, pay: nat)
    | PAccount(o: Order, pay: nat) | PDeduct(o: Order, pay: nat, acct: AccountNo)
    | PAfter(o: Order, pay: nat, acct: AccountNo) | PFlow(o: Order, pay: nat, acct: AccountNo, after: int)
    | PMessage(o: Order, pay: nat, acct: AccountNo, flowId: nat) | PCommit(o: Order, acct: AccountNo, n: Numbers)

  datatype Tx = Tx(call: Call, pc: Pc, w: Writes, snap: Option<Db>)

  /** What executing one statement does to its transaction. */
  datatype Effect = Go(tx: Tx) | End(outcome: Outcome) | Commit(outcome: Outcome)

  /** The snapshot a plain SELECT reads: fixed by the first one. */
  function View(db: Db, tx: Tx): Db { if tx.snap.Some? then tx.snap.value else db }

  function ExecCreate(db: Db, tx: Tx, req: CreateOrderReq, newId: nat): Effect {
    var view := View(db, tx);
    match tx.pc
    case CAcquire =>
      var (rows, w) := TryAcquire(db, tx.w, req);
      if rows == 1 then Go(tx.(pc := CProduct, w := w)) else Go(tx.(pc := CLookup))
    case CLookup =>
      var seen := view.idem + tx.w.idem;
      if req.requestId in seen && seen[req.requestId].status == 1 then End(Cached(seen[req.requestId].response))
      else End(Fail(DuplicateRequest))
    case CProduct =>
      var seen := view.products + tx.w.products;
      if req.productId in seen && seen[req.productId].status == 1 then
        Go(tx.(pc := CDeduct(seen[req.productId].priceFen), snap := Some(view)))
      else End(Fail(ProductNotFound))
    case CDeduct(price) =>
      var (rows, w) := DeductStock(db, tx.w, req.productId, req.quantity);
      if rows == 1 then Go(tx.(pc := CInsert(price), w := w)) else End(Fail(StockNotEnough))
    case CInsert(price) =>
      var o := NewOrder(req, price);
      var w := InsertOrder(db, tx.w, newId, o);
      if w.Some? then Go(tx.(pc := CMark(newId, o), w := w.value)) else End(Fail(DbError))
    case CMark(no, o) =>
      Go(tx.(pc := CCommit(no, o), w := MarkSuccess(db, tx.w, req.requestId, Response(no, o))))
    case CCommit(no, o) => Commit(Created(no, o))
    case _ => End(Fail(InternalError))
  }

  function ExecPay(db: Db, tx: Tx, req: CallbackReq, newId: nat, flowId: nat): Effect {
    var view := View(db, tx);
    match tx.pc
    case PRead =>
      var seen := view.orders + tx.w.orders;
      if req.orderNo !in seen then End(Fail(OrderNotFound))
      else if req.amountFen != Some(seen[req.orderNo].totalAmountFen) then End(Fail(AmountMismatch))
      else Go(tx.(pc := PInsert(seen[req.orderNo]), snap := Some(view)))
    case PInsert(o) =>
      var (rows, w) := InsertPayment(db, tx.w, req.channelTradeNo,
        Payment(newId, req.orderNo, o.totalAmountFen, BeijingTime(req.timestamp)));
      if rows == 1 then Go(tx.(pc := PMark(o, newId), w := w)) else Go(tx.(pc := PLookup(o)))
    case PLookup(o) =>
      var seen := view.payments + tx.w.payments;
      if req.channelTradeNo in seen && seen[req.channelTradeNo].orderNo == req.orderNo then End(PayReplay)
      else End(Fail(ChannelTradeConflict))
    case PMark(o, pay) =>
      var (rows, w) := MarkPaid(db, tx.w, req.orderNo);
      if rows == 1 then Go(tx.(pc := PAccount(o, pay), w := w)) else Go(tx.(pc := PReread(o, pay)))
    case PReread(o, pay) =>
      var seen := view.orders + tx.w.orders;
      if req.orderNo in seen && seen[req.orderNo].status == Paid then End(PayReplay)
      else End(Fail(OrderStatusInvalid))
    case PAccount(o, pay) =>
      var seen := view.accounts + tx.w.accounts;
      if o.userId in view.accountOf && view.accountOf[o.userId] in seen then
        Go(tx.(pc := PDeduct(o, pay, view.accountOf[o.userId])))
      else End(Fail(AccountNotFound))
    case PDeduct(o, pay, acct) =>
      var (rows, w) := Deduct(db, tx.w, acct, o.totalAmountFen);
      if rows == 1 then Go(tx.(pc := PAfter(o, pay, acct), w := w)) else End(Fail(BalanceNotEnough))
    case PAfter(o, pay, acct) =>
      var seen := view.accounts + tx.w.accounts;
      if acct in seen then Go(tx.(pc := PFlow(o, pay, acct, seen[acct].balanceFen))) else End(Fail(InternalError))
    case PFlow(o, pay, acct, after) =>
      var w := InsertFlow(db, tx.w, Flow(flowId, acct, o.totalAmountFen, after + o.totalAmountFen, after,
                                         req.orderNo, req.requestId));
      if w.Some? then Go(tx.(pc := PMessage(o, pay, acct, flowId), w := w.value)) else End(Fail(DbError))
    case PMessage(o, pay, acct, id) =>
      var w := InsertMessage(db, tx.w, newId, Message(req.orderNo, o.totalAmountFen, o.userId));
      if w.Some? then Go(tx.(pc := PCommit(o, acct, Numbers(pay, id, newId)), w := w.value)) else End(Fail(DbError))
    case PCommit(o, acct, n) => Commit(PaySuccess)
    case _ => End(Fail(InternalError))
  }

  function Exec(db: Db, tx: Tx, newId: nat, flowId: nat): Effect {
    match tx.call
    case Create(req) => ExecCreate(db, tx, req, newId)
    case Pay(req) => ExecPay(db, tx, req, newId, flowId)
  }

  /** The lock the next statement needs; it waits while another transaction holds it. */
  function Wanted(tx: Tx): Option<Lock> {
    match tx.call
    case Create(req) => (
      match tx.pc
      case CAcquire => Some(IdemKey(req.requestId))
      case CDeduct(_) => Some(ProductRow(req.productId))
      case _ => None)
    case Pay(req) => (
      match tx.pc
      case PInsert(_) => Some(TradeKey(req.channelTradeNo))
      case PMark(_, _) => Some(OrderRow(req.orderNo))
      case PDeduct(_, _, acct) => Some(AccountRow(acct))
      case PFlow(_, _, _, _) => Some(FlowKey(req.requestId))
      case _ => None)
  }

  // ---- The whole system ----

  datatype Ended = Ended(call: Call, outcome: Outcome)
  /** A committed call with the numbers it drew. */
  datatype Entry = CreateEntry(creq: CreateOrderReq, no: nat) | PayEntry(preq: CallbackReq, n: Numbers)

  /** `results` and `log` are history: how each call ended, and the committed calls in commit order. */
  datatype State = State(init: Db, db: Db, txs: map<nat, Tx>, results: map<nat, Ended>, log: seq<Entry>,
                         drawn: set<nat>, flowSeq: nat)

  datatype Action = Begin(t: nat, call: Call) | Run(t: nat, newId: nat) | Abort(t: nat, code: Code)

  predicate Blocked(s: State, t: nat)
    requires t in s.txs
  {
    var l := Wanted(s.txs[t]);
    l.Some? && exists u :: u in s.txs && u != t && Holds(s.txs[u].w, l.value)
  }

  predicate Enabled(s: State, a: Action) {
    match a
    case Begin(t, _) => t !in s.txs && t !in s.results
    case Run(t, newId) => t in s.txs && t !in s.results && !Blocked(s, t) && newId !in s.drawn
    case Abort(t, code) => t in s.txs && t !in s.results && code in {DbError, InternalError}
  }

  /** The checks made before a transaction is opened. */
  function Precheck(call: Call): Option<Code> {
    match call
    case Create(req) => if QuantityOk(req) then None else Some(ParamInvalid)
    case Pay(req) =>
      if req.channel != MOCK then Some(UnsupportedChannel)
      else if !req.signOk then Some(SignVerifyFailed) else None
  }

  function Opened(call: Call): Tx { Tx(call, if call.Create? then CAcquire else PRead, NoWrites, None) }

  function EntryOf(tx: Tx): Entry
    requires (tx.call.Create? && tx.pc.CCommit?) || (tx.call.Pay? && tx.pc.PCommit?)
  {
    if tx.call.Create? then CreateEntry(tx.call.creq, tx.pc.no) else PayEntry(tx.call.preq, tx.pc.n)
  }

  lemma CommitPc(db: Db, tx: Tx, newId: nat, flowId: nat)
    requires Exec(db, tx, newId, flowId).Commit?
    ensures (tx.call.Create? && tx.pc.CCommit?) || (tx.call.Pay? && tx.pc.PCommit?)
  {
  }

  function EndTx(s: State, t: nat, outcome: Outcome): State
    requires t in s.txs
  {
    s.(txs := s.txs - {t}, results := s.results[t := Ended(s.txs[t].call, outcome)])
  }

  function Next(s: State, a: Action): State
    requires Enabled(s, a)
  {
    match a
    case Begin(t, call) =>
      if Precheck(call).Some? then s.(results := s.results[t := Ended(call, Fail(Precheck(call).value))])
      else s.(txs := s.txs[t := Opened(call)])
    case Abort(t, code) => EndTx(s, t, Fail(code))
    case Run(t, newId) =>
      var tx := s.txs[t];
      var n := s.(drawn := s.drawn + {newId}, flowSeq := s.flowSeq + 1);
      match Exec(s.db, tx, newId, s.flowSeq + 1)
      case Go(tx') => n.(txs := s.txs[t := tx'])
      case End(outcome) => EndTx(n, t, outcome)
      case Commit(outcome) =>
        CommitPc(s.db, tx, newId, s.flowSeq + 1);
        EndTx(n, t, outcome).(db := Merge(s.db, tx.w), log := s.log + [EntryOf(tx)])
  }

  function Start(init: Db): State { State(init, init, map[], map[], [], {}, 0) }

  /** Where a finite run of actions leads; None if some action was not enabled where it was taken. */
  function After(init: Db, run: seq<Action>): Option<State> {
    if run == [] then Some(Start(init))
    else
      var prev := After(init, run[..|run|-1]);
      if prev.Some? && Enabled(prev.value, run[|run|-1]) then Some(Next(prev.value, run[|run|-1])) else None
  }
}
