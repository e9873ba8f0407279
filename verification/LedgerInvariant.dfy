/** The invariant of the interleaved ledger, and that every action keeps it. */
module LedgerInvariant {
  import opened Prelude
  import opened Tables
  import opened LedgerSpec
  import opened Ledger
  import opened LedgerProof

  // ---- Serial execution of the committed calls ----

  function Apply(db: Db, e: Entry): (Db, Outcome) {
    match e
    case CreateEntry(req, no) => CreateAtomic(db, req, no)
    case PayEntry(req, n) => PayAtomic(db, req, n)
  }

  function Replay(init: Db, log: seq<Entry>): Db {
    if log == [] then init else Apply(Replay(init, log[..|log|-1]), log[|log|-1]).0
  }

  predicate Took(r: Outcome) { r.Created? || r.PaySuccess? }

  /** Run one after the other, every logged call succeeds in its place. */
  predicate AllSucceed(init: Db, log: seq<Entry>) {
    log == [] || (AllSucceed(init, log[..|log|-1]) && Took(Apply(Replay(init, log[..|log|-1]), log[|log|-1]).1))
  }

  lemma SerialAppend(init: Db, log: seq<Entry>, e: Entry)
    requires AllSucceed(init, log) && Took(Apply(Replay(init, log), e).1)
    ensures AllSucceed(init, log + [e]) && Replay(init, log + [e]) == Apply(Replay(init, log), e).0
  {
    assert (log + [e])[..|log|] == log;
  }

  // ---- The invariant ----

  /** What a created order and its request key hold: the caller's data, the product's price, and the
      total. Only the order's status may move on. */
  predicate OrderedFor(db: Db, req: CreateOrderReq, no: nat, o: Order) {
    && o.requestId == req.requestId && o.userId == req.userId && o.productId == req.productId
    && o.quantity == req.quantity && o.status == PendingPayment
    && req.productId in db.products && o.unitPriceFen == db.products[req.productId].priceFen
    && o.totalAmountFen == db.products[req.productId].priceFen * req.quantity
    && no in db.orders && db.orders[no] == o.(status := db.orders[no].status)
    && req.requestId in db.idem && db.idem[req.requestId].userId == req.userId
    && db.idem[req.requestId].requestHash == req.requestHash && db.idem[req.requestId].status == 1
    && db.idem[req.requestId].response == Some(Response(no, o))
  }

  /** What a callback that paid has left behind: for an accepted channel and signature and the exact
      amount, a payment row with the callback's data and a flow under its request id, from an account
      that is not frozen. */
  predicate PaidFor(db: Db, req: CallbackReq) {
    && req.channel == MOCK && req.signOk && IsPaid(db.orders, req.orderNo)
    && req.amountFen == Some(db.orders[req.orderNo].totalAmountFen)
    && req.channelTradeNo in db.payments
    && db.payments[req.channelTradeNo].orderNo == req.orderNo
    && db.payments[req.channelTradeNo].amountFen == db.orders[req.orderNo].totalAmountFen
    && db.payments[req.channelTradeNo].callbackTime == req.timestamp + 28800
    && db.orders[req.orderNo].userId in db.accountOf
    && db.accountOf[db.orders[req.orderNo].userId] in db.accounts
    && db.accounts[db.accountOf[db.orders[req.orderNo].userId]].status == 0
    && OwnFlow(db.flows, req)
  }

  predicate OwnFlow(flows: seq<Flow>, req: CallbackReq) {
    exists i :: 0 <= i < |flows| && flows[i].orderNo == req.orderNo && flows[i].requestId == req.requestId
  }

  /** What an answer given to a caller says about the tables, now and ever after. */
  predicate ResultOk(db: Db, e: Ended) {
    match e.call
    case Create(req) => (
      match e.outcome
      case Created(no, o) => OrderedFor(db, req, no, o)
      case Cached(body) => req.requestId in db.idem && db.idem[req.requestId].response == body && body.Some?
      case Fail(code) => code != DuplicateRequest
      case _ => false)
    case Pay(req) => (
      match e.outcome
      case PaySuccess => PaidFor(db, req)
      case PayReplay => IsPaid(db.orders, req.orderNo)
      case Fail(code) => code != DuplicateRequest
      case _ => false)
  }

  predicate SameEffect(a: Ended, b: Ended) {
    || (a.call.Create? && b.call.Create? && a.outcome.Created? && b.outcome.Created?
        && a.call.creq.requestId == b.call.creq.requestId)
    || (a.call.Pay? && b.call.Pay? && a.outcome.PaySuccess? && b.outcome.PaySuccess?
        && a.call.preq.orderNo == b.call.preq.orderNo)
  }

  predicate OnceOnly(results: map<nat, Ended>) {
    forall t, u | t in results && u in results && t != u :: !SameEffect(results[t], results[u])
  }

  ghost predicate LocksDisjoint(txs: map<nat, Tx>) {
    forall t, u, l: Lock | t in txs && u in txs && t != u :: !(Holds(txs[t].w, l) && Holds(txs[u].w, l))
  }

  predicate TxsOk(db: Db, txs: map<nat, Tx>, drawn: set<nat>, flowSeq: nat) {
    forall t :: t in txs ==> TxInv(db, txs[t]) && TxBound(txs[t], drawn, flowSeq)
  }

  predicate ResultsOk(db: Db, results: map<nat, Ended>) {
    (forall t :: t in results ==> ResultOk(db, results[t])) && OnceOnly(results)
  }

  predicate SerialOk(init: Db, log: seq<Entry>, db: Db) { AllSucceed(init, log) && db == Replay(init, log) }

  ghost predicate Inv(s: State) {
    && DbInv(s.init, s.db) && DbBound(s.db, s.drawn, s.flowSeq)
    && TxsOk(s.db, s.txs, s.drawn, s.flowSeq) && LocksDisjoint(s.txs)
    && ResultsOk(s.db, s.results) && SerialOk(s.init, s.log, s.db)
  }

  lemma StartInv(init: Db)
    requires Initial(init)
    ensures Inv(Start(init))
  {
    hide AccountChained, Sold;
    StartMoney(init);
  }

  lemma StartMoney(init: Db)
    requires Initial(init)
    ensures forall id :: id in init.products ==> Sold(init.orders, id) == 0
    ensures forall no :: no in init.accounts ==>
              AccountChained(init.flows, no, init.accounts[no].balanceFen, init.accounts[no].balanceFen)
  {
    forall id | id in init.products ensures Sold(init.orders, id) == 0 {
      assert QuantitiesOf(init.orders, id) == map[];
    }
    forall no | no in init.accounts
      ensures AccountChained(init.flows, no, init.accounts[no].balanceFen, init.accounts[no].balanceFen)
    {
      assert FlowsOf(init.flows, no) == [];
    }
  }

  // ---- Each kind of step keeps it ----

  lemma ResultStable(a: Db, b: Db, e: Ended)
    requires ResultOk(a, e) && Evolves(a, b)
    ensures ResultOk(b, e)
  {
  }

  lemma ResultAdded(db: Db, results: map<nat, Ended>, t: nat, e: Ended)
    requires ResultsOk(db, results) && t !in results && ResultOk(db, e)
    requires forall u :: u in results ==> !SameEffect(results[u], e) && !SameEffect(e, results[u])
    ensures ResultsOk(db, results[t := e])
  {
    hide ResultOk, SameEffect;
  }

  lemma FailureAdded(db: Db, results: map<nat, Ended>, t: nat, e: Ended)
    requires ResultsOk(db, results) && t !in results && ResultOk(db, e) && !Took(e.outcome)
    ensures ResultsOk(db, results[t := e])
  {
    hide ResultOk;
    ResultAdded(db, results, t, e);
  }

  lemma OpenedOk(db: Db, call: Call, drawn: set<nat>, flowSeq: nat)
    requires Precheck(call).None?
    ensures TxInv(db, Opened(call)) && TxBound(Opened(call), drawn, flowSeq)
    ensures forall l :: !Holds(Opened(call).w, l)
  {
  }

  lemma PrecheckFailure(db: Db, call: Call)
    requires Precheck(call).Some?
    ensures ResultOk(db, Ended(call, Fail(Precheck(call).value)))
  {
  }

  lemma BeginKeeps(s: State, a: Action)
    requires Inv(s) && a.Begin? && Enabled(s, a)
    ensures Inv(Next(s, a))
  {
    hide DbInv, DbBound, TxInv, TxBound, ResultsOk, ResultOk, SerialOk, Holds, Opened, Precheck;
    if Precheck(a.call).Some? {
      PrecheckFailure(s.db, a.call);
      FailureAdded(s.db, s.results, a.t, Ended(a.call, Fail(Precheck(a.call).value)));
    } else {
      OpenedOk(s.db, a.call, s.drawn, s.flowSeq);
    }
  }

  /** A rollback, for whatever reason, changes no table. */
  lemma RollbackKeeps(s: State, t: nat, outcome: Outcome, drawn: set<nat>, flowSeq: nat)
    requires Inv(s) && t in s.txs && t !in s.results && s.drawn <= drawn && flowSeq >= s.flowSeq
    requires ResultOk(s.db, Ended(s.txs[t].call, outcome)) && !Took(outcome)
    ensures Inv(EndTx(s.(drawn := drawn, flowSeq := flowSeq), t, outcome))
  {
    hide DbInv, TxInv, ResultsOk, SerialOk, ResultOk, Holds;
    FailureAdded(s.db, s.results, t, Ended(s.txs[t].call, outcome));
  }

  lemma GoLocks(s: State, t: nat, newId: nat, u: nat, l: Lock)
    requires Inv(s) && t in s.txs && u in s.txs && u != t && !Blocked(s, t) && newId !in s.drawn
    requires Exec(s.db, s.txs[t], newId, s.flowSeq + 1).Go?
    ensures !(Holds(Exec(s.db, s.txs[t], newId, s.flowSeq + 1).tx.w, l) && Holds(s.txs[u].w, l))
  {
    hide DbInv, DbBound, ResultsOk, SerialOk;
    var tx := s.txs[t];
    var w := Exec(s.db, tx, newId, s.flowSeq + 1).tx.w;
    assert TxInv(s.db, tx) && TxBound(s.txs[u], s.drawn, s.flowSeq);
    if Holds(w, l) && Holds(s.txs[u].w, l) {
      match tx.call {
        case Create(req) => CreateLocks(s.db, tx, req, newId, l);
        case Pay(req) => PayLocks(s.db, tx, req, newId, s.flowSeq + 1, l);
      }
    }
  }

  lemma GoTx(db: Db, tx: Tx, drawn: set<nat>, newId: nat, flowSeq: nat)
    requires TxInv(db, tx) && TxBound(tx, drawn, flowSeq) && DbBound(db, drawn, flowSeq) && newId !in drawn
    requires Exec(db, tx, newId, flowSeq + 1).Go?
    ensures var tx' := Exec(db, tx, newId, flowSeq + 1).tx; TxInv(db, tx') && TxBound(tx', drawn + {newId}, flowSeq + 1)
  {
    match tx.call {
      case Create(req) =>
        CreateStep(db, tx, req, newId);
        CreateBound(db, tx, req, drawn, newId, flowSeq);
      case Pay(req) =>
        PayStep(db, tx, req, newId, flowSeq + 1);
        PayBound(db, tx, req, drawn, newId, flowSeq);
    }
  }

  lemma CreateBound(db: Db, tx: Tx, req: CreateOrderReq, drawn: set<nat>, newId: nat, flowSeq: nat)
    requires TxBound(tx, drawn, flowSeq) && newId !in drawn && ExecCreate(db, tx, req, newId).Go?
    ensures TxBound(ExecCreate(db, tx, req, newId).tx, drawn + {newId}, flowSeq + 1)
  {
    hide ExecCreate;
    CreateTouches(db, tx, req, newId);
  }

  /** Which table each statement of createOrder writes. */
  lemma CreateStatements(db: Db, w: Writes, req: CreateOrderReq, id: nat, o: Order, body: Response)
    ensures var v := TryAcquire(db, w, req).1; v == w.(idem := v.idem)
    ensures var v := DeductStock(db, w, req.productId, req.quantity).1; v == w.(products := v.products)
    ensures var v := MarkSuccess(db, w, req.requestId, body); v == w.(idem := v.idem)
    ensures var v := InsertOrder(db, w, id, o); v.Some? ==> v.value == w.(orders := w.orders[id := o])
  {
    hide HasOrderFor;
  }

  /** Which table each statement of handleCallback, other than marking the order, writes. */
  lemma PayStatements(db: Db, w: Writes, t: TradeNo, p: Payment, acct: AccountNo, amount: int, f: Flow, id: nat,
                      m: Message)
    ensures var v := InsertPayment(db, w, t, p).1; v == w.(payments := v.payments)
    ensures var v := Deduct(db, w, acct, amount).1; v == w.(accounts := v.accounts)
    ensures var v := InsertFlow(db, w, f); v.Some? ==> v.value == w.(flows := w.flows + [f])
    ensures var v := InsertMessage(db, w, id, m); v.Some? ==> v.value == w.(messages := w.messages[id := m])
  {
    hide HasFlowFor;
  }

  /** A createOrder statement adds no flow or message, and at most the order it just numbered. */
  lemma CreateTouches(db: Db, tx: Tx, req: CreateOrderReq, newId: nat)
    requires ExecCreate(db, tx, req, newId).Go?
    ensures var w := ExecCreate(db, tx, req, newId).tx.w;
            && w.flows == tx.w.flows && w.messages == tx.w.messages
            && forall no :: no in w.orders ==> no in tx.w.orders || no == newId
  {
    hide TryAcquire, DeductStock, MarkSuccess, InsertOrder;
    var o := NewOrder(req, if tx.pc.CInsert? then tx.pc.priceFen else 0);
    CreateStatements(db, tx.w, req, newId, o, if tx.pc.CMark? then Response(tx.pc.no, tx.pc.o) else Response(newId, o));
  }

  /** A handleCallback statement adds at most the flow and the message it just numbered. */
  lemma PayTouches(db: Db, tx: Tx, req: CallbackReq, newId: nat, flowId: nat)
    requires ExecPay(db, tx, req, newId, flowId).Go?
    ensures var w := ExecPay(db, tx, req, newId, flowId).tx.w;
            && (w.flows == tx.w.flows || exists f: Flow :: f.id == flowId && w.flows == tx.w.flows + [f])
            && (forall m :: m in w.messages ==> m in tx.w.messages || m == newId)
            && w.orders == if tx.pc.PMark? then MarkPaid(db, tx.w, req.orderNo).1.orders else tx.w.orders
  {
    hide InsertPayment, Deduct, InsertFlow, InsertMessage;
    var pc := tx.pc;
    var o := if pc.PInsert? || pc.PDeduct? || pc.PFlow? || pc.PMessage? then pc.o else Order(0, 0, 0, 0, 0, 0, Paid);
    var acct := if pc.PDeduct? || pc.PFlow? then pc.acct else 0;
    var after := if pc.PFlow? then pc.after else 0;
    var p := Payment(newId, req.orderNo, o.totalAmountFen, BeijingTime(req.timestamp));
    PayStatements(db, tx.w, req.channelTradeNo, p, acct, o.totalAmountFen,
                  Flow(flowId, acct, o.totalAmountFen, after + o.totalAmountFen, after, req.orderNo, req.requestId),
                  newId, Message(req.orderNo, o.totalAmountFen, o.userId));
  }

  lemma PayBound(db: Db, tx: Tx, req: CallbackReq, drawn: set<nat>, newId: nat, flowSeq: nat)
    requires TxBound(tx, drawn, flowSeq) && DbBound(db, drawn, flowSeq) && newId !in drawn
    requires ExecPay(db, tx, req, newId, flowSeq + 1).Go?
    ensures TxBound(ExecPay(db, tx, req, newId, flowSeq + 1).tx, drawn + {newId}, flowSeq + 1)
  {
    hide ExecPay, MarkPaid;
    PayTouches(db, tx, req, newId, flowSeq + 1);
    MarkPaidBound(db, tx, req, drawn, flowSeq);
  }

  lemma MarkPaidBound(db: Db, tx: Tx, req: CallbackReq, drawn: set<nat>, flowSeq: nat)
    requires TxBound(tx, drawn, flowSeq) && DbBound(db, drawn, flowSeq)
    ensures var w := MarkPaid(db, tx.w, req.orderNo).1;
            w.(orders := tx.w.orders) == tx.w && forall no :: no in w.orders ==> no in drawn
  {
  }

  lemma GoKeeps(s: State, t: nat, newId: nat)
    requires Inv(s) && Enabled(s, Run(t, newId))
    requires Exec(s.db, s.txs[t], newId, s.flowSeq + 1).Go?
    ensures Inv(Next(s, Run(t, newId)))
  {
    hide DbInv, ResultsOk, SerialOk, Exec, TxInv, Holds;
    var s' := Next(s, Run(t, newId));
    GoTx(s.db, s.txs[t], s.drawn, newId, s.flowSeq);
    forall x, y, l: Lock | x in s'.txs && y in s'.txs && x != y
      ensures !(Holds(s'.txs[x].w, l) && Holds(s'.txs[y].w, l))
    {
      if x == t { GoLocks(s, t, newId, y, l); }
      else if y == t { GoLocks(s, t, newId, x, l); }
    }
  }

  lemma CreateEndResult(db: Db, tx: Tx, req: CreateOrderReq, newId: nat)
    requires CreateInv(db, tx, req) && IdemMatchesOrders(db.idem, db.orders) && newId !in db.orders
    requires ExecCreate(db, tx, req, newId).End?
    ensures var r := ExecCreate(db, tx, req, newId).outcome; ResultOk(db, Ended(Create(req), r)) && !Took(r)
  {
    hide CreateInv, ExecCreate;
    CreateEnds(db, tx, req, newId);
  }

  lemma PayEndResult(db: Db, tx: Tx, req: CallbackReq, newId: nat, flowId: nat)
    requires PayInv(db, tx, req) && Evolves(View(db, tx), db) && newId !in db.messages && OrdersOk(db.orders)
    requires PaymentsMatch(db.orders, db.payments)
    requires ExecPay(db, tx, req, newId, flowId).End?
    ensures var r := ExecPay(db, tx, req, newId, flowId).outcome; ResultOk(db, Ended(Pay(req), r)) && !Took(r)
  {
    hide PayInv, ExecPay, Evolves, Lost;
    PayEnds(db, tx, req, newId, flowId);
  }

  lemma EndResult(db: Db, tx: Tx, newId: nat, flowId: nat)
    requires TxInv(db, tx) && IdemMatchesOrders(db.idem, db.orders) && OrdersOk(db.orders)
    requires PaymentsMatch(db.orders, db.payments)
    requires newId !in db.orders && newId !in db.messages && Exec(db, tx, newId, flowId).End?
    ensures var r := Exec(db, tx, newId, flowId).outcome; ResultOk(db, Ended(tx.call, r)) && !Took(r)
  {
    hide IdemMatchesOrders, OrdersOk, PaymentsMatch, ResultOk, ExecCreate, ExecPay, CreateInv, PayInv, Evolves;
    match tx.call {
      case Create(req) => CreateEndResult(db, tx, req, newId);
      case Pay(req) =>
        assert Evolves(View(db, tx), db) by { if tx.snap.None? { EvolvesReflexive(db); } }
        PayEndResult(db, tx, req, newId, flowId);
    }
  }

  lemma EvolvesReflexive(db: Db)
    ensures Evolves(db, db)
  {
  }

  lemma EndKeeps(s: State, t: nat, newId: nat)
    requires Inv(s) && Enabled(s, Run(t, newId))
    requires Exec(s.db, s.txs[t], newId, s.flowSeq + 1).End?
    ensures Inv(Next(s, Run(t, newId)))
  {
    hide TxInv, ResultsOk, SerialOk, Exec, Holds, ResultOk, IdemMatchesOrders, OrdersOk, PaymentsMatch, FlowsMatch,
         MessagesMatch, StockConserved, BalancesChained;
    EndResult(s.db, s.txs[t], newId, s.flowSeq + 1);
    RollbackKeeps(s, t, Exec(s.db, s.txs[t], newId, s.flowSeq + 1).outcome, s.drawn + {newId}, s.flowSeq + 1);
  }

  predicate Committing(tx: Tx) { (tx.call.Create? && tx.pc.CCommit?) || (tx.call.Pay? && tx.pc.PCommit?) }

  predicate OwnAccounts(w: Writes) { forall i :: 0 <= i < |w.flows| ==> w.flows[i].accountNo in w.accounts }

  lemma OthersStable(s: State, t: nat, u: nat, d: Db)
    requires TxsOk(s.db, s.txs, s.drawn, s.flowSeq) && LocksDisjoint(s.txs) && t in s.txs && u in s.txs && t != u
    requires d == Merge(s.db, s.txs[t].w) && Evolves(s.db, d) && OwnAccounts(s.txs[t].w)
    ensures TxInv(d, s.txs[u])
  {
    hide TxInv, Evolves, Merge;
    forall l | Holds(s.txs[u].w, l) ensures SameAt(s.db, d, l) {
      MergeTouches(s.db, s.txs[t].w, l);
    }
    TxStable(s.db, d, s.txs[u]);
  }

  function CommitOutcome(tx: Tx): Outcome
    requires Committing(tx)
  {
    if tx.call.Create? then Created(tx.pc.no, tx.pc.o) else PaySuccess
  }

  lemma CreateCommitIsAtomic(init: Db, db: Db, tx: Tx, req: CreateOrderReq)
    requires DbInv(init, db) && IdemMatchesOrders(db.idem, db.orders) && CreateInv(db, tx, req) && tx.pc.CCommit?
    ensures CreateAtomic(db, req, tx.pc.no) == (Merge(db, tx.w), Created(tx.pc.no, tx.pc.o))
    ensures Evolves(db, Merge(db, tx.w)) && DbInv(init, Merge(db, tx.w))
  {
    hide *;
    CreateCommits(db, tx, req);
    CreateEvolves(db, req, tx.pc.no);
    CreateKeepsInv(init, db, req, tx.pc.no);
  }

  lemma PayCommitIsAtomic(init: Db, db: Db, tx: Tx, req: CallbackReq)
    requires DbInv(init, db) && PayInv(db, tx, req) && tx.pc.PCommit?
    ensures PayAtomic(db, req, tx.pc.n) == (Merge(db, tx.w), PaySuccess)
    ensures Evolves(db, Merge(db, tx.w)) && DbInv(init, Merge(db, tx.w)) && OwnAccounts(tx.w)
  {
    hide PayInv, DbInv, PayVerdict, AfterPay, Merge, Evolves;
    PayCommits(db, tx, req);
    PayEvolves(db, req, tx.pc.n);
    PayKeepsInv(init, db, req, tx.pc.n);
  }

  /** The committing call, run atomically on the tables as they are now, does exactly this commit. */
  lemma CommitIsAtomic(init: Db, db: Db, tx: Tx)
    requires DbInv(init, db) && TxInv(db, tx) && Committing(tx)
    ensures Apply(db, EntryOf(tx)) == (Merge(db, tx.w), CommitOutcome(tx))
    ensures Evolves(db, Merge(db, tx.w)) && DbInv(init, Merge(db, tx.w)) && OwnAccounts(tx.w)
  {
    hide PayInv, Merge, Evolves, CreateAtomic, PayAtomic, CreateKnows, IdemMatchesOrders, OrdersOk, PaymentsMatch,
         FlowsMatch, MessagesMatch, StockConserved, BalancesChained;
    match tx.call {
      case Create(req) => CreateCommitIsAtomic(init, db, tx, req);
      case Pay(req) => PayCommitIsAtomic(init, db, tx, req);
    }
  }

  lemma CreateLeaves(db: Db, req: CreateOrderReq, no: nat, o: Order)
    requires CreateVerdict(db, req, no) == Created(no, o)
    ensures OrderedFor(AfterCreate(db, req, no), req, no, o)
  {
  }

  lemma PayLeaves(db: Db, req: CallbackReq, n: Numbers)
    requires PayVerdict(db, req, n) == PaySuccess
    ensures PaidFor(AfterPay(db, req, n), req)
  {
    var d := AfterPay(db, req, n);
    assert d.flows[|db.flows|].requestId == req.requestId && d.flows[|db.flows|].orderNo == req.orderNo;
  }

  lemma CommitResult(db: Db, d: Db, tx: Tx)
    requires TxInv(db, tx) && Committing(tx) && Apply(db, EntryOf(tx)) == (d, CommitOutcome(tx))
    ensures ResultOk(d, Ended(tx.call, CommitOutcome(tx)))
  {
    hide TxInv, AfterCreate, AfterPay, CreateVerdict, PayVerdict, OrderedFor, PaidFor;
    match tx.call {
      case Create(req) => CreateLeaves(db, req, tx.pc.no, tx.pc.o);
      case Pay(req) => PayLeaves(db, req, tx.pc.n);
    }
  }

  /** What a commit does, no earlier answer claims to have done. */
  lemma CommitIsNew(db: Db, tx: Tx, e: Ended)
    requires TxInv(db, tx) && Committing(tx) && ResultOk(db, e)
    ensures !SameEffect(e, Ended(tx.call, CommitOutcome(tx))) && !SameEffect(Ended(tx.call, CommitOutcome(tx)), e)
  {
  }

  lemma CommitBound(db: Db, tx: Tx, drawn: set<nat>, flowSeq: nat, newId: nat)
    requires DbBound(db, drawn, flowSeq) && TxBound(tx, drawn, flowSeq) && newId !in drawn
    ensures DbBound(Merge(db, tx.w), drawn + {newId}, flowSeq + 1)
  {
  }

  lemma CommitResults(db: Db, d: Db, results: map<nat, Ended>, t: nat, tx: Tx)
    requires ResultsOk(db, results) && t !in results && Evolves(db, d)
    requires TxInv(db, tx) && Committing(tx) && Apply(db, EntryOf(tx)) == (d, CommitOutcome(tx))
    ensures ResultsOk(d, results[t := Ended(tx.call, CommitOutcome(tx))])
  {
    hide ResultOk, Evolves, TxInv, Apply, SameEffect;
    var e := Ended(tx.call, CommitOutcome(tx));
    CommitResult(db, d, tx);
    forall u | u in results
      ensures ResultOk(d, results[u]) && !SameEffect(results[u], e) && !SameEffect(e, results[u])
    {
      ResultStable(db, d, results[u]);
      CommitIsNew(db, tx, results[u]);
    }
    ResultAdded(d, results, t, Ended(tx.call, CommitOutcome(tx)));
  }

  lemma CommitTxs(s: State, t: nat, d: Db, newId: nat)
    requires TxsOk(s.db, s.txs, s.drawn, s.flowSeq) && LocksDisjoint(s.txs) && t in s.txs && newId !in s.drawn
    requires d == Merge(s.db, s.txs[t].w) && Evolves(s.db, d) && OwnAccounts(s.txs[t].w)
    ensures TxsOk(d, s.txs - {t}, s.drawn + {newId}, s.flowSeq + 1) && LocksDisjoint(s.txs - {t})
  {
    hide TxInv, Evolves, Holds, Merge;
    forall u | u in s.txs - {t} ensures TxInv(d, s.txs[u]) {
      OthersStable(s, t, u, d);
    }
  }

  lemma CommitKeeps(s: State, t: nat, newId: nat)
    requires Inv(s) && Enabled(s, Run(t, newId))
    requires Exec(s.db, s.txs[t], newId, s.flowSeq + 1).Commit?
    ensures Inv(Next(s, Run(t, newId)))
    ensures Evolves(s.db, Next(s, Run(t, newId)).db)
  {
    hide DbInv, DbBound, TxInv, Evolves, Holds, Merge, ResultsOk, AllSucceed, Replay, Apply, EntryOf;
    var tx := s.txs[t];
    CommitPc(s.db, tx, newId, s.flowSeq + 1);
    CommitIsAtomic(s.init, s.db, tx);
    SerialAppend(s.init, s.log, EntryOf(tx));
    CommitBound(s.db, tx, s.drawn, s.flowSeq, newId);
    CommitTxs(s, t, Merge(s.db, tx.w), newId);
    CommitResults(s.db, Merge(s.db, tx.w), s.results, t, tx);
    assert Exec(s.db, tx, newId, s.flowSeq + 1).outcome == CommitOutcome(tx);
  }

  lemma NextKeeps(s: State, a: Action)
    requires Inv(s) && Enabled(s, a)
    ensures Inv(Next(s, a)) && Evolves(s.db, Next(s, a).db) && Next(s, a).init == s.init
  {
    hide Inv, Exec, Evolves, ResultOk, Merge;
    EvolvesReflexive(s.db);
    match a {
      case Begin(_, _) => BeginKeeps(s, a);
      case Abort(t, code) =>
        AbortResult(s.db, s.txs[t].call, code);
        RollbackKeeps(s, t, Fail(code), s.drawn, s.flowSeq);
      case Run(t, newId) =>
        match Exec(s.db, s.txs[t], newId, s.flowSeq + 1) {
          case Go(_) => GoKeeps(s, t, newId);
          case End(_) => EndKeeps(s, t, newId);
          case Commit(_) => CommitKeeps(s, t, newId);
        }
    }
  }

  lemma AbortResult(db: Db, call: Call, code: Code)
    requires code in {DbError, InternalError}
    ensures ResultOk(db, Ended(call, Fail(code)))
  {
  }

  lemma {:induction false} Invariant(init: Db, run: seq<Action>)
    requires Initial(init) && After(init, run).Some?
    ensures Inv(After(init, run).value) && After(init, run).value.init == init
  {
    hide Inv, Next, Enabled, Evolves, Initial;
    if run == [] {
      StartInv(init);
    } else {
      Invariant(init, run[..|run|-1]);
      NextKeeps(After(init, run[..|run|-1]).value, run[|run|-1]);
    }
  }
}
