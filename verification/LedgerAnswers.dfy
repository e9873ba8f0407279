/** What each answer means, told by the tables and the request alone, and what a success leaves behind. */
module LedgerAnswers {
  import opened Prelude
  import opened Tables
  import opened LedgerSpec
  import opened Ledger
  import opened LedgerProof
  import opened LedgerInvariant
  import opened LedgerTheorems

  // ---- Why a call answers what it answers ----

  predicate InRange(req: CreateOrderReq) { 1 <= req.quantity <= 999 }

  predicate OnShelf(db: Db, id: nat) { id in db.products && db.products[id].status == 1 }

  predicate NewRequest(db: Db, req: CreateOrderReq) { InRange(req) && req.requestId !in db.idem }

  predicate InStock(db: Db, req: CreateOrderReq) {
    NewRequest(db, req) && OnShelf(db, req.productId) && db.products[req.productId].stock >= req.quantity
  }

  /** The one condition under which createOrder gives each answer. */
  predicate CreateReason(db: Db, req: CreateOrderReq, no: nat, r: Outcome) {
    match r
    case Fail(ParamInvalid) => req.quantity < 1 || req.quantity > 999
    case Cached(body) =>
      InRange(req) && req.requestId in db.idem && db.idem[req.requestId].status == 1
      && db.idem[req.requestId].response == body
    case Fail(DuplicateRequest) =>
      InRange(req) && req.requestId in db.idem && db.idem[req.requestId].status != 1
    case Fail(ProductNotFound) => NewRequest(db, req) && !OnShelf(db, req.productId)
    case Fail(StockNotEnough) =>
      NewRequest(db, req) && OnShelf(db, req.productId) && db.products[req.productId].stock < req.quantity
    case Fail(DbError) =>
      && InStock(db, req)
      && (no in db.orders || HasOrderFor(db.orders, req.requestId)
          || db.products[req.productId].priceFen * req.quantity < 0)
    case Created(k, o) =>
      && InStock(db, req) && k == no && no !in db.orders && !HasOrderFor(db.orders, req.requestId)
      && db.products[req.productId].priceFen * req.quantity >= 0
      && o.requestId == req.requestId && o.userId == req.userId && o.productId == req.productId
      && o.quantity == req.quantity && o.unitPriceFen == db.products[req.productId].priceFen
      && o.totalAmountFen == db.products[req.productId].priceFen * req.quantity && o.status == PendingPayment
    case _ => false
  }

  /** An accepted callback for an existing order and its exact amount. */
  predicate AmountAgrees(db: Db, req: CallbackReq) {
    && req.channel == MOCK && req.signOk && req.orderNo in db.orders
    && req.amountFen == Some(db.orders[req.orderNo].totalAmountFen)
  }

  predicate Payee(db: Db, req: CallbackReq) {
    AmountAgrees(db, req) && req.channelTradeNo !in db.payments && db.orders[req.orderNo].status == PendingPayment
  }

  predicate HasAccount(db: Db, userId: nat) { userId in db.accountOf && db.accountOf[userId] in db.accounts }

  predicate CanPay(a: Account, fen: int) { a.status == 0 && a.balanceFen >= fen }

  /** The one condition under which handleCallback gives each answer. */
  predicate PayReason(db: Db, req: CallbackReq, n: Numbers, r: Outcome) {
    match r
    case Fail(UnsupportedChannel) => req.channel != MOCK
    case Fail(SignVerifyFailed) => req.channel == MOCK && !req.signOk
    case Fail(OrderNotFound) => req.channel == MOCK && req.signOk && req.orderNo !in db.orders
    case Fail(AmountMismatch) =>
      && req.channel == MOCK && req.signOk && req.orderNo in db.orders
      && req.amountFen != Some(db.orders[req.orderNo].totalAmountFen)
    case Fail(ChannelTradeConflict) =>
      && AmountAgrees(db, req) && req.channelTradeNo in db.payments
      && db.payments[req.channelTradeNo].orderNo != req.orderNo
    case PayReplay =>
      && AmountAgrees(db, req)
      && (if req.channelTradeNo in db.payments then db.payments[req.channelTradeNo].orderNo == req.orderNo
          else db.orders[req.orderNo].status == Paid)
    case Fail(OrderStatusInvalid) =>
      && AmountAgrees(db, req) && req.channelTradeNo !in db.payments
      && db.orders[req.orderNo].status != PendingPayment && db.orders[req.orderNo].status != Paid
    case Fail(AccountNotFound) => Payee(db, req) && !HasAccount(db, db.orders[req.orderNo].userId)
    case Fail(BalanceNotEnough) =>
      && Payee(db, req) && HasAccount(db, db.orders[req.orderNo].userId)
      && var a := db.accounts[db.accountOf[db.orders[req.orderNo].userId]];
         a.status != 0 || a.balanceFen < db.orders[req.orderNo].totalAmountFen
    case Fail(DbError) =>
      && Chargeable(db, req)
      && (|| db.orders[req.orderNo].totalAmountFen <= 0 || HasFlowFor(db.flows, req.requestId)
          || n.messageId in db.messages)
    case PaySuccess =>
      && Chargeable(db, req) && db.orders[req.orderNo].totalAmountFen > 0
      && !HasFlowFor(db.flows, req.requestId) && n.messageId !in db.messages
    case _ => false
  }

  predicate Chargeable(db: Db, req: CallbackReq) {
    && Payee(db, req) && HasAccount(db, db.orders[req.orderNo].userId)
    && CanPay(db.accounts[db.accountOf[db.orders[req.orderNo].userId]], db.orders[req.orderNo].totalAmountFen)
  }

  lemma CreateAnswersExactly(db: Db, req: CreateOrderReq, no: nat, r: Outcome)
    ensures CreateAtomic(db, req, no).1 == r <==> CreateReason(db, req, no, r)
  {
  }

  lemma PayAnswersExactly(db: Db, req: CallbackReq, n: Numbers, r: Outcome)
    ensures PayAtomic(db, req, n).1 == r <==> PayReason(db, req, n, r)
  {
  }

  /** In every run, whatever a call is answered is the answer for its reason on the tables of that
      moment, unless it was aborted or is a callback that lost to a payment of its order. */
  lemma AnswersMean(init: Db, run: seq<Action>, s: State, a: Action)
    requires Initial(init) && After(init, run) == Some(s) && Enabled(s, a) && a.t in Next(s, a).results
    ensures var r := Next(s, a).results[a.t].outcome;
            match Next(s, a).results[a.t].call
            case Create(req) =>
              || (a.Abort? && r == Fail(a.code))
              || (exists no :: no !in s.db.orders && CreateReason(s.db, req, no, r))
            case Pay(req) =>
              || (a.Abort? && r == Fail(a.code))
              || (exists n: Numbers :: n.messageId !in s.db.messages && PayReason(s.db, req, n, r))
              || (a.Run? && Lost(s.db, s.txs[a.t], req) && r in {Fail(ChannelTradeConflict), Fail(OrderStatusInvalid)})
  {
    match a {
      case Begin(_, call) =>
        PrecheckMeans(s.db, call, Unused(s.db.orders.Keys), Numbers(0, 0, Unused(s.db.messages.Keys)));
      case Abort(_, _) =>
      case Run(t, newId) => RunMeans(init, run, s, t, newId);
    }
  }

  lemma PrecheckMeans(db: Db, call: Call, no: nat, n: Numbers)
    requires Precheck(call).Some? && no !in db.orders && n.messageId !in db.messages
    ensures match call
            case Create(req) => CreateReason(db, req, no, Fail(Precheck(call).value))
            case Pay(req) => PayReason(db, req, n, Fail(Precheck(call).value))
  {
  }

  lemma RunMeans(init: Db, run: seq<Action>, s: State, t: nat, newId: nat)
    requires Initial(init) && After(init, run) == Some(s) && Enabled(s, Run(t, newId))
    requires t in Next(s, Run(t, newId)).results
    ensures var e := Next(s, Run(t, newId)).results[t];
            match e.call
            case Create(req) => exists no :: no !in s.db.orders && CreateReason(s.db, req, no, e.outcome)
            case Pay(req) =>
              || (exists n: Numbers :: n.messageId !in s.db.messages && PayReason(s.db, req, n, e.outcome))
              || (Lost(s.db, s.txs[t], req) && e.outcome in {Fail(ChannelTradeConflict), Fail(OrderStatusInvalid)})
  {
    hide After, Initial, CreateReason, PayReason, Lost, Merge, TxInv, Evolves, CreateVerdict, PayVerdict;
    hide ExecCreate, ExecPay, LocksDisjoint, ResultsOk, SerialOk;
    Invariant(init, run);
    var tx, flowId := s.txs[t], s.flowSeq + 1;
    assert TxInv(s.db, tx);
    assert newId !in s.db.orders && newId !in s.db.messages;
    match Exec(s.db, tx, newId, flowId) {
      case Go(_) =>
      case End(r) =>
        AnswersLinearize(init, run, s, t, newId);
        match tx.call {
          case Create(req) => CreateAnswersExactly(s.db, req, newId, r);
          case Pay(req) => PayAnswersExactly(s.db, req, Numbers(newId, flowId, newId), r);
        }
      case Commit(r) =>
        CommitSays(s.db, tx, newId, flowId);
        CommitMeans(init, s.db, tx);
    }
  }

  lemma CommitMeans(init: Db, db: Db, tx: Tx)
    requires DbInv(init, db) && TxInv(db, tx) && Committing(tx)
    ensures match tx.call
            case Create(req) => tx.pc.no !in db.orders && CreateReason(db, req, tx.pc.no, CommitOutcome(tx))
            case Pay(req) => tx.pc.n.messageId !in db.messages && PayReason(db, req, tx.pc.n, CommitOutcome(tx))
  {
    hide DbInv, TxInv, Merge, CreateVerdict, PayVerdict, AfterCreate, AfterPay;
    CommitIsAtomic(init, db, tx);
    match tx.call {
      case Create(req) => CreateAnswersExactly(db, req, tx.pc.no, CommitOutcome(tx));
      case Pay(req) => PayAnswersExactly(db, req, tx.pc.n, CommitOutcome(tx));
    }
  }

  lemma CommitSays(db: Db, tx: Tx, newId: nat, flowId: nat)
    requires Exec(db, tx, newId, flowId).Commit?
    ensures Committing(tx) && Exec(db, tx, newId, flowId).outcome == CommitOutcome(tx)
  {
  }

  // ---- What a success leaves behind ----

  /** An order created in any run is the caller's: its user, product and quantity, at the price the
      product has had from the start; the request key carries the caller and the content hash. */
  lemma OrderIsAsAsked(init: Db, run: seq<Action>, s: State, t: nat)
    requires Initial(init) && After(init, run) == Some(s)
    requires t in s.results && s.results[t].call.Create? && s.results[t].outcome.Created?
    ensures var req, no, o := s.results[t].call.creq, s.results[t].outcome.orderNo, s.results[t].outcome.order;
            && o.requestId == req.requestId && o.userId == req.userId && o.productId == req.productId
            && o.quantity == req.quantity && o.status == PendingPayment
            && req.productId in init.products && o.unitPriceFen == init.products[req.productId].priceFen
            && o.totalAmountFen == init.products[req.productId].priceFen * req.quantity
            && no in s.db.orders && s.db.orders[no] == o.(status := s.db.orders[no].status)
            && req.requestId in s.db.idem
            && s.db.idem[req.requestId] == Idem(req.userId, req.requestHash, 1, Some(Response(no, o)))
  {
    hide After, Initial;
    AnswersHold(init, run, s);
    assert ResultOk(s.db, s.results[t]);
    SamePrices(init, run, s);
  }

  lemma SamePrices(init: Db, run: seq<Action>, s: State)
    requires Initial(init) && After(init, run) == Some(s)
    ensures ProductsEvolve(init.products, s.db.products)
  {
    hide Initial, ProductsEvolve, AccountsEvolve, OrdersEvolve, Extends;
    assert [] + run == run;
    NeverMovesBack(init, [], run);
  }

  /** A callback that paid has booked exactly what it stated: its trade number, amount and time on the
      payment, its request id on the flow, with an accepted channel and signature. */
  lemma PaymentIsAsTold(init: Db, run: seq<Action>, s: State, t: nat)
    requires Initial(init) && After(init, run) == Some(s)
    requires t in s.results && s.results[t].call.Pay? && s.results[t].outcome.PaySuccess?
    ensures PaidFor(s.db, s.results[t].call.preq)
  {
    hide After, Initial, PaidFor;
    AnswersHold(init, run, s);
    assert ResultOk(s.db, s.results[t]);
  }

  /** The order and its request key are what this committed call left. */
  predicate OrderOf(db: Db, e: Entry, no: nat) {
    && e.CreateEntry? && e.no == no && no in db.orders
    && OrderedFor(db, e.creq, no, db.orders[no].(status := PendingPayment))
  }

  predicate PaymentOf(db: Db, e: Entry, t: TradeNo) {
    && e.PayEntry? && e.preq.channelTradeNo == t && PaidFor(db, e.preq)
    && db.payments[t].paymentNo == e.n.paymentNo
  }

  predicate FromCreate(db: Db, log: seq<Entry>, no: nat) {
    exists i :: 0 <= i < |log| && OrderOf(db, log[i], no)
  }

  predicate FromPay(db: Db, log: seq<Entry>, t: TradeNo) {
    exists i :: 0 <= i < |log| && PaymentOf(db, log[i], t)
  }

  lemma FromCreateStays(a: Db, b: Db, log: seq<Entry>, e: Entry, no: nat)
    requires FromCreate(a, log, no) && Evolves(a, b)
    ensures FromCreate(b, log + [e], no)
  {
    var i :| 0 <= i < |log| && OrderOf(a, log[i], no);
    assert (log + [e])[i] == log[i];
    ResultStable(a, b, Ended(Create(log[i].creq), Created(no, a.orders[no].(status := PendingPayment))));
  }

  lemma FromPayStays(a: Db, b: Db, log: seq<Entry>, e: Entry, t: TradeNo)
    requires FromPay(a, log, t) && Evolves(a, b)
    ensures FromPay(b, log + [e], t)
  {
    var i :| 0 <= i < |log| && PaymentOf(a, log[i], t);
    assert (log + [e])[i] == log[i];
    ResultStable(a, b, Ended(Pay(log[i].preq), PaySuccess));
  }

  ghost predicate AllLogged(db: Db, log: seq<Entry>) {
    (forall no :: no in db.orders ==> FromCreate(db, log, no)) && (forall t :: t in db.payments ==> FromPay(db, log, t))
  }

  lemma LogCreate(db: Db, log: seq<Entry>, e: Entry)
    requires AllLogged(db, log) && e.CreateEntry? && CreateAtomic(db, e.creq, e.no).1.Created?
    ensures AllLogged(CreateAtomic(db, e.creq, e.no).0, log + [e])
  {
    hide FromCreate, FromPay, Evolves, OrderedFor, CreateVerdict;
    var d := CreateAtomic(db, e.creq, e.no).0;
    CreateEvolves(db, e.creq, e.no);
    forall no | no in d.orders ensures FromCreate(d, log + [e], no) {
      if no == e.no { NewOrderLogged(db, log, e); } else { FromCreateStays(db, d, log, e, no); }
    }
    forall t | t in d.payments ensures FromPay(d, log + [e], t) { FromPayStays(db, d, log, e, t); }
  }

  lemma NewOrderLogged(db: Db, log: seq<Entry>, e: Entry)
    requires e.CreateEntry? && CreateAtomic(db, e.creq, e.no).1.Created?
    ensures FromCreate(CreateAtomic(db, e.creq, e.no).0, log + [e], e.no)
  {
    var r := CreateAtomic(db, e.creq, e.no).1;
    CreateLeaves(db, e.creq, e.no, r.order);
    assert (log + [e])[|log|] == e;
  }

  lemma LogPay(db: Db, log: seq<Entry>, e: Entry)
    requires AllLogged(db, log) && e.PayEntry? && PayAtomic(db, e.preq, e.n).1.PaySuccess?
    ensures AllLogged(PayAtomic(db, e.preq, e.n).0, log + [e])
  {
    hide FromCreate, FromPay, Evolves, PayVerdict;
    var d := PayAtomic(db, e.preq, e.n).0;
    PayEvolves(db, e.preq, e.n);
    forall no | no in d.orders ensures FromCreate(d, log + [e], no) { FromCreateStays(db, d, log, e, no); }
    forall t | t in d.payments ensures FromPay(d, log + [e], t) {
      if t == e.preq.channelTradeNo { NewPaymentLogged(db, log, e); } else { FromPayStays(db, d, log, e, t); }
    }
  }

  lemma NewPaymentLogged(db: Db, log: seq<Entry>, e: Entry)
    requires e.PayEntry? && PayAtomic(db, e.preq, e.n).1.PaySuccess?
    ensures FromPay(PayAtomic(db, e.preq, e.n).0, log + [e], e.preq.channelTradeNo)
  {
    hide PaidFor;
    PayLeaves(db, e.preq, e.n);
    assert (log + [e])[|log|] == e;
  }

  lemma {:induction false} ReplayIsLogged(init: Db, log: seq<Entry>)
    requires Initial(init) && AllSucceed(init, log)
    ensures AllLogged(Replay(init, log), log)
  {
    hide AllLogged, Apply, Initial;
    if log == [] {
      NothingLogged(init);
    } else {
      var front, e := log[..|log|-1], log[|log|-1];
      ReplayIsLogged(init, front);
      assert front + [e] == log;
      LogEntry(Replay(init, front), front, e);
    }
  }

  lemma NothingLogged(init: Db)
    requires Initial(init)
    ensures AllLogged(init, [])
  {
  }

  lemma LogEntry(db: Db, log: seq<Entry>, e: Entry)
    requires AllLogged(db, log) && Took(Apply(db, e).1)
    ensures AllLogged(Apply(db, e).0, log + [e])
  {
    hide AllLogged, AfterCreate, AfterPay;
    match e {
      case CreateEntry(_, _) => LogCreate(db, log, e);
      case PayEntry(_, _) => LogPay(db, log, e);
    }
  }

  /** In every run each committed order and request key carries the data of the committed createOrder
      it stems from, and each payment that of the committed callback it stems from. */
  lemma RowsStemFromCalls(init: Db, run: seq<Action>, s: State)
    requires Initial(init) && After(init, run) == Some(s)
    ensures AllLogged(s.db, s.log)
  {
    hide After, Initial, AllLogged, AllSucceed, Replay;
    Serializable(init, run, s);
    ReplayIsLogged(init, s.log);
  }

  // ---- Payment numbers ----

  predicate Apart(a: map<TradeNo, Payment>, b: map<TradeNo, Payment>) {
    forall t, u | t in a && u in b :: a[t].paymentNo != b[u].paymentNo
  }

  predicate Own(a: map<TradeNo, Payment>, drawn: set<nat>) {
    && (forall t :: t in a ==> a[t].paymentNo in drawn)
    && (forall t, u | t in a && u in a && t != u :: a[t].paymentNo != a[u].paymentNo)
  }

  type PaymentRows = map<TradeNo, Payment>

  /** Committed rows and the rows of each running call, all under numbers of their own. */
  predicate AllApart(rows: PaymentRows, open: map<nat, PaymentRows>, drawn: set<nat>) {
    && Own(rows, drawn)
    && (forall x :: x in open ==> Own(open[x], drawn) && Apart(open[x], rows))
    && (forall x, y | x in open && y in open && x != y :: Apart(open[x], open[y]))
  }

  function Open(txs: map<nat, Tx>): map<nat, PaymentRows> { map x | x in txs :: txs[x].w.payments }

  predicate NumbersApart(s: State) { AllApart(s.db.payments, Open(s.txs), s.drawn) }

  predicate JustDrawn(b: PaymentRows, newId: nat) { forall t :: t in b ==> b[t].paymentNo == newId && b.Keys == {t} }

  lemma PutApart(rows: PaymentRows, open: map<nat, PaymentRows>, drawn: set<nat>, t: nat, b: PaymentRows, newId: nat)
    requires AllApart(rows, open, drawn) && newId !in drawn && ((t in open && b == open[t]) || JustDrawn(b, newId))
    ensures AllApart(rows, open[t := b], drawn + {newId})
  {
  }

  lemma EndApart(rows: PaymentRows, open: map<nat, PaymentRows>, drawn: set<nat>, t: nat, newId: nat)
    requires AllApart(rows, open, drawn) && t in open
    ensures AllApart(rows, open - {t}, drawn) && AllApart(rows, open - {t}, drawn + {newId})
    ensures AllApart(rows + open[t], open - {t}, drawn + {newId})
  {
  }

  lemma CreatePayments(db: Db, tx: Tx, req: CreateOrderReq, newId: nat)
    requires ExecCreate(db, tx, req, newId).Go?
    ensures ExecCreate(db, tx, req, newId).tx.w.payments == tx.w.payments
  {
    hide TryAcquire, DeductStock, MarkSuccess, InsertOrder;
    var o := NewOrder(req, if tx.pc.CInsert? then tx.pc.priceFen else 0);
    var body := if tx.pc.CMark? then Response(tx.pc.no, tx.pc.o) else Response(newId, o);
    CreateStatements(db, tx.w, req, newId, o, body);
  }

  /** A callback's statement records no payment, or its only one under the number just drawn. */
  lemma PayPayments(db: Db, tx: Tx, req: CallbackReq, newId: nat, flowId: nat)
    requires ExecPay(db, tx, req, newId, flowId).Go? && (tx.pc.PInsert? ==> tx.w.payments == map[])
    ensures var a, b := tx.w.payments, ExecPay(db, tx, req, newId, flowId).tx.w.payments;
            b == a || JustDrawn(b, newId)
  {
    hide InsertPayment, MarkPaid, Deduct, InsertFlow, InsertMessage, JustDrawn;
    var pc := tx.pc;
    var o := if pc.PInsert? || pc.PDeduct? || pc.PFlow? || pc.PMessage? then pc.o else Order(0, 0, 0, 0, 0, 0, Paid);
    var acct := if pc.PDeduct? || pc.PFlow? then pc.acct else 0;
    var after := if pc.PFlow? then pc.after else 0;
    var p := Payment(newId, req.orderNo, o.totalAmountFen, BeijingTime(req.timestamp));
    PayStatements(db, tx.w, req.channelTradeNo, p, acct, o.totalAmountFen,
                  Flow(flowId, acct, o.totalAmountFen, after + o.totalAmountFen, after, req.orderNo, req.requestId),
                  newId, Message(req.orderNo, o.totalAmountFen, o.userId));
    PaymentStatements(db, tx.w, req.orderNo, req.channelTradeNo, p);
  }

  lemma PaymentStatements(db: Db, w: Writes, no: nat, t: TradeNo, p: Payment)
    ensures MarkPaid(db, w, no).1.payments == w.payments
    ensures var rows := InsertPayment(db, w, t, p).1.payments;
            w.payments == map[] ==> rows == map[] || JustDrawn(rows, p.paymentNo)
  {
  }

  lemma GoPayments(db: Db, tx: Tx, newId: nat, flowId: nat)
    requires TxInv(db, tx) && Exec(db, tx, newId, flowId).Go?
    ensures var a, b := tx.w.payments, Exec(db, tx, newId, flowId).tx.w.payments;
            b == a || JustDrawn(b, newId)
  {
    hide Evolves, ExecCreate, ExecPay, JustDrawn;
    match tx.call {
      case Create(req) => CreatePayments(db, tx, req, newId);
      case Pay(req) => PayPayments(db, tx, req, newId, flowId);
    }
  }

  lemma OpenIs(txs: map<nat, Tx>, t: nat, tx: Tx)
    ensures Open(txs[t := tx]) == Open(txs)[t := tx.w.payments] && Open(txs - {t}) == Open(txs) - {t}
  {
  }

  lemma NumbersStep(s: State, a: Action)
    requires Inv(s) && NumbersApart(s) && Enabled(s, a)
    ensures NumbersApart(Next(s, a))
  {
    hide Inv, Exec, EntryOf, AllApart, Open, Blocked, Merge;
    match a {
      case Begin(t, call) =>
        OpenIs(s.txs, t, Opened(call));
        BeginApart(s.db.payments, Open(s.txs), s.drawn, t);
      case Abort(t, _) =>
        OpenIs(s.txs, t, s.txs[t]);
        HasOpen(s.txs, t);
        EndApart(s.db.payments, Open(s.txs), s.drawn, t, 0);
      case Run(t, newId) => NumbersRun(s, t, newId);
    }
  }

  lemma HasOpen(txs: map<nat, Tx>, t: nat)
    requires t in txs
    ensures t in Open(txs) && Open(txs)[t] == txs[t].w.payments
  {
  }

  lemma NumbersRun(s: State, t: nat, newId: nat)
    requires Inv(s) && NumbersApart(s) && Enabled(s, Run(t, newId))
    ensures NumbersApart(Next(s, Run(t, newId)))
  {
    hide DbInv, DbBound, LocksDisjoint, ResultsOk, SerialOk, TxInv, TxBound;
    hide Exec, EntryOf, AllApart, JustDrawn, Open, Blocked;
    assert TxInv(s.db, s.txs[t]);
    HasOpen(s.txs, t);
    match Exec(s.db, s.txs[t], newId, s.flowSeq + 1) {
      case Go(tx') =>
        OpenIs(s.txs, t, tx');
        GoPayments(s.db, s.txs[t], newId, s.flowSeq + 1);
        PutApart(s.db.payments, Open(s.txs), s.drawn, t, tx'.w.payments, newId);
      case _ =>
        OpenIs(s.txs, t, s.txs[t]);
        EndApart(s.db.payments, Open(s.txs), s.drawn, t, newId);
    }
  }

  lemma BeginApart(rows: PaymentRows, open: map<nat, PaymentRows>, drawn: set<nat>, t: nat)
    requires AllApart(rows, open, drawn)
    ensures AllApart(rows, open[t := map[]], drawn)
  {
  }

  lemma {:induction false} NumbersStayApart(init: Db, run: seq<Action>)
    requires Initial(init) && After(init, run).Some?
    ensures NumbersApart(After(init, run).value)
  {
    if run != [] {
      hide Initial, Inv, NumbersApart, Next, Enabled;
      NumbersStayApart(init, run[..|run|-1]);
      Invariant(init, run[..|run|-1]);
      NumbersStep(After(init, run[..|run|-1]).value, run[|run|-1]);
    }
  }

  /** No two payments share a payment number, so the unique key on it never rejects one. */
  lemma PaymentNumbersUnique(init: Db, run: seq<Action>, s: State, t: TradeNo, u: TradeNo)
    requires Initial(init) && After(init, run) == Some(s) && t in s.db.payments && u in s.db.payments && t != u
    ensures s.db.payments[t].paymentNo != s.db.payments[u].paymentNo
  {
    hide After, Initial;
    NumbersStayApart(init, run);
  }
}
