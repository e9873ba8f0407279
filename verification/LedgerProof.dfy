/** The interleaved ledger refines the atomic one. */
module LedgerProof {
  import opened Prelude
  import opened Tables
  import opened LedgerSpec
  import opened Ledger

  // ---- What a running createOrder knows ----

  function StartedIdem(req: CreateOrderReq): Idem { Idem(req.userId, req.requestHash, 0, None) }

  /** Exactly what a createOrder transaction has written when it is about to execute pc. */
  function CreateWrites(db: Db, req: CreateOrderReq, pc: Pc): Writes
    requires pc.CInsert? || pc.CMark? || pc.CCommit? ==> req.productId in db.products
  {
    match pc
    case CProduct => NoWrites.(idem := map[req.requestId := StartedIdem(req)])
    case CDeduct(_) => NoWrites.(idem := map[req.requestId := StartedIdem(req)])
    case CInsert(_) =>
      NoWrites.(idem := map[req.requestId := StartedIdem(req)],
                products := map[req.productId := Taken(db.products[req.productId], req)])
    case CMark(no, o) =>
      NoWrites.(idem := map[req.requestId := StartedIdem(req)],
                products := map[req.productId := Taken(db.products[req.productId], req)],
                orders := map[no := o])
    case CCommit(no, o) =>
      NoWrites.(idem := map[req.requestId := StartedIdem(req).(status := 1, response := Some(Response(no, o)))],
                products := map[req.productId := Taken(db.products[req.productId], req)],
                orders := map[no := o])
    case _ => NoWrites
  }

  function Taken(p: Product, req: CreateOrderReq): Product { p.(stock := p.stock - req.quantity) }

  predicate OnSaleAt(db: Db, id: nat, price: int) {
    id in db.products && db.products[id].status == 1 && db.products[id].priceFen == price
  }

  predicate CreateKnows(db: Db, req: CreateOrderReq, pc: Pc) {
    QuantityOk(req) &&
    match pc
    case CAcquire => true
    case CLookup => req.requestId in db.idem
    case CProduct => req.requestId !in db.idem
    case CDeduct(price) => req.requestId !in db.idem && OnSaleAt(db, req.productId, price)
    case CInsert(price) =>
      && req.requestId !in db.idem && OnSaleAt(db, req.productId, price)
      && db.products[req.productId].stock >= req.quantity
    case CMark(no, o) => CreateReady(db, req, no, o)
    case CCommit(no, o) => CreateReady(db, req, no, o)
    case _ => false
  }

  predicate CreateReady(db: Db, req: CreateOrderReq, no: nat, o: Order) {
    && req.requestId !in db.idem && OnSaleAt(db, req.productId, o.unitPriceFen)
    && db.products[req.productId].stock >= req.quantity
    && o == NewOrder(req, o.unitPriceFen) && o.totalAmountFen >= 0 && no !in db.orders
  }

  predicate CreateInv(db: Db, tx: Tx, req: CreateOrderReq) {
    && CreateKnows(db, req, tx.pc) && tx.w == CreateWrites(db, req, tx.pc)
    && (tx.pc.CAcquire? || tx.pc.CLookup? || tx.pc.CProduct? ==> tx.snap.None?)
  }

  // ---- What a running handleCallback knows ----

  predicate SameRow(a: Order, b: Order) { a == b.(status := a.status) }

  predicate ReadOk(db: Db, req: CallbackReq, o: Order) {
    req.orderNo in db.orders && SameRow(o, db.orders[req.orderNo]) && req.amountFen == Some(o.totalAmountFen)
  }

  predicate Pending(db: Db, req: CallbackReq, o: Order) {
    ReadOk(db, req, o) && req.channelTradeNo !in db.payments && db.orders[req.orderNo].status == PendingPayment
  }

  predicate Funded(db: Db, req: CallbackReq, o: Order, acct: AccountNo) {
    && Pending(db, req, o) && o.userId in db.accountOf && db.accountOf[o.userId] == acct && acct in db.accounts
  }

  predicate Covered(db: Db, req: CallbackReq, o: Order, acct: AccountNo) {
    Funded(db, req, o, acct) && db.accounts[acct].status == 0 && db.accounts[acct].balanceFen >= o.totalAmountFen
  }

  predicate Booked(db: Db, req: CallbackReq, o: Order, acct: AccountNo, flowId: nat) {
    && Covered(db, req, o, acct) && o.totalAmountFen > 0 && !HasFlowFor(db.flows, req.requestId)
    && NewestFlow(db.flows, acct, flowId)
  }

  predicate PayKnows(db: Db, req: CallbackReq, pc: Pc) {
    CallbackOk(req) &&
    match pc
    case PRead => true
    case PInsert(o) => ReadOk(db, req, o)
    case PLookup(o) => ReadOk(db, req, o) && req.channelTradeNo in db.payments
    case PMark(o, _) => ReadOk(db, req, o) && req.channelTradeNo !in db.payments
    case PReread(o, _) =>
      ReadOk(db, req, o) && req.channelTradeNo !in db.payments && db.orders[req.orderNo].status != PendingPayment
    case PAccount(o, _) => Pending(db, req, o)
    case PDeduct(o, _, acct) => Funded(db, req, o, acct)
    case PAfter(o, _, acct) => Covered(db, req, o, acct)
    case PFlow(o, _, acct, after) =>
      Covered(db, req, o, acct) && after == db.accounts[acct].balanceFen - o.totalAmountFen
    case PMessage(o, _, acct, id) => Booked(db, req, o, acct, id)
    case PCommit(o, acct, n) => Booked(db, req, o, acct, n.flowId) && n.messageId !in db.messages
    case _ => false
  }

  function W1(req: CallbackReq, o: Order, pay: nat): Writes {
    NoWrites.(payments :=
      map[req.channelTradeNo := Payment(pay, req.orderNo, o.totalAmountFen, BeijingTime(req.timestamp))])
  }

  function W2(db: Db, req: CallbackReq, o: Order, pay: nat): Writes
    requires req.orderNo in db.orders
  {
    W1(req, o, pay).(orders := map[req.orderNo := db.orders[req.orderNo].(status := Paid)])
  }

  function W3(db: Db, req: CallbackReq, o: Order, pay: nat, acct: AccountNo): Writes
    requires req.orderNo in db.orders && acct in db.accounts
  {
    W2(db, req, o, pay).(accounts :=
      map[acct := db.accounts[acct].(balanceFen := db.accounts[acct].balanceFen - o.totalAmountFen)])
  }

  function W4(db: Db, req: CallbackReq, o: Order, pay: nat, acct: AccountNo, flowId: nat): Writes
    requires req.orderNo in db.orders && acct in db.accounts
  {
    var b := db.accounts[acct].balanceFen;
    W3(db, req, o, pay, acct).(flows :=
      [Flow(flowId, acct, o.totalAmountFen, b, b - o.totalAmountFen, req.orderNo, req.requestId)])
  }

  /** Exactly what a handleCallback transaction has written when it is about to execute pc. */
  function PayWrites(db: Db, req: CallbackReq, pc: Pc): Writes
    requires PayKnows(db, req, pc)
  {
    match pc
    case PMark(o, pay) => W1(req, o, pay)
    case PReread(o, pay) => W1(req, o, pay)
    case PAccount(o, pay) => W2(db, req, o, pay)
    case PDeduct(o, pay, _) => W2(db, req, o, pay)
    case PAfter(o, pay, acct) => W3(db, req, o, pay, acct)
    case PFlow(o, pay, acct, _) => W3(db, req, o, pay, acct)
    case PMessage(o, pay, acct, id) => W4(db, req, o, pay, acct, id)
    case PCommit(o, acct, n) =>
      W4(db, req, o, n.paymentNo, acct, n.flowId).(messages :=
        map[n.messageId := Message(req.orderNo, o.totalAmountFen, o.userId)])
    case _ => NoWrites
  }

  predicate PayInv(db: Db, tx: Tx, req: CallbackReq) {
    && PayKnows(db, req, tx.pc) && tx.w == PayWrites(db, req, tx.pc)
    && (tx.pc.PRead? <==> tx.snap.None?)
    && (tx.snap.Some? ==> ReadFrom(tx.snap.value, req.orderNo, tx.pc.o))
  }

  predicate ReadFrom(snap: Db, no: nat, o: Order) { no in snap.orders && snap.orders[no] == o }

  predicate TxInv(db: Db, tx: Tx) {
    && (match tx.call case Create(req) => CreateInv(db, tx, req) case Pay(req) => PayInv(db, tx, req))
    && (tx.snap.Some? ==> Evolves(tx.snap.value, db))
  }

  /** All numbers in use, committed or not, have been drawn. */
  predicate TxBound(tx: Tx, drawn: set<nat>, flowSeq: nat) {
    && (forall i :: 0 <= i < |tx.w.flows| ==> tx.w.flows[i].id <= flowSeq)
    && (forall no :: no in tx.w.orders ==> no in drawn)
    && (forall m :: m in tx.w.messages ==> m in drawn)
  }

  predicate DbBound(db: Db, drawn: set<nat>, flowSeq: nat) {
    && (forall no :: no in db.orders ==> no in drawn)
    && (forall m :: m in db.messages ==> m in drawn)
    && (forall i :: 0 <= i < |db.flows| ==> db.flows[i].id <= flowSeq)
  }

  // ---- One statement keeps what its transaction knows ----

  lemma StepAcquire(db: Db, tx: Tx, req: CreateOrderReq, newId: nat)
    requires CreateInv(db, tx, req) && tx.pc.CAcquire?
    ensures var e := ExecCreate(db, tx, req, newId); e.Go? && CreateInv(db, e.tx, req) && e.tx.snap == tx.snap
  {
  }

  lemma StepProduct(db: Db, tx: Tx, req: CreateOrderReq, newId: nat)
    requires CreateInv(db, tx, req) && tx.pc.CProduct?
    ensures var e := ExecCreate(db, tx, req, newId); e.Go? ==> CreateInv(db, e.tx, req) && e.tx.snap == Some(db)
  {
  }

  lemma StepDeductStock(db: Db, tx: Tx, req: CreateOrderReq, newId: nat)
    requires CreateInv(db, tx, req) && tx.pc.CDeduct?
    ensures var e := ExecCreate(db, tx, req, newId); e.Go? ==> CreateInv(db, e.tx, req) && e.tx.snap == tx.snap
  {
  }

  lemma StepInsertOrder(db: Db, tx: Tx, req: CreateOrderReq, newId: nat)
    requires CreateInv(db, tx, req) && tx.pc.CInsert?
    ensures var e := ExecCreate(db, tx, req, newId); e.Go? ==> CreateInv(db, e.tx, req) && e.tx.snap == tx.snap
  {
  }

  lemma StepMarkSuccess(db: Db, tx: Tx, req: CreateOrderReq, newId: nat)
    requires CreateInv(db, tx, req) && tx.pc.CMark?
    ensures var e := ExecCreate(db, tx, req, newId); e.Go? ==> CreateInv(db, e.tx, req) && e.tx.snap == tx.snap
  {
    var e := ExecCreate(db, tx, req, newId);
    assert e.tx.w.idem == CreateWrites(db, req, e.tx.pc).idem;
  }
  
  lemma StepRead(db: Db, tx: Tx, req: CallbackReq, newId: nat, flowId: nat)
    requires PayInv(db, tx, req) && tx.pc.PRead?
    ensures var e := ExecPay(db, tx, req, newId, flowId); e.Go? ==> PayInv(db, e.tx, req) && e.tx.snap == Some(db)
  {
  }

  lemma StepInsertPayment(db: Db, tx: Tx, req: CallbackReq, newId: nat, flowId: nat)
    requires PayInv(db, tx, req) && tx.pc.PInsert?
    ensures var e := ExecPay(db, tx, req, newId, flowId); e.Go? ==> PayInv(db, e.tx, req) && e.tx.snap == tx.snap
  {
  }

  lemma StepMarkPaid(db: Db, tx: Tx, req: CallbackReq, newId: nat, flowId: nat)
    requires PayInv(db, tx, req) && tx.pc.PMark?
    ensures var e := ExecPay(db, tx, req, newId, flowId); e.Go? ==> PayInv(db, e.tx, req) && e.tx.snap == tx.snap
  {
  }

  lemma StepAccount(db: Db, tx: Tx, req: CallbackReq, newId: nat, flowId: nat)
    requires PayInv(db, tx, req) && tx.pc.PAccount? && Evolves(View(db, tx), db)
    ensures var e := ExecPay(db, tx, req, newId, flowId); e.Go? ==> PayInv(db, e.tx, req) && e.tx.snap == tx.snap
  {
  }

  lemma StepDeduct(db: Db, tx: Tx, req: CallbackReq, newId: nat, flowId: nat)
    requires PayInv(db, tx, req) && tx.pc.PDeduct?
    ensures var e := ExecPay(db, tx, req, newId, flowId); e.Go? ==> PayInv(db, e.tx, req) && e.tx.snap == tx.snap
  {
  }

  lemma StepAfter(db: Db, tx: Tx, req: CallbackReq, newId: nat, flowId: nat)
    requires PayInv(db, tx, req) && tx.pc.PAfter?
    ensures var e := ExecPay(db, tx, req, newId, flowId); e.Go? ==> PayInv(db, e.tx, req) && e.tx.snap == tx.snap
  {
  }

  lemma StepFlow(db: Db, tx: Tx, req: CallbackReq, newId: nat, flowId: nat)
    requires PayInv(db, tx, req) && tx.pc.PFlow?
    requires forall i :: 0 <= i < |db.flows| ==> db.flows[i].id < flowId
    ensures var e := ExecPay(db, tx, req, newId, flowId); e.Go? ==> PayInv(db, e.tx, req) && e.tx.snap == tx.snap
  {
  }

  lemma StepMessage(db: Db, tx: Tx, req: CallbackReq, newId: nat, flowId: nat)
    requires PayInv(db, tx, req) && tx.pc.PMessage?
    ensures var e := ExecPay(db, tx, req, newId, flowId); e.Go? ==> PayInv(db, e.tx, req) && e.tx.snap == tx.snap
  {
  }

  lemma CreateStep(db: Db, tx: Tx, req: CreateOrderReq, newId: nat)
    requires CreateInv(db, tx, req) && ExecCreate(db, tx, req, newId).Go?
    ensures var e := ExecCreate(db, tx, req, newId);
            CreateInv(db, e.tx, req) && (e.tx.snap == tx.snap || e.tx.snap == Some(db)) && e.tx.call == tx.call
  {
    match tx.pc {
      case CAcquire => StepAcquire(db, tx, req, newId);
      case CProduct => StepProduct(db, tx, req, newId);
      case CDeduct(_) => StepDeductStock(db, tx, req, newId);
      case CInsert(_) => StepInsertOrder(db, tx, req, newId);
      case CMark(_, _) => StepMarkSuccess(db, tx, req, newId);
      case _ =>
    }
  }

  lemma PayStep(db: Db, tx: Tx, req: CallbackReq, newId: nat, flowId: nat)
    requires PayInv(db, tx, req) && Evolves(View(db, tx), db)
    requires forall i :: 0 <= i < |db.flows| ==> db.flows[i].id < flowId
    requires ExecPay(db, tx, req, newId, flowId).Go?
    ensures var e := ExecPay(db, tx, req, newId, flowId);
            PayInv(db, e.tx, req) && (e.tx.snap == tx.snap || e.tx.snap == Some(db)) && e.tx.call == tx.call
  {
    if tx.pc.PRead? { StepRead(db, tx, req, newId, flowId); }
    else if tx.pc.PInsert? { StepInsertPayment(db, tx, req, newId, flowId); }
    else if tx.pc.PMark? { StepMarkPaid(db, tx, req, newId, flowId); }
    else if tx.pc.PAccount? { StepAccount(db, tx, req, newId, flowId); }
    else { PayStepLate(db, tx, req, newId, flowId); }
  }

  lemma PayStepLate(db: Db, tx: Tx, req: CallbackReq, newId: nat, flowId: nat)
    requires PayInv(db, tx, req) && ExecPay(db, tx, req, newId, flowId).Go?
    requires !tx.pc.PRead? && !tx.pc.PInsert? && !tx.pc.PMark? && !tx.pc.PAccount?
    requires forall i :: 0 <= i < |db.flows| ==> db.flows[i].id < flowId
    ensures var e := ExecPay(db, tx, req, newId, flowId);
            PayInv(db, e.tx, req) && e.tx.snap == tx.snap && e.tx.call == tx.call
  {
    if tx.pc.PDeduct? { StepDeduct(db, tx, req, newId, flowId); }
    else if tx.pc.PAfter? { StepAfter(db, tx, req, newId, flowId); }
    else if tx.pc.PFlow? { StepFlow(db, tx, req, newId, flowId); }
    else { StepMessage(db, tx, req, newId, flowId); }
  }

  // ---- Locks: a statement takes only the lock it waited for, or one on a brand-new row ----

  lemma CreateLocks(db: Db, tx: Tx, req: CreateOrderReq, newId: nat, l: Lock)
    requires tx.call == Create(req) && CreateInv(db, tx, req) && ExecCreate(db, tx, req, newId).Go?
    requires Holds(ExecCreate(db, tx, req, newId).tx.w, l)
    ensures Holds(tx.w, l) || Wanted(tx) == Some(l) || l == OrderRow(newId)
  {
    CreateStep(db, tx, req, newId);
  }

  lemma PayLocks(db: Db, tx: Tx, req: CallbackReq, newId: nat, flowId: nat, l: Lock)
    requires tx.call == Pay(req) && ExecPay(db, tx, req, newId, flowId).Go?
    requires Holds(ExecPay(db, tx, req, newId, flowId).tx.w, l)
    ensures Holds(tx.w, l) || Wanted(tx) == Some(l) || l == MessageKey(newId)
  {
    var w := ExecPay(db, tx, req, newId, flowId).tx.w;
    match tx.pc {
      case PInsert(_) => assert w.(payments := tx.w.payments) == tx.w;
      case PMark(_, _) => assert w.(orders := tx.w.orders) == tx.w;
      case PDeduct(_, _, _) => assert w.(accounts := tx.w.accounts) == tx.w;
      case PFlow(_, _, _, _) => assert w.(flows := tx.w.flows) == tx.w;
      case PMessage(_, _, _, _) => assert w.(messages := tx.w.messages) == tx.w;
      case _ =>
    }
  }

  // ---- What a transaction knows survives the commits of others ----

  predicate SameAt(a: Db, b: Db, l: Lock) {
    match l
    case ProductRow(id) =>
      (id in a.products <==> id in b.products) && (id in a.products ==> a.products[id] == b.products[id])
    case AccountRow(no) =>
      && (no in a.accounts <==> no in b.accounts) && (no in a.accounts ==> a.accounts[no] == b.accounts[no])
      && (forall i :: |a.flows| <= i < |b.flows| ==> b.flows[i].accountNo != no)
    case OrderRow(no) => (no in a.orders <==> no in b.orders) && (no in a.orders ==> a.orders[no] == b.orders[no])
    case TradeKey(t) => t in a.payments <==> t in b.payments
    case IdemKey(rid) => rid in a.idem <==> rid in b.idem
    case FlowKey(rid) => HasFlowFor(a.flows, rid) <==> HasFlowFor(b.flows, rid)
    case MessageKey(m) => m in a.messages <==> m in b.messages
  }

  lemma MergeTouches(db: Db, w: Writes, l: Lock)
    requires !Holds(w, l)
    requires forall i :: 0 <= i < |w.flows| ==> w.flows[i].accountNo in w.accounts
    ensures SameAt(db, Merge(db, w), l)
  {
    if l.FlowKey? { HasFlowConcat(db.flows, w.flows, l.frid); }
  }

  lemma HasFlowConcat(a: seq<Flow>, b: seq<Flow>, rid: RequestId)
    ensures HasFlowFor(a + b, rid) <==> HasFlowFor(a, rid) || HasFlowFor(b, rid)
  {
    var c := a + b;
    if HasFlowFor(a, rid) {
      var i :| 0 <= i < |a| && a[i].requestId == rid;
      assert c[i].requestId == rid;
    }
    if HasFlowFor(b, rid) {
      var i :| 0 <= i < |b| && b[i].requestId == rid;
      assert c[|a| + i].requestId == rid;
    }
  }

  lemma CreateStable(a: Db, b: Db, tx: Tx, req: CreateOrderReq)
    requires CreateInv(a, tx, req) && Evolves(a, b)
    requires forall l :: Holds(tx.w, l) ==> SameAt(a, b, l)
    ensures CreateInv(b, tx, req)
  {
    assert Holds(tx.w, IdemKey(req.requestId)) <==> req.requestId in tx.w.idem;
    assert Holds(tx.w, ProductRow(req.productId)) <==> req.productId in tx.w.products;
    if tx.pc.CMark? || tx.pc.CCommit? {
      assert Holds(tx.w, OrderRow(tx.pc.no));
    }
  }

  lemma PayStableEarly(a: Db, b: Db, tx: Tx, req: CallbackReq)
    requires PayInv(a, tx, req) && Evolves(a, b)
    requires forall l :: Holds(tx.w, l) ==> SameAt(a, b, l)
    requires tx.pc.PRead? || tx.pc.PInsert? || tx.pc.PLookup? || tx.pc.PMark? || tx.pc.PReread?
    ensures PayInv(b, tx, req)
  {
    assert Holds(tx.w, TradeKey(req.channelTradeNo)) <==> req.channelTradeNo in tx.w.payments;
  }

  lemma PayStableLate(a: Db, b: Db, tx: Tx, req: CallbackReq)
    requires PayInv(a, tx, req) && Evolves(a, b)
    requires forall l :: Holds(tx.w, l) ==> SameAt(a, b, l)
    requires !(tx.pc.PRead? || tx.pc.PInsert? || tx.pc.PLookup? || tx.pc.PMark? || tx.pc.PReread?)
    requires !(tx.pc.PAccount? || tx.pc.PDeduct?)
    ensures PayInv(b, tx, req)
  {
    assert Holds(tx.w, TradeKey(req.channelTradeNo));
    assert Holds(tx.w, OrderRow(req.orderNo));
    assert Holds(tx.w, AccountRow(tx.pc.acct));
    if tx.pc.PMessage? || tx.pc.PCommit? {
      BookedStable(a, b, tx, req);
    }
  }

  lemma PayStableMiddle(a: Db, b: Db, tx: Tx, req: CallbackReq)
    requires PayInv(a, tx, req) && Evolves(a, b) && (tx.pc.PAccount? || tx.pc.PDeduct?)
    requires forall l :: Holds(tx.w, l) ==> SameAt(a, b, l)
    ensures PayInv(b, tx, req)
  {
    assert Holds(tx.w, TradeKey(req.channelTradeNo));
    assert Holds(tx.w, OrderRow(req.orderNo));
  }

  lemma BookedStable(a: Db, b: Db, tx: Tx, req: CallbackReq)
    requires PayInv(a, tx, req) && Evolves(a, b) && (tx.pc.PMessage? || tx.pc.PCommit?)
    requires forall l :: Holds(tx.w, l) ==> SameAt(a, b, l)
    requires SameAt(a, b, AccountRow(tx.pc.acct))
    ensures HasFlowFor(b.flows, req.requestId) <==> HasFlowFor(a.flows, req.requestId)
    ensures NewestFlow(b.flows, tx.pc.acct, tx.w.flows[0].id)
    ensures tx.pc.PCommit? ==> tx.pc.n.messageId !in b.messages
  {
    assert tx.w.flows[0].requestId == req.requestId;
    assert Holds(tx.w, FlowKey(req.requestId));
    if tx.pc.PCommit? { assert Holds(tx.w, MessageKey(tx.pc.n.messageId)); }
  }

  lemma TxStable(a: Db, b: Db, tx: Tx)
    requires TxInv(a, tx) && Evolves(a, b)
    requires forall l :: Holds(tx.w, l) ==> SameAt(a, b, l)
    ensures TxInv(b, tx)
  {
    if tx.snap.Some? { EvolvesTransitive(tx.snap.value, a, b); }
    match tx.call {
      case Create(req) => CreateStable(a, b, tx, req);
      case Pay(req) =>
        if tx.pc.PRead? || tx.pc.PInsert? || tx.pc.PLookup? || tx.pc.PMark? || tx.pc.PReread? {
          PayStableEarly(a, b, tx, req);
        } else if tx.pc.PAccount? || tx.pc.PDeduct? {
          PayStableMiddle(a, b, tx, req);
        } else {
          PayStableLate(a, b, tx, req);
        }
    }
  }

  // ---- A commit is one atomic call on the tables as they are at that moment ----

  lemma CreateCommits(db: Db, tx: Tx, req: CreateOrderReq)
    requires CreateInv(db, tx, req) && tx.pc.CCommit? && IdemMatchesOrders(db.idem, db.orders)
    ensures CreateAtomic(db, req, tx.pc.no) == (Merge(db, tx.w), Created(tx.pc.no, tx.pc.o))
  {
    assert CreateVerdict(db, req, tx.pc.no) == Created(tx.pc.no, tx.pc.o);
    CreateMerge(db, tx.w, req, tx.pc.no, tx.pc.o);
  }

  lemma CreateMerge(db: Db, w: Writes, req: CreateOrderReq, no: nat, o: Order)
    requires CreateReady(db, req, no, o) && w == CreateWrites(db, req, CCommit(no, o))
    ensures Merge(db, w) == AfterCreate(db, req, no)
  {
    MergeOne(db.products, req.productId, w.products[req.productId]);
    MergeOne(db.orders, no, o);
    MergeOne(db.idem, req.requestId, w.idem[req.requestId]);
    MergeNone(db.accounts);
    MergeNone(db.payments);
    MergeNone(db.messages);
  }

  lemma MergeOne<K, V>(m: map<K, V>, k: K, v: V)
    ensures m + map[k := v] == m[k := v]
  {
  }

  lemma MergeNone<K, V>(m: map<K, V>)
    ensures m + map[] == m
  {
  }

  lemma PayCommits(db: Db, tx: Tx, req: CallbackReq)
    requires PayInv(db, tx, req) && tx.pc.PCommit?
    ensures PayAtomic(db, req, tx.pc.n) == (Merge(db, tx.w), PaySuccess)
    ensures NewestFlow(db.flows, PayerOf(db, req.orderNo), tx.pc.n.flowId)
    ensures |tx.w.flows| == 1 && tx.w.flows[0].accountNo in tx.w.accounts
  {
    assert PayVerdict(db, req, tx.pc.n) == PaySuccess;
    PayMerge(db, tx.w, req, tx.pc.o, tx.pc.acct, tx.pc.n);
  }

  lemma PayMerge(db: Db, w: Writes, req: CallbackReq, o: Order, acct: AccountNo, n: Numbers)
    requires Covered(db, req, o, acct)
    requires w == W4(db, req, o, n.paymentNo, acct, n.flowId).(messages :=
                    map[n.messageId := Message(req.orderNo, o.totalAmountFen, o.userId)])
    ensures Merge(db, w) == AfterPay(db, req, n)
  {
    MergeOne(db.payments, req.channelTradeNo, w.payments[req.channelTradeNo]);
    MergeOne(db.orders, req.orderNo, w.orders[req.orderNo]);
    MergeOne(db.accounts, acct, w.accounts[acct]);
    MergeOne(db.messages, n.messageId, w.messages[n.messageId]);
    MergeNone(db.products);
    MergeNone(db.idem);
  }

  // ---- A transaction that ends without committing ----

  /** createOrder is linearizable: its answer is the atomic call's answer at the moment it ends. */
  lemma CreateEnds(db: Db, tx: Tx, req: CreateOrderReq, newId: nat)
    requires CreateInv(db, tx, req) && IdemMatchesOrders(db.idem, db.orders) && newId !in db.orders
    requires ExecCreate(db, tx, req, newId).End?
    ensures CreateAtomic(db, req, newId) == (db, ExecCreate(db, tx, req, newId).outcome)
    ensures !ExecCreate(db, tx, req, newId).outcome.Created?
  {
  }

  /** What this callback ran into was committed after the callback's first read. */
  predicate Overtaken(tx: Tx, req: CallbackReq) {
    tx.snap.Some? &&
    match tx.pc
    case PLookup(_) => req.channelTradeNo !in tx.snap.value.payments
    case PReread(_, _) =>
      req.orderNo in tx.snap.value.orders && tx.snap.value.orders[req.orderNo].status == PendingPayment
    case _ => false
  }

  /** It was overtaken by a payment of its own order: under its own trade number, or under another
      one before it could mark the order. */
  predicate Lost(db: Db, tx: Tx, req: CallbackReq) {
    Overtaken(tx, req)
    && (tx.pc.PReread?
        || (req.channelTradeNo in db.payments && db.payments[req.channelTradeNo].orderNo == req.orderNo))
  }

  /** handleCallback answers as the atomic call would at the moment it ends, except exactly when it
      lost: then it reports a conflict where the atomic call reports a replay. */
  lemma PayEnds(db: Db, tx: Tx, req: CallbackReq, newId: nat, flowId: nat)
    requires PayInv(db, tx, req) && Evolves(View(db, tx), db) && newId !in db.messages && OrdersOk(db.orders)
    requires ExecPay(db, tx, req, newId, flowId).End?
    ensures var r := ExecPay(db, tx, req, newId, flowId).outcome;
            var v := PayVerdict(db, req, Numbers(newId, flowId, newId));
            && (r == v <==> !Lost(db, tx, req)) && !v.PaySuccess?
            && (Lost(db, tx, req) ==>
                  v == PayReplay && r == Fail(if tx.pc.PLookup? then ChannelTradeConflict else OrderStatusInvalid))
  {
    if tx.pc.PLookup? { LookupEnds(db, tx, req, newId, flowId); }
    else if tx.pc.PReread? { RereadEnds(db, tx, req, newId, flowId); }
    else { PlainEnds(db, tx, req, newId, flowId); }
  }

  lemma LookupEnds(db: Db, tx: Tx, req: CallbackReq, newId: nat, flowId: nat)
    requires PayInv(db, tx, req) && Evolves(View(db, tx), db) && tx.pc.PLookup?
    ensures var r := ExecPay(db, tx, req, newId, flowId);
            r == End(if Overtaken(tx, req) then Fail(ChannelTradeConflict)
                     else PayVerdict(db, req, Numbers(newId, flowId, newId)))
    ensures !PayVerdict(db, req, Numbers(newId, flowId, newId)).PaySuccess?
  {
  }

  lemma RereadEnds(db: Db, tx: Tx, req: CallbackReq, newId: nat, flowId: nat)
    requires PayInv(db, tx, req) && Evolves(View(db, tx), db) && tx.pc.PReread? && OrdersOk(db.orders)
    ensures var r := ExecPay(db, tx, req, newId, flowId);
            r == End(if Overtaken(tx, req) then Fail(OrderStatusInvalid)
                     else PayVerdict(db, req, Numbers(newId, flowId, newId)))
    ensures PayVerdict(db, req, Numbers(newId, flowId, newId)) == PayReplay
  {
  }

  lemma PlainEnds(db: Db, tx: Tx, req: CallbackReq, newId: nat, flowId: nat)
    requires PayInv(db, tx, req) && Evolves(View(db, tx), db) && newId !in db.messages
    requires !tx.pc.PLookup? && !tx.pc.PReread? && ExecPay(db, tx, req, newId, flowId).End?
    ensures var r := ExecPay(db, tx, req, newId, flowId).outcome;
            r == PayVerdict(db, req, Numbers(newId, flowId, newId)) && r.Fail?
  {
    if tx.pc.PRead? { ReadEnds(db, tx, req, newId, flowId); }
  }

  lemma ReadEnds(db: Db, tx: Tx, req: CallbackReq, newId: nat, flowId: nat)
    requires PayInv(db, tx, req) && tx.pc.PRead? && ExecPay(db, tx, req, newId, flowId).End?
    ensures var r := ExecPay(db, tx, req, newId, flowId).outcome;
            r == PayVerdict(db, req, Numbers(newId, flowId, newId)) && r.Fail?
  {
  }
}
