/** The ledger as it would behave with no concurrency at all: each service call one indivisible
    function of the committed tables, and what every such call keeps. */
module LedgerSpec {
  import opened Prelude
  import opened Tables

  /** What createOrder answers when it runs alone on the committed tables. */
  function CreateVerdict(db: Db, req: CreateOrderReq, no: nat): Outcome {
    if !QuantityOk(req) then Fail(ParamInvalid)
    else if req.requestId in db.idem then
      if db.idem[req.requestId].status == 1 then Cached(db.idem[req.requestId].response)
      else Fail(DuplicateRequest)
    else if req.productId !in db.products || db.products[req.productId].status != 1 then Fail(ProductNotFound)
    else if db.products[req.productId].stock < req.quantity then Fail(StockNotEnough)
    else
      var o := NewOrder(req, db.products[req.productId].priceFen);
      if no in db.orders || HasOrderFor(db.orders, req.requestId) || o.totalAmountFen < 0 then Fail(DbError)
      else Created(no, o)
  }

  function AfterCreate(db: Db, req: CreateOrderReq, no: nat): Db
    requires req.productId in db.products
  {
    var p := db.products[req.productId];
    var o := NewOrder(req, p.priceFen);
    db.(products := db.products[req.productId := p.(stock := p.stock - req.quantity)],
        orders := db.orders[no := o],
        idem := db.idem[req.requestId := Idem(req.userId, req.requestHash, 1, Some(Response(no, o)))])
  }

  function CreateAtomic(db: Db, req: CreateOrderReq, no: nat): (Db, Outcome) {
    var v := CreateVerdict(db, req, no);
    (if v.Created? then AfterCreate(db, req, no) else db, v)
  }

  /** Numbers drawn for one payment: the payment number, the flow's auto-increment id, the message id. */
  datatype Numbers = Numbers(paymentNo: nat, flowId: nat, messageId: nat)

  predicate CallbackOk(req: CallbackReq) { req.channel == MOCK && req.signOk }

  /** What handleCallback answers when it runs alone on the committed tables. */
  function PayVerdict(db: Db, req: CallbackReq, n: Numbers): Outcome {
    if req.channel != MOCK then Fail(UnsupportedChannel)
    else if !req.signOk then Fail(SignVerifyFailed)
    else if req.orderNo !in db.orders then Fail(OrderNotFound)
    else
      var o := db.orders[req.orderNo];
      if req.amountFen != Some(o.totalAmountFen) then Fail(AmountMismatch)
      else if req.channelTradeNo in db.payments then
        if db.payments[req.channelTradeNo].orderNo == req.orderNo then PayReplay else Fail(ChannelTradeConflict)
      else if o.status != PendingPayment then
        if o.status == Paid then PayReplay else Fail(OrderStatusInvalid)
      else if o.userId !in db.accountOf || db.accountOf[o.userId] !in db.accounts then Fail(AccountNotFound)
      else
        var a := db.accounts[db.accountOf[o.userId]];
        if a.status != 0 || a.balanceFen < o.totalAmountFen then Fail(BalanceNotEnough)
        else if o.totalAmountFen <= 0 || HasFlowFor(db.flows, req.requestId) || n.messageId in db.messages then
          Fail(DbError)
        else PaySuccess
  }

  predicate Payable(db: Db, no: nat) {
    no in db.orders && db.orders[no].userId in db.accountOf && PayerOf(db, no) in db.accounts
  }

  function PayerOf(db: Db, no: nat): AccountNo
    requires no in db.orders && db.orders[no].userId in db.accountOf
  {
    db.accountOf[db.orders[no].userId]
  }

  function PaymentFlow(db: Db, req: CallbackReq, id: nat): Flow
    requires Payable(db, req.orderNo)
  {
    var no := PayerOf(db, req.orderNo);
    var amount := db.orders[req.orderNo].totalAmountFen;
    Flow(id, no, amount, db.accounts[no].balanceFen, db.accounts[no].balanceFen - amount,
         req.orderNo, req.requestId)
  }

  function AfterPay(db: Db, req: CallbackReq, n: Numbers): Db
    requires Payable(db, req.orderNo)
  {
    var o := db.orders[req.orderNo];
    var no := PayerOf(db, req.orderNo);
    var a := db.accounts[no];
    db.(payments := db.payments[req.channelTradeNo :=
          Payment(n.paymentNo, req.orderNo, o.totalAmountFen, BeijingTime(req.timestamp))],
        orders := db.orders[req.orderNo := o.(status := Paid)],
        accounts := db.accounts[no := a.(balanceFen := a.balanceFen - o.totalAmountFen)],
        flows := db.flows + [PaymentFlow(db, req, n.flowId)],
        messages := db.messages[n.messageId := Message(req.orderNo, o.totalAmountFen, o.userId)])
  }

  function PayAtomic(db: Db, req: CallbackReq, n: Numbers): (Db, Outcome) {
    var v := PayVerdict(db, req, n);
    (if v.PaySuccess? then AfterPay(db, req, n) else db, v)
  }

  // ---- Reading the ledger back ----

  function QuantitiesOf(orders: map<nat, Order>, id: nat): map<nat, int> {
    map no | no in orders && orders[no].productId == id :: orders[no].quantity
  }

  /** Units of a product taken by committed orders. */
  ghost function Sold(orders: map<nat, Order>, id: nat): int { MapSum(QuantitiesOf(orders, id)) }

  function FlowsOf(flows: seq<Flow>, no: AccountNo): seq<Flow> {
    if flows == [] then []
    else
      var last := flows[|flows|-1];
      FlowsOf(flows[..|flows|-1], no) + (if last.accountNo == no then [last] else [])
  }

  function Spent(flows: seq<Flow>): int {
    if flows == [] then 0 else Spent(flows[..|flows|-1]) + flows[|flows|-1].amountFen
  }

  /** The flows lead from one balance to another without a gap. */
  predicate Chained(flows: seq<Flow>, first: int, last: int) {
    if flows == [] then first == last
    else
      var f := flows[|flows|-1];
      f.afterFen == last && f.beforeFen == f.afterFen + f.amountFen && f.amountFen > 0
      && Chained(flows[..|flows|-1], first, f.beforeFen)
  }

  predicate Ascending(flows: seq<Flow>) {
    forall i, j :: 0 <= i < j < |flows| ==> flows[i].id < flows[j].id
  }

  /** The auto-increment id is above that of every flow already on the account. */
  predicate NewestFlow(flows: seq<Flow>, no: AccountNo, id: nat) {
    forall i :: 0 <= i < |flows| && flows[i].accountNo == no ==> flows[i].id < id
  }

  // ---- What holds of committed tables ----

  predicate Initial(db: Db) {
    && db.orders == map[] && db.payments == map[] && db.flows == [] && db.idem == map[]
    && db.messages == map[]
    && (forall id :: id in db.products ==> db.products[id].stock >= 0)
    && (forall no :: no in db.accounts ==> db.accounts[no].balanceFen >= 0)
  }

  /** Stock is never oversold and never leaks: what left the shelf is exactly what orders took. */
  ghost predicate StockConserved(init: map<nat, Product>, products: map<nat, Product>, orders: map<nat, Order>) {
    && products.Keys == init.Keys
    && forall id :: id in products ==>
      products[id].stock >= 0 && init[id].stock == products[id].stock + Sold(orders, id)
  }

  /** Each account's flows, in insertion order, lead from its opening to its current balance. */
  predicate BalancesChained(init: map<AccountNo, Account>, accounts: map<AccountNo, Account>, flows: seq<Flow>) {
    && accounts.Keys == init.Keys
    && forall no :: no in accounts ==>
      accounts[no].balanceFen >= 0 && AccountChained(flows, no, init[no].balanceFen, accounts[no].balanceFen)
  }

  predicate AccountChained(flows: seq<Flow>, no: AccountNo, first: int, last: int) {
    Ascending(FlowsOf(flows, no)) && Chained(FlowsOf(flows, no), first, last)
  }

  predicate SnapshotOf(r: Response, rid: RequestId, orders: map<nat, Order>) {
    && r.orderNo in orders && r.order.requestId == rid
    && orders[r.orderNo].(status := PendingPayment) == r.order
  }

  /** Idempotency rows and orders match one to one; every committed row is a finished one. */
  predicate IdemMatchesOrders(idem: map<RequestId, Idem>, orders: map<nat, Order>) {
    && (forall rid :: rid in idem ==>
      idem[rid].status == 1 && idem[rid].response.Some? && SnapshotOf(idem[rid].response.value, rid, orders))
    && (forall no :: no in orders ==>
      orders[no].requestId in idem && idem[orders[no].requestId].response.Some?
      && idem[orders[no].requestId].response.value.orderNo == no)
  }

  predicate OrdersOk(orders: map<nat, Order>) {
    forall no :: no in orders ==>
      && orders[no].status in {PendingPayment, Paid}
      && 0 < orders[no].quantity <= MAX_QUANTITY
      && orders[no].totalAmountFen == orders[no].unitPriceFen * orders[no].quantity
  }

  predicate IsPaid(orders: map<nat, Order>, no: nat) { no in orders && orders[no].status == Paid }

  predicate HasPayment(payments: map<TradeNo, Payment>, no: nat) {
    exists t :: t in payments && payments[t].orderNo == no
  }

  predicate HasFlow(flows: seq<Flow>, no: nat) {
    exists i :: 0 <= i < |flows| && flows[i].orderNo == no
  }

  predicate HasMessage(messages: map<nat, Message>, no: nat) {
    exists m :: m in messages && messages[m].orderNo == no
  }

  /** Paid orders and payment rows match one to one, with equal amounts. */
  ghost predicate PaymentsMatch(orders: map<nat, Order>, payments: map<TradeNo, Payment>) {
    && (forall t :: t in payments ==>
      IsPaid(orders, payments[t].orderNo) && payments[t].amountFen == orders[payments[t].orderNo].totalAmountFen)
    && (forall t, u | t in payments && u in payments :: payments[t].orderNo == payments[u].orderNo ==> t == u)
    && (forall no :: IsPaid(orders, no) ==> HasPayment(payments, no))
  }

  /** Paid orders and account flows match one to one, with equal amounts, on the payer's account. */
  ghost predicate FlowsMatch(orders: map<nat, Order>, accountOf: map<nat, AccountNo>, flows: seq<Flow>) {
    && (forall i :: 0 <= i < |flows| ==>
      && IsPaid(orders, flows[i].orderNo)
      && flows[i].amountFen == orders[flows[i].orderNo].totalAmountFen
      && orders[flows[i].orderNo].userId in accountOf
      && flows[i].accountNo == accountOf[orders[flows[i].orderNo].userId])
    && (forall i, j | 0 <= i < |flows| && 0 <= j < |flows| :: flows[i].orderNo == flows[j].orderNo ==> i == j)
    && (forall no :: IsPaid(orders, no) ==> HasFlow(flows, no))
  }

  /** Paid orders and ORDER_PAID messages match one to one, with equal amounts and users. */
  ghost predicate MessagesMatch(orders: map<nat, Order>, messages: map<nat, Message>) {
    && (forall m :: m in messages ==>
      && IsPaid(orders, messages[m].orderNo)
      && messages[m].amountFen == orders[messages[m].orderNo].totalAmountFen
      && messages[m].userId == orders[messages[m].orderNo].userId)
    && (forall m, k | m in messages && k in messages :: messages[m].orderNo == messages[k].orderNo ==> m == k)
    && (forall no :: IsPaid(orders, no) ==> HasMessage(messages, no))
  }

  ghost predicate DbInv(init: Db, db: Db) {
    && StockConserved(init.products, db.products, db.orders)
    && BalancesChained(init.accounts, db.accounts, db.flows)
    && db.accountOf == init.accountOf
    && IdemMatchesOrders(db.idem, db.orders)
    && OrdersOk(db.orders)
    && PaymentsMatch(db.orders, db.payments)
    && FlowsMatch(db.orders, db.accountOf, db.flows)
    && MessagesMatch(db.orders, db.messages)
  }

  predicate ProductsEvolve(a: map<nat, Product>, b: map<nat, Product>) {
    && a.Keys == b.Keys
    && forall id | id in a :: b[id].stock <= a[id].stock && b[id] == a[id].(stock := b[id].stock)
  }

  predicate AccountsEvolve(a: map<AccountNo, Account>, b: map<AccountNo, Account>) {
    && a.Keys == b.Keys
    && forall no | no in a :: b[no].balanceFen <= a[no].balanceFen && b[no] == a[no].(balanceFen := b[no].balanceFen)
  }

  predicate OrdersEvolve(a: map<nat, Order>, b: map<nat, Order>) {
    forall no | no in a ::
      no in b && (b[no] == a[no] || (a[no].status == PendingPayment && b[no] == a[no].(status := Paid)))
  }

  predicate Extends<K, V(==)>(a: map<K, V>, b: map<K, V>) { forall k | k in a :: k in b && b[k] == a[k] }

  /** The tables only move forward: rows are never lost, prices and owners never change, a paid
      order stays paid, stock and balances only fall, flows are only appended. */
  predicate Evolves(a: Db, b: Db) {
    && ProductsEvolve(a.products, b.products) && AccountsEvolve(a.accounts, b.accounts)
    && a.accountOf == b.accountOf && OrdersEvolve(a.orders, b.orders)
    && Extends(a.payments, b.payments) && Extends(a.idem, b.idem) && Extends(a.messages, b.messages)
    && a.flows <= b.flows
  }

  lemma EvolvesTransitive(a: Db, b: Db, c: Db)
    requires Evolves(a, b) && Evolves(b, c)
    ensures Evolves(a, c)
  {
  }

  // ---- Small facts about the read-back functions ----

  lemma SoldInsert(orders: map<nat, Order>, no: nat, o: Order, id: nat)
    requires no !in orders
    ensures Sold(orders[no := o], id) == Sold(orders, id) + (if o.productId == id then o.quantity else 0)
  {
    var q := QuantitiesOf(orders, id);
    if o.productId == id {
      assert QuantitiesOf(orders[no := o], id) == q[no := o.quantity];
      MapSumAdd(q, no, o.quantity);
    } else {
      assert QuantitiesOf(orders[no := o], id) == q;
    }
  }

  lemma SoldPaid(orders: map<nat, Order>, no: nat, id: nat)
    requires no in orders
    ensures Sold(orders[no := orders[no].(status := Paid)], id) == Sold(orders, id)
  {
    assert QuantitiesOf(orders[no := orders[no].(status := Paid)], id) == QuantitiesOf(orders, id);
  }

  lemma FlowsOfAppend(flows: seq<Flow>, f: Flow, no: AccountNo)
    ensures FlowsOf(flows + [f], no) == FlowsOf(flows, no) + (if f.accountNo == no then [f] else [])
  {
    assert (flows + [f])[..|flows|] == flows;
  }

  lemma {:induction false} FlowsOfMembers(flows: seq<Flow>, no: AccountNo, i: nat)
    requires i < |FlowsOf(flows, no)|
    ensures FlowsOf(flows, no)[i] in flows && FlowsOf(flows, no)[i].accountNo == no
  {
    var rest := flows[..|flows|-1];
    if i < |FlowsOf(rest, no)| { FlowsOfMembers(rest, no, i); }
  }

  /** A chain accounts for every fen: opening balance = closing balance + everything spent. */
  lemma {:induction false} ChainConserves(flows: seq<Flow>, first: int, last: int)
    requires Chained(flows, first, last)
    ensures first == last + Spent(flows)
  {
    if flows != [] {
      ChainConserves(flows[..|flows|-1], first, flows[|flows|-1].beforeFen);
    }
  }

  /** A chain link by link, in insertion order. */
  lemma {:induction false} ChainLinks(flows: seq<Flow>, first: int, last: int, i: nat)
    requires Chained(flows, first, last) && i < |flows|
    ensures flows[i].beforeFen == (if i == 0 then first else flows[i-1].afterFen)
    ensures flows[i].beforeFen == flows[i].afterFen + flows[i].amountFen
    ensures flows[|flows|-1].afterFen == last
  {
    var front := flows[..|flows|-1];
    if i < |front| {
      ChainLinks(front, first, flows[|flows|-1].beforeFen, i);
    } else if i > 0 {
      ChainLinks(front, first, flows[|flows|-1].beforeFen, i - 1);
    }
  }

  lemma ChainAppend(flows: seq<Flow>, first: int, last: int, f: Flow)
    requires Chained(flows, first, last)
    requires f.beforeFen == last && f.beforeFen == f.afterFen + f.amountFen && f.amountFen > 0
    ensures Chained(flows + [f], first, f.afterFen)
  {
    assert (flows + [f])[..|flows|] == flows;
  }

  // ---- Every atomic call keeps the ledger's invariant and only moves it forward ----

  lemma CreateEvolves(db: Db, req: CreateOrderReq, no: nat)
    ensures Evolves(db, CreateAtomic(db, req, no).0)
    ensures var d := CreateAtomic(db, req, no).0;
            && d == db.(products := d.products, orders := d.orders, idem := d.idem)
            && (forall id :: id in db.products && id != req.productId ==> d.products[id] == db.products[id])
            && (forall k :: k in d.orders && k != no ==> k in db.orders && d.orders[k] == db.orders[k])
            && (forall k :: k in d.idem && k != req.requestId ==> k in db.idem)
  {
    if CreateVerdict(db, req, no).Created? {
      var d := AfterCreate(db, req, no);
      assert ProductsEvolve(db.products, d.products);
      assert OrdersEvolve(db.orders, d.orders);
    }
  }

  lemma PayEvolves(db: Db, req: CallbackReq, n: Numbers)
    ensures Evolves(db, PayAtomic(db, req, n).0)
    ensures var d := PayAtomic(db, req, n).0;
            && d.products == db.products && d.idem == db.idem && d.orders.Keys == db.orders.Keys
            && (forall k :: k in db.orders && k != req.orderNo ==> d.orders[k] == db.orders[k])
            && (forall k :: k in db.accounts && (Payable(db, req.orderNo) ==> k != PayerOf(db, req.orderNo)) ==>
                  d.accounts[k] == db.accounts[k])
            && (forall k :: k in d.payments && k != req.channelTradeNo ==> k in db.payments)
            && (forall k :: k in d.messages && k != n.messageId ==> k in db.messages)
            && |d.flows| <= |db.flows| + 1
  {
    if PayVerdict(db, req, n).PaySuccess? {
      var d := AfterPay(db, req, n);
      assert AccountsEvolve(db.accounts, d.accounts);
      assert OrdersEvolve(db.orders, d.orders);
    }
  }

  lemma CreateKeepsStock(init: map<nat, Product>, db: Db, req: CreateOrderReq, no: nat)
    requires StockConserved(init, db.products, db.orders)
    requires CreateVerdict(db, req, no).Created?
    ensures var d := AfterCreate(db, req, no); StockConserved(init, d.products, d.orders)
  {
    var d := AfterCreate(db, req, no);
    forall id | id in d.products
      ensures d.products[id].stock >= 0 && init[id].stock == d.products[id].stock + Sold(d.orders, id)
    {
      SoldInsert(db.orders, no, d.orders[no], id);
    }
  }

  lemma IdemInsert(idem: map<RequestId, Idem>, orders: map<nat, Order>, no: nat, o: Order, row: Idem)
    requires IdemMatchesOrders(idem, orders)
    requires o.requestId !in idem && no !in orders && o.status == PendingPayment
    requires row.status == 1 && row.response == Some(Response(no, o))
    ensures IdemMatchesOrders(idem[o.requestId := row], orders[no := o])
  {
  }

  lemma PendingInsert(orders: map<nat, Order>, no: nat, o: Order, payments: map<TradeNo, Payment>,
                      accountOf: map<nat, AccountNo>, flows: seq<Flow>, messages: map<nat, Message>)
    requires no !in orders && o.status == PendingPayment
    requires PaymentsMatch(orders, payments) && FlowsMatch(orders, accountOf, flows) && MessagesMatch(orders, messages)
    ensures PaymentsMatch(orders[no := o], payments)
    ensures FlowsMatch(orders[no := o], accountOf, flows)
    ensures MessagesMatch(orders[no := o], messages)
  {
    assert forall k :: IsPaid(orders[no := o], k) <==> IsPaid(orders, k);
  }

  lemma CreateKeepsInv(init: Db, db: Db, req: CreateOrderReq, no: nat)
    requires DbInv(init, db)
    ensures DbInv(init, CreateAtomic(db, req, no).0)
  {
    hide StockConserved, BalancesChained, IdemMatchesOrders, PaymentsMatch, FlowsMatch, MessagesMatch;
    if CreateVerdict(db, req, no).Created? {
      var d := AfterCreate(db, req, no);
      var o := d.orders[no];
      CreateKeepsStock(init.products, db, req, no);
      IdemInsert(db.idem, db.orders, no, o, d.idem[req.requestId]);
      PendingInsert(db.orders, no, o, db.payments, db.accountOf, db.flows, db.messages);
    }
  }

  lemma OwnChain(flows: seq<Flow>, f: Flow, first: int)
    requires AccountChained(flows, f.accountNo, first, f.beforeFen) && NewestFlow(flows, f.accountNo, f.id)
    requires f.beforeFen == f.afterFen + f.amountFen && f.amountFen > 0
    ensures AccountChained(flows + [f], f.accountNo, first, f.afterFen)
  {
    var own := FlowsOf(flows, f.accountNo);
    FlowsOfAppend(flows, f, f.accountNo);
    ChainAppend(own, first, f.beforeFen, f);
    forall i | 0 <= i < |own| ensures own[i].id < f.id {
      FlowsOfMembers(flows, f.accountNo, i);
    }
  }

  lemma OtherChain(flows: seq<Flow>, f: Flow, no: AccountNo, first: int, last: int)
    requires AccountChained(flows, no, first, last) && no != f.accountNo
    ensures AccountChained(flows + [f], no, first, last)
  {
    FlowsOfAppend(flows, f, no);
    assert FlowsOf(flows + [f], no) == FlowsOf(flows, no);
  }

  lemma ChainInsert(init: map<AccountNo, Account>, accounts: map<AccountNo, Account>, flows: seq<Flow>, f: Flow)
    requires BalancesChained(init, accounts, flows)
    requires f.accountNo in accounts && NewestFlow(flows, f.accountNo, f.id)
    requires f.beforeFen == accounts[f.accountNo].balanceFen == f.afterFen + f.amountFen
    requires f.amountFen > 0 && f.afterFen >= 0
    ensures BalancesChained(
              init, accounts[f.accountNo := accounts[f.accountNo].(balanceFen := f.afterFen)], flows + [f])
  {
    var as' := accounts[f.accountNo := accounts[f.accountNo].(balanceFen := f.afterFen)];
    forall no | no in as'
      ensures as'[no].balanceFen >= 0 && AccountChained(flows + [f], no, init[no].balanceFen, as'[no].balanceFen)
    {
      if no == f.accountNo {
        OwnChain(flows, f, init[no].balanceFen);
      } else {
        OtherChain(flows, f, no, init[no].balanceFen, accounts[no].balanceFen);
      }
    }
  }

  lemma StockPaid(init: map<nat, Product>, products: map<nat, Product>, orders: map<nat, Order>, no: nat)
    requires StockConserved(init, products, orders) && no in orders
    ensures StockConserved(init, products, orders[no := orders[no].(status := Paid)])
  {
    forall id | id in products
      ensures Sold(orders[no := orders[no].(status := Paid)], id) == Sold(orders, id)
    {
      SoldPaid(orders, no, id);
    }
  }

  lemma PaymentInsert(orders: map<nat, Order>, payments: map<TradeNo, Payment>, no: nat, t: TradeNo, p: Payment)
    requires PaymentsMatch(orders, payments) && no in orders && orders[no].status == PendingPayment
    requires t !in payments && p.orderNo == no && p.amountFen == orders[no].totalAmountFen
    ensures PaymentsMatch(orders[no := orders[no].(status := Paid)], payments[t := p])
  {
    var os, ps := orders[no := orders[no].(status := Paid)], payments[t := p];
    forall k | IsPaid(os, k) ensures HasPayment(ps, k) {
      if k == no { assert ps[t].orderNo == k; }
      else {
        assert HasPayment(payments, k);
        var u :| u in payments && payments[u].orderNo == k;
        assert ps[u].orderNo == k;
      }
    }
  }

  lemma FlowInsert(orders: map<nat, Order>, accountOf: map<nat, AccountNo>, flows: seq<Flow>, no: nat, f: Flow)
    requires FlowsMatch(orders, accountOf, flows) && no in orders && orders[no].status == PendingPayment
    requires f.orderNo == no && f.amountFen == orders[no].totalAmountFen
    requires orders[no].userId in accountOf && f.accountNo == accountOf[orders[no].userId]
    ensures FlowsMatch(orders[no := orders[no].(status := Paid)], accountOf, flows + [f])
  {
    var os, fs := orders[no := orders[no].(status := Paid)], flows + [f];
    forall k | IsPaid(os, k) ensures HasFlow(fs, k) {
      if k == no { assert fs[|flows|].orderNo == k; }
      else {
        assert HasFlow(flows, k);
        var i :| 0 <= i < |flows| && flows[i].orderNo == k;
        assert fs[i].orderNo == k;
      }
    }
  }

  lemma MessageInsert(orders: map<nat, Order>, messages: map<nat, Message>, no: nat, id: nat, m: Message)
    requires MessagesMatch(orders, messages) && no in orders && orders[no].status == PendingPayment
    requires id !in messages && m == Message(no, orders[no].totalAmountFen, orders[no].userId)
    ensures MessagesMatch(orders[no := orders[no].(status := Paid)], messages[id := m])
  {
    var os, ms := orders[no := orders[no].(status := Paid)], messages[id := m];
    forall k | IsPaid(os, k) ensures HasMessage(ms, k) {
      if k == no { assert ms[id].orderNo == k; }
      else {
        assert HasMessage(messages, k);
        var j :| j in messages && messages[j].orderNo == k;
        assert ms[j].orderNo == k;
      }
    }
  }

  lemma IdemPaid(idem: map<RequestId, Idem>, orders: map<nat, Order>, no: nat)
    requires IdemMatchesOrders(idem, orders) && no in orders
    ensures IdemMatchesOrders(idem, orders[no := orders[no].(status := Paid)])
  {
  }

  lemma PayKeepsMoney(init: Db, db: Db, req: CallbackReq, n: Numbers)
    requires StockConserved(init.products, db.products, db.orders)
    requires BalancesChained(init.accounts, db.accounts, db.flows)
    requires PayVerdict(db, req, n).PaySuccess? && NewestFlow(db.flows, PayerOf(db, req.orderNo), n.flowId)
    ensures var d := AfterPay(db, req, n);
            StockConserved(init.products, d.products, d.orders) && BalancesChained(init.accounts, d.accounts, d.flows)
  {
    hide StockConserved, AccountChained, NewestFlow;
    StockPaid(init.products, db.products, db.orders, req.orderNo);
    ChainInsert(init.accounts, db.accounts, db.flows, PaymentFlow(db, req, n.flowId));
  }

  lemma PayKeepsMatches(db: Db, req: CallbackReq, n: Numbers)
    requires PaymentsMatch(db.orders, db.payments) && FlowsMatch(db.orders, db.accountOf, db.flows)
    requires MessagesMatch(db.orders, db.messages)
    requires PayVerdict(db, req, n).PaySuccess?
    ensures var d := AfterPay(db, req, n);
            && PaymentsMatch(d.orders, d.payments) && FlowsMatch(d.orders, d.accountOf, d.flows)
            && MessagesMatch(d.orders, d.messages)
  {
    var d := AfterPay(db, req, n);
    var no := req.orderNo;
    PaymentInsert(db.orders, db.payments, no, req.channelTradeNo, d.payments[req.channelTradeNo]);
    FlowInsert(db.orders, db.accountOf, db.flows, no, PaymentFlow(db, req, n.flowId));
    MessageInsert(db.orders, db.messages, no, n.messageId, d.messages[n.messageId]);
  }

  lemma PayKeepsInv(init: Db, db: Db, req: CallbackReq, n: Numbers)
    requires DbInv(init, db)
    requires PayVerdict(db, req, n).PaySuccess? ==> NewestFlow(db.flows, PayerOf(db, req.orderNo), n.flowId)
    ensures DbInv(init, PayAtomic(db, req, n).0)
  {
    if PayVerdict(db, req, n).PaySuccess? {
      PayKeepsMoney(init, db, req, n);
      PayKeepsMatches(db, req, n);
      IdemPaid(db.idem, db.orders, req.orderNo);
      OrdersPaid(db.orders, req.orderNo);
    }
  }

  lemma OrdersPaid(orders: map<nat, Order>, no: nat)
    requires OrdersOk(orders) && no in orders
    ensures OrdersOk(orders[no := orders[no].(status := Paid)])
  {
  }
}
