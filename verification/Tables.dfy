/** The MySQL tables a trade transaction touches, a transaction's private writes, and every DAO
    call as one atomic statement on (committed tables, own writes). Amounts are in fen; order,
    payment and message numbers are the numeric values of snowflake ids. */
module Tables {
  import opened Prelude

  // Identifiers are only ever compared for equality, so each is a plain number here.
  type RequestId = nat
  type AccountNo = nat
  type TradeNo = nat

  datatype Channel = MOCK | ALIPAY | WECHAT | OtherChannel
  datatype OrderStatus = PendingPayment | Paid | Completed | Cancelled | Refunded

  datatype Product = Product(priceFen: int, stock: int, status: int)
  datatype Account = Account(userId: nat, balanceFen: int, status: int)
  datatype Order = Order(requestId: RequestId, userId: nat, productId: nat, quantity: int,
                         unitPriceFen: int, totalAmountFen: int, status: OrderStatus)
  datatype Payment = Payment(paymentNo: nat, orderNo: nat, amountFen: int, callbackTime: int)
  /** `id` is the auto-increment key, drawn when the INSERT runs, not when it commits. */
  datatype Flow = Flow(id: nat, accountNo: AccountNo, amountFen: int, beforeFen: int, afterFen: int,
                       orderNo: nat, requestId: RequestId)
  /** The response snapshot that an idempotent replay returns. */
  datatype Response = Response(orderNo: nat, order: Order)
  datatype Idem = Idem(userId: nat, requestHash: nat, status: int, response: Option<Response>)
  datatype Message = Message(orderNo: nat, amountFen: int, userId: nat)

  /** Committed tables. Payments are keyed by channel trade number (uk_channel_trade; the only
      channel let through is MOCK), accountOf is the uk_user_id index. */
  datatype Db = Db(products: map<nat, Product>, accounts: map<AccountNo, Account>,
                   accountOf: map<nat, AccountNo>, orders: map<nat, Order>,
                   payments: map<TradeNo, Payment>, flows: seq<Flow>,
                   idem: map<RequestId, Idem>, messages: map<nat, Message>)

  /** Rows a running transaction has written: private to it and locked by it until it ends. */
  datatype Writes = Writes(products: map<nat, Product>, accounts: map<AccountNo, Account>,
                           orders: map<nat, Order>, payments: map<TradeNo, Payment>,
                           flows: seq<Flow>, idem: map<RequestId, Idem>, messages: map<nat, Message>)

  const NoWrites: Writes := Writes(map[], map[], map[], map[], [], map[], map[])

  function Merge(db: Db, w: Writes): Db {
    Db(db.products + w.products, db.accounts + w.accounts, db.accountOf, db.orders + w.orders,
       db.payments + w.payments, db.flows + w.flows, db.idem + w.idem, db.messages + w.messages)
  }

  /** Row and unique-key locks; a transaction holds exactly those of its own writes. */
  datatype Lock = ProductRow(id: nat) | AccountRow(no: AccountNo) | OrderRow(orderNo: nat)
                | TradeKey(tradeNo: TradeNo) | IdemKey(rid: RequestId) | FlowKey(frid: RequestId)
                | MessageKey(mid: nat)

  predicate Holds(w: Writes, l: Lock) {
    match l
    case ProductRow(id) => id in w.products
    case AccountRow(no) => no in w.accounts
    case OrderRow(no) => no in w.orders
    case TradeKey(t) => t in w.payments
    case IdemKey(rid) => rid in w.idem
    case FlowKey(rid) => HasFlowFor(w.flows, rid)
    case MessageKey(m) => m in w.messages
  }

  predicate HasFlowFor(flows: seq<Flow>, rid: RequestId) {
    exists i :: 0 <= i < |flows| && flows[i].requestId == rid
  }

  predicate HasOrderFor(orders: map<nat, Order>, rid: RequestId) {
    exists no :: no in orders && orders[no].requestId == rid
  }

  datatype CreateOrderReq = CreateOrderReq(requestId: RequestId, requestHash: nat, userId: nat,
                                           productId: nat, quantity: int)
  /** `amountFen` is what yuanStringToFen returns for the amount field; `signOk` the verdict of the
      signature check; `timestamp` the channel's time in seconds. */
  datatype CallbackReq = CallbackReq(requestId: RequestId, orderNo: nat, channel: Channel,
                                     channelTradeNo: TradeNo, amountFen: Option<int>,
                                     timestamp: int, signOk: bool)

  /** The channel's UTC seconds as Beijing time. */
  function BeijingTime(timestamp: int): int { timestamp + 8 * 3600 }

  datatype Code = ParamInvalid | DuplicateRequest | AccountNotFound | BalanceNotEnough
                | ProductNotFound | StockNotEnough | OrderNotFound | OrderStatusInvalid
                | SignVerifyFailed | AmountMismatch | ChannelTradeConflict | UnsupportedChannel
                | DbError | InternalError

  datatype Outcome = Created(orderNo: nat, order: Order) | Cached(body: Option<Response>)
                   | PaySuccess | PayReplay | Fail(code: Code)

  const MAX_QUANTITY := 999

  predicate QuantityOk(req: CreateOrderReq) { 0 < req.quantity <= MAX_QUANTITY }

  // ---- Statements. "Current" is what UPDATE and INSERT see, "seen" what a plain SELECT sees. ----

  function TryAcquire(db: Db, w: Writes, req: CreateOrderReq): (nat, Writes) {
    if req.requestId in db.idem || req.requestId in w.idem then (0, w)
    else (1, w.(idem := w.idem[req.requestId := Idem(req.userId, req.requestHash, 0, None)]))
  }

  function DeductStock(db: Db, w: Writes, id: nat, quantity: int): (nat, Writes) {
    var cur := db.products + w.products;
    if id in cur && cur[id].stock >= quantity && cur[id].status == 1 then
      (1, w.(products := w.products[id := cur[id].(stock := cur[id].stock - quantity)]))
    else (0, w)
  }

  /** None when a unique key or the CHECK on the amount rejects the row. */
  function InsertOrder(db: Db, w: Writes, no: nat, o: Order): Option<Writes> {
    if no in db.orders || no in w.orders || HasOrderFor(db.orders, o.requestId)
       || o.quantity <= 0 || o.totalAmountFen < 0 then None
    else Some(w.(orders := w.orders[no := o]))
  }

  function MarkSuccess(db: Db, w: Writes, rid: RequestId, body: Response): Writes {
    var cur := db.idem + w.idem;
    if rid in cur && cur[rid].status == 0 then
      w.(idem := w.idem[rid := cur[rid].(status := 1, response := Some(body))])
    else w
  }

  function InsertPayment(db: Db, w: Writes, tradeNo: TradeNo, p: Payment): (nat, Writes) {
    if tradeNo in db.payments || tradeNo in w.payments then (0, w)
    else (1, w.(payments := w.payments[tradeNo := p]))
  }

  function MarkPaid(db: Db, w: Writes, no: nat): (nat, Writes) {
    var cur := db.orders + w.orders;
    if no in cur && cur[no].status == PendingPayment then
      (1, w.(orders := w.orders[no := cur[no].(status := Paid)]))
    else (0, w)
  }

  function Deduct(db: Db, w: Writes, no: AccountNo, amountFen: int): (nat, Writes) {
    var cur := db.accounts + w.accounts;
    if no in cur && cur[no].status == 0 && cur[no].balanceFen >= amountFen then
      (1, w.(accounts := w.accounts[no := cur[no].(balanceFen := cur[no].balanceFen - amountFen)]))
    else (0, w)
  }

  /** None when uk_request_biz or the CHECK amount > 0 rejects the row. */
  function InsertFlow(db: Db, w: Writes, f: Flow): Option<Writes> {
    if f.amountFen <= 0 || HasFlowFor(db.flows, f.requestId) || HasFlowFor(w.flows, f.requestId)
    then None else Some(w.(flows := w.flows + [f]))
  }

  function InsertMessage(db: Db, w: Writes, id: nat, m: Message): Option<Writes> {
    if id in db.messages || id in w.messages then None
    else Some(w.(messages := w.messages[id := m]))
  }

  function NewOrder(req: CreateOrderReq, priceFen: int): Order {
    Order(req.requestId, req.userId, req.productId, req.quantity, priceFen,
          priceFen * req.quantity, PendingPayment)
  }
}
