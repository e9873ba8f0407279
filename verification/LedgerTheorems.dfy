/** What every interleaving of trade transactions guarantees, for all runs of any length. */
module LedgerTheorems {
  import opened Prelude
  import opened Tables
  import opened LedgerSpec
  import opened Ledger
  import opened LedgerProof
  import opened LedgerInvariant
  import opened LedgerCalls

  /** Serializability: the committed tables are exactly what the committed calls produce when run
      one after the other in commit order, and each of them succeeds there. */
  lemma Serializable(init: Db, run: seq<Action>, s: State)
    requires Initial(init) && After(init, run) == Some(s)
    ensures s.db == Replay(init, s.log) && AllSucceed(init, s.log)
  {
    hide After, DbInv, DbBound, TxsOk, LocksDisjoint, ResultsOk, AllSucceed, Replay, Initial;
    Invariant(init, run);
  }

  /** No interleaving oversells or loses a unit of stock. */
  lemma StockIsConserved(init: Db, run: seq<Action>, s: State, id: nat)
    requires Initial(init) && After(init, run) == Some(s) && id in init.products
    ensures id in s.db.products && s.db.products[id].stock >= 0
    ensures init.products[id].stock == s.db.products[id].stock + Sold(s.db.orders, id)
  {
    hide After, DbBound, TxsOk, LocksDisjoint, ResultsOk, SerialOk, Initial, Sold;
    hide BalancesChained, IdemMatchesOrders, OrdersOk, PaymentsMatch, FlowsMatch, MessagesMatch;
    Invariant(init, run);
  }

  lemma AccountIsChained(init: Db, run: seq<Action>, s: State, no: AccountNo)
    requires Initial(init) && After(init, run) == Some(s) && no in init.accounts
    ensures no in s.db.accounts && s.db.accounts[no].balanceFen >= 0
    ensures AccountChained(s.db.flows, no, init.accounts[no].balanceFen, s.db.accounts[no].balanceFen)
  {
    hide After, DbBound, TxsOk, LocksDisjoint, ResultsOk, SerialOk, Initial, AccountChained;
    hide StockConserved, IdemMatchesOrders, OrdersOk, PaymentsMatch, FlowsMatch, MessagesMatch;
    Invariant(init, run);
  }

  /** No interleaving loses or creates money: the opening balance is the balance plus what was spent. */
  lemma BalanceIsConserved(init: Db, run: seq<Action>, s: State, no: AccountNo)
    requires Initial(init) && After(init, run) == Some(s) && no in init.accounts
    ensures no in s.db.accounts && s.db.accounts[no].balanceFen >= 0
    ensures init.accounts[no].balanceFen == s.db.accounts[no].balanceFen + Spent(FlowsOf(s.db.flows, no))
  {
    hide After, Initial, Chained, Spent;
    AccountIsChained(init, run, s, no);
    ChainConserves(FlowsOf(s.db.flows, no), init.accounts[no].balanceFen, s.db.accounts[no].balanceFen);
  }

  /** The i-th flow of an account starts where the one inserted before it ended; the first starts at
      the opening balance and the last ends at the current one. */
  lemma FlowsFormChain(init: Db, run: seq<Action>, s: State, no: AccountNo, i: nat)
    requires Initial(init) && After(init, run) == Some(s) && no in init.accounts
    requires i < |FlowsOf(s.db.flows, no)|
    ensures no in s.db.accounts
    ensures var fs := FlowsOf(s.db.flows, no);
            && fs[i].beforeFen == (if i == 0 then init.accounts[no].balanceFen else fs[i-1].afterFen)
            && fs[i].beforeFen == fs[i].afterFen + fs[i].amountFen
            && fs[|fs|-1].afterFen == s.db.accounts[no].balanceFen
            && (i > 0 ==> fs[i-1].id < fs[i].id)
  {
    hide After, Initial, Chained;
    AccountIsChained(init, run, s, no);
    ChainLinks(FlowsOf(s.db.flows, no), init.accounts[no].balanceFen, s.db.accounts[no].balanceFen, i);
  }

  /** Paid orders, payment rows, account flows and ORDER_PAID messages match one to one by order
      number, with equal amounts. */
  lemma PaidOrdersMatch(init: Db, run: seq<Action>, s: State)
    requires Initial(init) && After(init, run) == Some(s)
    ensures PaymentsMatch(s.db.orders, s.db.payments)
    ensures FlowsMatch(s.db.orders, s.db.accountOf, s.db.flows)
    ensures MessagesMatch(s.db.orders, s.db.messages)
    ensures IdemMatchesOrders(s.db.idem, s.db.orders) && OrdersOk(s.db.orders)
  {
    hide After, DbBound, TxsOk, LocksDisjoint, ResultsOk, SerialOk, Initial;
    hide StockConserved, BalancesChained, IdemMatchesOrders, OrdersOk, PaymentsMatch, FlowsMatch, MessagesMatch;
    Invariant(init, run);
  }

  /** Nothing ever moves back: the tables after a longer run evolve from those after a shorter one. */
  lemma {:induction false} NeverMovesBack(init: Db, run: seq<Action>, more: seq<Action>)
    requires Initial(init) && After(init, run + more).Some?
    ensures After(init, run).Some? && Evolves(After(init, run).value.db, After(init, run + more).value.db)
    decreases |more|
  {
    hide Evolves, Initial, Next, Enabled, Inv;
    if more == [] {
      assert run + more == run;
      EvolvesReflexive(After(init, run).value.db);
    } else {
      var front := more[..|more|-1];
      assert (run + more)[..|run + more|-1] == run + front;
      NeverMovesBack(init, run, front);
      Invariant(init, run + front);
      var prev := After(init, run + front).value;
      NextKeeps(prev, more[|more|-1]);
      EvolvesTransitive(After(init, run).value.db, prev.db, After(init, run + more).value.db);
    }
  }

  lemma AnswersHold(init: Db, run: seq<Action>, s: State)
    requires Initial(init) && After(init, run) == Some(s)
    ensures ResultsOk(s.db, s.results)
  {
    hide After, DbInv, DbBound, TxsOk, LocksDisjoint, ResultsOk, SerialOk, Initial;
    Invariant(init, run);
  }

  function BodyOf(e: Ended): Option<Response> {
    match e.outcome
    case Created(no, o) => Some(Response(no, o))
    case Cached(body) => body
    case _ => None
  }

  /** Nobody is ever told that the request is still being processed. */
  lemma NeverStillProcessing(init: Db, run: seq<Action>, s: State, t: nat)
    requires Initial(init) && After(init, run) == Some(s) && t in s.results
    ensures s.results[t].outcome != Fail(DuplicateRequest)
  {
    hide After, Initial;
    AnswersHold(init, run, s);
    assert ResultOk(s.db, s.results[t]);
  }

  /** A callback answered with code 0 is for a paid order. */
  lemma SuccessMeansPaid(init: Db, run: seq<Action>, s: State, t: nat)
    requires Initial(init) && After(init, run) == Some(s) && t in s.results && s.results[t].call.Pay?
    ensures !s.results[t].outcome.Fail? ==> IsPaid(s.db.orders, s.results[t].call.preq.orderNo)
  {
    hide After, Initial;
    AnswersHold(init, run, s);
    assert ResultOk(s.db, s.results[t]);
  }

  /** Idempotency across all interleavings: two answers with a body for one request id carry the
      same body, and at most one of the two calls created the order. */
  lemma CreateIsIdempotent(init: Db, run: seq<Action>, s: State, t: nat, u: nat)
    requires Initial(init) && After(init, run) == Some(s)
    requires t in s.results && u in s.results && t != u
    requires s.results[t].call.Create? && s.results[u].call.Create?
    requires s.results[t].call.creq.requestId == s.results[u].call.creq.requestId
    ensures BodyOf(s.results[t]).Some? && BodyOf(s.results[u]).Some? ==> BodyOf(s.results[t]) == BodyOf(s.results[u])
    ensures !(s.results[t].outcome.Created? && s.results[u].outcome.Created?)
  {
    hide After, Initial;
    AnswersHold(init, run, s);
    assert ResultOk(s.db, s.results[t]) && ResultOk(s.db, s.results[u]);
    assert !SameEffect(s.results[t], s.results[u]);
  }

  /** At most one callback per order paid it. */
  lemma PaymentIsOnce(init: Db, run: seq<Action>, s: State, t: nat, u: nat)
    requires Initial(init) && After(init, run) == Some(s)
    requires t in s.results && u in s.results && t != u
    requires s.results[t].call.Pay? && s.results[u].call.Pay?
    requires s.results[t].call.preq.orderNo == s.results[u].call.preq.orderNo
    ensures !(s.results[t].outcome.PaySuccess? && s.results[u].outcome.PaySuccess?)
  {
    hide After, Initial;
    AnswersHold(init, run, s);
    assert !SameEffect(s.results[t], s.results[u]);
  }

  /** A step whose call is answered with anything but fresh success leaves every table as it was. */
  lemma OnlySuccessWrites(init: Db, run: seq<Action>, s: State, a: Action)
    requires Initial(init) && After(init, run) == Some(s) && Enabled(s, a)
    ensures Next(s, a).db != s.db ==> a.t in Next(s, a).results && Took(Next(s, a).results[a.t].outcome)
  {
    hide After, Initial, Merge, EntryOf;
    if a.Run? && Exec(s.db, s.txs[a.t], a.newId, s.flowSeq + 1).Commit? {
      CommitPc(s.db, s.txs[a.t], a.newId, s.flowSeq + 1);
    }
  }

  /** A createOrder call that fails while it holds its request key gives the key back: the tables are
      as before and a retry with the same id, whatever its content, is not blocked and acquires it. */
  lemma FailureReleasesKey(init: Db, run: seq<Action>, s: State, a: Action, r: nat, req: CreateOrderReq, newId: nat)
    requires Initial(init) && After(init, run) == Some(s) && Enabled(s, a) && !a.Begin?
    requires s.txs[a.t].call.Create? && Holds(s.txs[a.t].w, IdemKey(req.requestId))
    requires a.t in Next(s, a).results && Next(s, a).results[a.t].outcome.Fail?
    requires QuantityOk(req) && Enabled(Next(s, a), Begin(r, Create(req))) && newId !in Next(s, a).drawn
    ensures Next(s, a).db == s.db
    ensures var begun := Next(Next(s, a), Begin(r, Create(req)));
            && Enabled(begun, Run(r, newId))
            && r in Next(begun, Run(r, newId)).txs && Next(begun, Run(r, newId)).txs[r].pc == CProduct
  {
    hide After, Initial, ExecPay, Merge, EntryOf;
    hide DbInv, DbBound, ResultsOk, SerialOk, TxBound, PayInv, Evolves;
    Invariant(init, run);
    var tx := s.txs[a.t];
    assert TxInv(s.db, tx);
    KeyIsNew(s.db, tx, tx.call.creq, req.requestId);
    if a.Run? && Exec(s.db, tx, a.newId, s.flowSeq + 1).Commit? {
      CommitPc(s.db, tx, a.newId, s.flowSeq + 1);
    }
  }

  lemma KeyIsNew(db: Db, tx: Tx, req: CreateOrderReq, rid: RequestId)
    requires CreateInv(db, tx, req) && Holds(tx.w, IdemKey(rid))
    ensures rid !in db.idem
  {
  }

  /** An in-range createOrder begun after its request id was committed replays the stored response,
      whatever its own content and whatever the other calls do: it writes nothing and is still before
      its lookup, or ended with exactly that response, or was aborted. */
  lemma ReplayReturnsSnapshot(init: Db, run: seq<Action>, s: State, t: nat, req: CreateOrderReq, more: seq<Action>)
    requires Initial(init) && After(init, run) == Some(s) && QuantityOk(req) && req.requestId in s.db.idem
    requires After(init, run + [Begin(t, Create(req))] + more).Some?
    ensures var s' := After(init, run + [Begin(t, Create(req))] + more).value;
            var first := s.db.idem[req.requestId].response;
            && first.Some?
            && (|| BeforeLookup(s', t, req) || Answered(s', t, Create(req), Cached(first))
                || Aborted(s', t, Create(req), more))
    ensures forall no :: CreateAtomic(s.db, req, no) == (s.db, Cached(s.db.idem[req.requestId].response))
  {
    hide After, Initial;
    PaidOrdersMatch(init, run, s);
    LateCreateReplays(init, run, t, req, s.db.idem[req.requestId].response.value, more);
  }

  /** Linearizability of the answers: a call that ends without writing answers what the atomic call
      would answer on the tables of that moment, unless it is a callback that lost to a payment of
      its order committed after its first read. Then, and only then, the answer differs: it is a
      conflict where the atomic call answers a replay. */
  lemma AnswersLinearize(init: Db, run: seq<Action>, s: State, t: nat, newId: nat)
    requires Initial(init) && After(init, run) == Some(s) && Enabled(s, Run(t, newId))
    requires Exec(s.db, s.txs[t], newId, s.flowSeq + 1).End?
    ensures var tx := s.txs[t];
            var r := Exec(s.db, tx, newId, s.flowSeq + 1).outcome;
            match tx.call
            case Create(req) => r == CreateVerdict(s.db, req, newId)
            case Pay(req) =>
              var v := PayVerdict(s.db, req, Numbers(newId, s.flowSeq + 1, newId));
              && (r == v <==> !Lost(s.db, tx, req))
              && (Lost(s.db, tx, req) ==> v == PayReplay && r in {Fail(ChannelTradeConflict), Fail(OrderStatusInvalid)})
  {
    hide After, Initial, ExecCreate, ExecPay, PayVerdict, CreateVerdict, CreateInv, PayInv, Evolves, Lost;
    hide LocksDisjoint, ResultsOk, SerialOk, StockConserved, BalancesChained, PaymentsMatch, FlowsMatch, MessagesMatch;
    hide IdemMatchesOrders, OrdersOk;
    Invariant(init, run);
    var tx := s.txs[t];
    assert TxInv(s.db, tx);
    match tx.call {
      case Create(req) => CreateEnds(s.db, tx, req, newId);
      case Pay(req) =>
        assert Evolves(View(s.db, tx), s.db) by { if tx.snap.None? { EvolvesReflexive(s.db); } }
        PayEnds(s.db, tx, req, newId, s.flowSeq + 1);
    }
  }

  /** The first way to lose, for every payment that can succeed: a duplicate of the callback has read
      the order, the payment commits, and the duplicate's insert finds the trade number taken while
      its snapshot does not show it. */
  lemma OvertakenReplay(db: Db, req: CallbackReq, n: Numbers, tx: Tx, newId: nat, flowId: nat)
    requires PayVerdict(db, req, n) == PaySuccess
    requires tx == Tx(Pay(req), PInsert(db.orders[req.orderNo]), NoWrites, Some(db))
    ensures ExecPay(db, Opened(Pay(req)), req, newId, flowId) == Go(tx)
    ensures var d := AfterPay(db, req, n);
            var e := ExecPay(d, tx, req, newId, flowId);
            && PayVerdict(d, req, n) == PayReplay
            && e.Go? && ExecPay(d, e.tx, req, newId, flowId) == End(Fail(ChannelTradeConflict))
  {
  }

  /** The second way: a callback of the same order under another trade number has read the order, the
      payment commits, and marking the order fails while the snapshot still shows it as pending. */
  lemma OvertakenReread(db: Db, req: CallbackReq, n: Numbers, other: CallbackReq, tx: Tx, newId: nat, flowId: nat)
    requires PayVerdict(db, req, n) == PaySuccess
    requires CallbackOk(other) && other.orderNo == req.orderNo && other.amountFen == req.amountFen
    requires other.channelTradeNo != req.channelTradeNo && other.channelTradeNo !in db.payments
    requires tx == Tx(Pay(other), PInsert(db.orders[req.orderNo]), NoWrites, Some(db))
    ensures ExecPay(db, Opened(Pay(other)), other, newId, flowId) == Go(tx)
    ensures var d := AfterPay(db, req, n);
            var inserted := ExecPay(d, tx, other, newId, flowId);
            && PayVerdict(d, other, n) == PayReplay
            && inserted.Go? && inserted.tx.pc.PMark?
            && var marked := ExecPay(d, inserted.tx, other, newId, flowId);
               && marked.Go? && marked.tx.pc.PReread?
               && ExecPay(d, marked.tx, other, newId, flowId) == End(Fail(OrderStatusInvalid))
  {
    hide AfterPay, ExecPay;
    PaidTables(db, req, n);
    ReadStep(db, other, newId, flowId);
    InsertStep(AfterPay(db, req, n), tx, other, newId, flowId);
  }

  /** What a committed payment shows to a callback under another trade number. */
  lemma PaidTables(db: Db, req: CallbackReq, n: Numbers)
    requires PayVerdict(db, req, n) == PaySuccess
    ensures var d := AfterPay(db, req, n);
            && req.orderNo in d.orders && d.orders[req.orderNo] == db.orders[req.orderNo].(status := Paid)
            && db.orders[req.orderNo].status == PendingPayment
            && req.amountFen == Some(db.orders[req.orderNo].totalAmountFen)
            && (forall u :: u != req.channelTradeNo && u !in db.payments ==> u !in d.payments)
  {
  }

  lemma ReadStep(db: Db, req: CallbackReq, newId: nat, flowId: nat)
    requires req.orderNo in db.orders && req.amountFen == Some(db.orders[req.orderNo].totalAmountFen)
    ensures ExecPay(db, Opened(Pay(req)), req, newId, flowId)
         == Go(Tx(Pay(req), PInsert(db.orders[req.orderNo]), NoWrites, Some(db)))
  {
  }

  lemma InsertStep(d: Db, tx: Tx, req: CallbackReq, newId: nat, flowId: nat)
    requires tx.pc.PInsert? && tx.w == NoWrites && tx.snap.Some? && req.channelTradeNo !in d.payments
    requires IsPaid(d.orders, req.orderNo)
    requires req.orderNo in tx.snap.value.orders && tx.snap.value.orders[req.orderNo].status == PendingPayment
    ensures var inserted := ExecPay(d, tx, req, newId, flowId);
            && inserted.Go? && inserted.tx.pc.PMark?
            && var marked := ExecPay(d, inserted.tx, req, newId, flowId);
               && marked.Go? && marked.tx.pc.PReread?
               && ExecPay(d, marked.tx, req, newId, flowId) == End(Fail(OrderStatusInvalid))
  {
  }
}
