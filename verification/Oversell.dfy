/** The stock stress test, for every number of buyers and every stock: N unit orders with distinct
    request ids against one on-sale product, interleaved in any way, with no technical failure. */
module Oversell {
  import opened Prelude
  import opened Tables
  import opened LedgerSpec
  import opened Ledger
  import opened LedgerProof
  import opened LedgerInvariant
  import LedgerCalls

  predicate UnitOrder(call: Call, id: nat) {
    call.Create? && call.creq.productId == id && call.creq.quantity == 1
  }

  predicate UsedBy(s: State, rid: RequestId) {
    || (exists t :: t in s.txs && s.txs[t].call.Create? && s.txs[t].call.creq.requestId == rid)
    || (exists t :: t in s.results && s.results[t].call.Create? && s.results[t].call.creq.requestId == rid)
  }

  /** Buyers start with request ids of their own and statements run; nothing fails for technical reasons. */
  predicate StressStep(s: State, a: Action, id: nat) {
    match a
    case Begin(_, call) => UnitOrder(call, id) && !UsedBy(s, call.creq.requestId)
    case Run(_, _) => true
    case Abort(_, _) => false
  }

  predicate StressRun(init: Db, run: seq<Action>, id: nat) {
    run == [] ||
    (var front := After(init, run[..|run|-1]);
     StressRun(init, run[..|run|-1], id) && front.Some? && StressStep(front.value, run[|run|-1], id))
  }

  predicate OnSale(init: Db, id: nat) {
    id in init.products && init.products[id].status == 1 && init.products[id].priceFen >= 0
  }

  function Winners(results: map<nat, Ended>): set<nat> { set t | t in results && results[t].outcome.Created? }
  function Losers(results: map<nat, Ended>): set<nat> {
    set t | t in results && results[t].outcome == Fail(StockNotEnough)
  }

  predicate UnitCalls(s: State, id: nat) {
    && (forall t :: t in s.txs ==> UnitOrder(s.txs[t].call, id) && !s.txs[t].pc.CLookup?)
    && (forall t :: t in s.results ==>
      && UnitOrder(s.results[t].call, id)
      && (s.results[t].outcome.Created? || s.results[t].outcome == Fail(StockNotEnough)))
  }

  predicate OwnIds(s: State) {
    && (forall t, u | t in s.txs && u in s.txs && t != u && s.txs[t].call.Create? && s.txs[u].call.Create? ::
      s.txs[t].call.creq.requestId != s.txs[u].call.creq.requestId)
    && (forall t, u | t in s.txs && u in s.results && s.txs[t].call.Create? && s.results[u].call.Create? ::
      s.txs[t].call.creq.requestId != s.results[u].call.creq.requestId)
    && (forall rid :: rid in s.db.idem ==> BoughtWith(s.results, rid))
  }

  predicate BoughtWith(results: map<nat, Ended>, rid: RequestId) {
    exists t :: t in results && results[t].call.Create? && results[t].call.creq.requestId == rid
  }

  predicate Counted(s: State, id: nat, stock: int) {
    && OnSale(s.db, id)
    && |Winners(s.results)| + s.db.products[id].stock == stock
    && (Losers(s.results) != {} ==> s.db.products[id].stock == 0)
  }

  predicate StressInv(s: State, id: nat, stock: int) { UnitCalls(s, id) && OwnIds(s) && Counted(s, id, stock) }

  lemma FreshKey(s: State, id: nat, t: nat)
    requires UnitCalls(s, id) && OwnIds(s) && t in s.txs
    ensures s.txs[t].call.creq.requestId !in s.db.idem
  {
    assert !BoughtWith(s.results, s.txs[t].call.creq.requestId);
  }

  lemma StressBegin(s: State, a: Action, id: nat, stock: int)
    requires StressInv(s, id, stock) && a.Begin? && Enabled(s, a) && StressStep(s, a, id)
    ensures StressInv(Next(s, a), id, stock)
  {
    assert QuantityOk(a.call.creq);
  }

  lemma StressGo(s: State, t: nat, newId: nat, id: nat, stock: int)
    requires StressInv(s, id, stock) && Enabled(s, Run(t, newId)) && TxInv(s.db, s.txs[t])
    requires Exec(s.db, s.txs[t], newId, s.flowSeq + 1).Go?
    ensures StressInv(Next(s, Run(t, newId)), id, stock)
  {
    var tx := s.txs[t];
    FreshKey(s, id, t);
    CreateStep(s.db, tx, tx.call.creq, newId);
    var s' := Next(s, Run(t, newId));
    assert s'.txs[t].call == tx.call;
    assert !s'.txs[t].pc.CLookup? by { hide OwnIds, Counted; }
    hide Exec, TxInv, CreateInv;
    assert UnitCalls(s', id) && OwnIds(s') && Counted(s', id, stock);
  }

  lemma LosesWhenEmpty(db: Db, tx: Tx, req: CreateOrderReq, newId: nat)
    requires CreateInv(db, tx, req) && ExecCreate(db, tx, req, newId).End? && req.quantity == 1
    requires IdemMatchesOrders(db.idem, db.orders) && newId !in db.orders && req.requestId !in db.idem
    requires OnSale(db, req.productId) && db.products[req.productId].stock >= 0
    ensures ExecCreate(db, tx, req, newId).outcome == Fail(StockNotEnough) && db.products[req.productId].stock == 0
  {
    hide ExecCreate, CreateInv;
    CreateEnds(db, tx, req, newId);
  }

  lemma Settle(s: State, s': State, t: nat, e: Ended, id: nat)
    requires UnitCalls(s, id) && OwnIds(s) && t in s.txs && t !in s.results
    requires e.call == s.txs[t].call && (e.outcome.Created? || e.outcome == Fail(StockNotEnough))
    requires s'.txs == s.txs - {t} && s'.results == s.results[t := e]
    requires forall rid :: rid in s'.db.idem ==> rid in s.db.idem || rid == e.call.creq.requestId
    ensures UnitCalls(s', id) && OwnIds(s')
  {
    forall rid | rid in s'.db.idem ensures BoughtWith(s'.results, rid) {
      if rid in s.db.idem {
        assert BoughtWith(s.results, rid);
        var u :| u in s.results && s.results[u].call.Create? && s.results[u].call.creq.requestId == rid;
        assert s'.results[u] == s.results[u];
      } else {
        assert s'.results[t].call.creq.requestId == rid;
      }
    }
  }

  lemma StressEnd(s: State, t: nat, newId: nat, id: nat, stock: int)
    requires StressInv(s, id, stock) && Enabled(s, Run(t, newId)) && TxInv(s.db, s.txs[t])
    requires IdemMatchesOrders(s.db.idem, s.db.orders) && newId !in s.db.orders
    requires s.db.products[id].stock >= 0
    requires Exec(s.db, s.txs[t], newId, s.flowSeq + 1).End?
    ensures StressInv(Next(s, Run(t, newId)), id, stock)
  {
    hide IdemMatchesOrders, ExecCreate, CreateInv, OwnIds, Losers, Winners;
    var s' := Next(s, Run(t, newId));
    var e := Ended(s.txs[t].call, Fail(StockNotEnough));
    FreshKey(s, id, t);
    LosesWhenEmpty(s.db, s.txs[t], s.txs[t].call.creq, newId);
    Settle(s, s', t, e, id);
    WinnersUnchanged(s.results, t, e);
  }

  lemma WinnersUnchanged(results: map<nat, Ended>, t: nat, e: Ended)
    requires t !in results && e.outcome == Fail(StockNotEnough)
    ensures Winners(results[t := e]) == Winners(results)
  {
  }

  lemma WinnerAdded(results: map<nat, Ended>, t: nat, e: Ended)
    requires t !in results && e.outcome.Created?
    ensures |Winners(results[t := e])| == |Winners(results)| + 1 && Losers(results[t := e]) == Losers(results)
  {
    assert Winners(results[t := e]) == Winners(results) + {t};
  }

  lemma WinsWhenStocked(db: Db, tx: Tx, req: CreateOrderReq)
    requires CreateInv(db, tx, req) && tx.pc.CCommit? && IdemMatchesOrders(db.idem, db.orders)
    ensures Merge(db, tx.w) == AfterCreate(db, req, tx.pc.no) && db.products[req.productId].stock >= req.quantity
  {
    CreateCommits(db, tx, req);
  }

  lemma StressCommit(s: State, t: nat, newId: nat, id: nat, stock: int)
    requires StressInv(s, id, stock) && Enabled(s, Run(t, newId)) && TxInv(s.db, s.txs[t])
    requires IdemMatchesOrders(s.db.idem, s.db.orders)
    requires Exec(s.db, s.txs[t], newId, s.flowSeq + 1).Commit?
    ensures StressInv(Next(s, Run(t, newId)), id, stock)
  {
    hide IdemMatchesOrders, CreateInv, OwnIds, Losers, Winners, Merge;
    var s' := Next(s, Run(t, newId));
    var tx := s.txs[t];
    CommitPc(s.db, tx, newId, s.flowSeq + 1);
    var e := Ended(tx.call, Created(tx.pc.no, tx.pc.o));
    WinsWhenStocked(s.db, tx, tx.call.creq);
    Settle(s, s', t, e, id);
    WinnerAdded(s.results, t, e);
  }

  lemma StressNext(s: State, a: Action, id: nat, stock: int)
    requires Inv(s) && StressInv(s, id, stock) && Enabled(s, a) && StressStep(s, a, id)
    ensures StressInv(Next(s, a), id, stock)
  {
    hide StressInv, IdemMatchesOrders, OrdersOk, PaymentsMatch, FlowsMatch, MessagesMatch, BalancesChained,
         LocksDisjoint, ResultsOk, SerialOk, TxInv, Exec, Next, Sold;
    match a {
      case Begin(_, _) => StressBegin(s, a, id, stock);
      case Run(t, newId) =>
        assert TxInv(s.db, s.txs[t]) && s.db.products.Keys == s.init.products.Keys;
        match Exec(s.db, s.txs[t], newId, s.flowSeq + 1) {
          case Go(_) => StressGo(s, t, newId, id, stock);
          case End(_) =>
            assert id in s.db.products by { assert StressInv(s, id, stock); StressOnSale(s, id, stock); }
            StressEnd(s, t, newId, id, stock);
          case Commit(_) => StressCommit(s, t, newId, id, stock);
        }
    }
  }

  lemma StressOnSale(s: State, id: nat, stock: int)
    requires StressInv(s, id, stock)
    ensures OnSale(s.db, id)
  {
  }

  lemma {:induction false} StressInvariant(init: Db, run: seq<Action>, id: nat)
    requires Initial(init) && OnSale(init, id) && StressRun(init, run, id) && After(init, run).Some?
    ensures StressInv(After(init, run).value, id, init.products[id].stock)
  {
    hide Inv, Next, Enabled, Initial, StressStep, StressInv;
    if run == [] {
      StressStart(init, id);
    } else {
      var front := run[..|run|-1];
      StressInvariant(init, front, id);
      Invariant(init, front);
      StressNext(After(init, front).value, run[|run|-1], id, init.products[id].stock);
    }
  }

  lemma StressStart(init: Db, id: nat)
    requires Initial(init) && OnSale(init, id)
    ensures StressInv(Start(init), id, init.products[id].stock)
  {
    assert Winners(Start(init).results) == {};
  }

  function Min(a: int, b: int): int { if a < b then a else b }

  /** When all N buyers have been answered: exactly min(N, stock) of them bought, all others were told
      the stock was not enough, and exactly the bought units are gone. */
  lemma ExactlyStockSold(init: Db, run: seq<Action>, s: State, id: nat)
    requires Initial(init) && OnSale(init, id) && StressRun(init, run, id) && After(init, run) == Some(s)
    requires s.txs == map[]
    ensures id in s.db.products
    ensures var sold := Min(|s.results|, init.products[id].stock);
            && |Winners(s.results)| == sold
            && |Losers(s.results)| == |s.results| - sold
            && s.db.products[id].stock == init.products[id].stock - sold
  {
    hide After, StressRun, Initial, TxsOk, DbBound, LocksDisjoint, ResultsOk, SerialOk;
    hide IdemMatchesOrders, OrdersOk, PaymentsMatch, FlowsMatch, MessagesMatch, BalancesChained, Sold;
    Invariant(init, run);
    StressInvariant(init, run, id);
    var w, l := Winners(s.results), Losers(s.results);
    assert w + l == s.results.Keys && w !! l;
    assert |s.results.Keys| == |w| + |l|;
    assert |s.results| == |s.results.Keys|;
  }

  lemma {:induction false} RunningOnIsStress(init: Db, run: seq<Action>, id: nat, more: seq<Action>)
    requires StressRun(init, run, id) && After(init, run + more).Some? && forall i :: 0 <= i < |more| ==> more[i].Run?
    ensures StressRun(init, run + more, id)
    decreases |more|
  {
    if more == [] {
      assert run + more == run;
    } else {
      var front := more[..|more|-1];
      assert (run + more)[..|run + more|-1] == run + front;
      RunningOnIsStress(init, run, id, front);
    }
  }

  /** However far the buyers have got, all of them can be answered: the counts above are always reached
      by just letting the open calls run. */
  lemma BuyersCanFinish(init: Db, run: seq<Action>, id: nat)
    requires Initial(init) && StressRun(init, run, id) && After(init, run).Some?
    ensures exists more :: LedgerCalls.FinishedBy(init, run, more) && StressRun(init, run + more, id)
  {
    hide Initial, StressRun;
    LedgerCalls.AllCanFinish(init, run);
    var more :| LedgerCalls.FinishedBy(init, run, more);
    RunningOnIsStress(init, run, id, more);
  }
}
