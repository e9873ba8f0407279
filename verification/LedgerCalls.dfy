/** What one caller can rely on whatever the others do: late calls are answered as replays, and no
    call ever waits for a circle of others. */
module LedgerCalls {
  import opened Prelude
  import opened Tables
  import opened LedgerSpec
  import opened Ledger
  import opened LedgerProof
  import opened LedgerInvariant

  // ---- Runs ----

  /** The last action of a run and the state it was taken in. */
  lemma LastStep(init: Db, run: seq<Action>, more: seq<Action>)
    requires Initial(init) && more != [] && After(init, run + more).Some?
    ensures var front := After(init, run + more[..|more|-1]);
            && front.Some? && Inv(front.value) && Enabled(front.value, more[|more|-1])
            && After(init, run + more) == Some(Next(front.value, more[|more|-1]))
  {
    hide Inv, Next, Enabled, Initial;
    assert (run + more)[..|run + more|-1] == run + more[..|more|-1];
    Invariant(init, run + more[..|more|-1]);
  }

  /** An answer is never taken back, and a step answers only the call it belongs to. */
  lemma AnswersStay(s: State, a: Action, t: nat)
    requires Enabled(s, a)
    ensures t in s.results ==> t in Next(s, a).results && Next(s, a).results[t] == s.results[t]
    ensures t in s.txs && a.t != t ==> t in Next(s, a).txs && Next(s, a).txs[t] == s.txs[t]
    ensures a.Abort? ==> a.t in Next(s, a).results && Next(s, a).results[a.t] == Ended(s.txs[a.t].call, Fail(a.code))
    ensures a.Abort? ==> Next(s, a).db == s.db
  {
    hide Exec, Merge;
  }

  // ---- createOrder begun after its request id was committed ----

  /** Still before its lookup, having written nothing. */
  predicate BeforeLookup(s: State, t: nat, req: CreateOrderReq) {
    t in s.txs && s.txs[t].call == Create(req) && s.txs[t].w == NoWrites && s.txs[t].pc in {CAcquire, CLookup}
  }

  predicate Answered(s: State, t: nat, call: Call, outcome: Outcome) {
    t in s.results && s.results[t] == Ended(call, outcome)
  }

  predicate Aborted(s: State, t: nat, call: Call, more: seq<Action>) {
    exists code :: Abort(t, code) in more && Answered(s, t, call, Fail(code))
  }

  predicate Stored(db: Db, rid: RequestId, body: Response) {
    rid in db.idem && db.idem[rid].status == 1 && db.idem[rid].response == Some(body)
  }

  lemma ReplayStep(s: State, t: nat, newId: nat, req: CreateOrderReq, body: Response)
    requires Inv(s) && Enabled(s, Run(t, newId)) && BeforeLookup(s, t, req) && Stored(s.db, req.requestId, body)
    ensures var s' := Next(s, Run(t, newId));
            && s'.db == s.db
            && (BeforeLookup(s', t, req) || Answered(s', t, Create(req), Cached(Some(body))))
  {
    hide DbInv, DbBound, LocksDisjoint, ResultsOk, SerialOk, TxBound, PayInv, Evolves, ExecPay;
    assert TxInv(s.db, s.txs[t]);
  }

  lemma StoredStays(a: Db, b: Db, rid: RequestId, body: Response)
    requires Stored(a, rid, body) && Evolves(a, b)
    ensures Stored(b, rid, body)
  {
  }

  /** Whatever the other calls do, an in-range createOrder begun after its request id was committed
      writes nothing and ends with the stored first response, unless it is aborted. */
  lemma {:induction false} LateCreateReplays(init: Db, run: seq<Action>, t: nat, req: CreateOrderReq, body: Response,
                                             more: seq<Action>)
    requires Initial(init) && QuantityOk(req)
    requires After(init, run).Some? && Stored(After(init, run).value.db, req.requestId, body)
    requires After(init, run + [Begin(t, Create(req))] + more).Some?
    ensures var s := After(init, run + [Begin(t, Create(req))] + more).value;
            && Stored(s.db, req.requestId, body)
            && (|| BeforeLookup(s, t, req) || Answered(s, t, Create(req), Cached(Some(body)))
                || Aborted(s, t, Create(req), more))
    decreases |more|
  {
    hide Inv, Initial, Stored, Evolves;
    var begun := run + [Begin(t, Create(req))];
    if more == [] {
      assert begun + more == begun && begun[..|begun|-1] == run;
    } else {
      hide Next, Enabled, BeforeLookup;
      var front, a := more[..|more|-1], more[|more|-1];
      LastStep(init, begun, more);
      LateCreateReplays(init, run, t, req, body, front);
      var s := After(init, begun + front).value;
      NextKeeps(s, a);
      StoredStays(s.db, Next(s, a).db, req.requestId, body);
      AnswersStay(s, a, t);
      if Aborted(s, t, Create(req), front) {
        var code :| Abort(t, code) in front && Answered(s, t, Create(req), Fail(code));
        assert Abort(t, code) in more;
      } else if BeforeLookup(s, t, req) {
        LateCreateStep(s, a, t, req, body);
        if a.Abort? && a.t == t { assert Abort(t, a.code) in more; }
      }
    }
  }

  lemma LateCreateStep(s: State, a: Action, t: nat, req: CreateOrderReq, body: Response)
    requires Inv(s) && Enabled(s, a) && BeforeLookup(s, t, req) && Stored(s.db, req.requestId, body)
    ensures var s' := Next(s, a);
            || BeforeLookup(s', t, req) || Answered(s', t, Create(req), Cached(Some(body)))
            || (a.Abort? && a.t == t && Answered(s', t, Create(req), Fail(a.code)))
  {
    hide Inv, Stored, Next;
    AnswersStay(s, a, t);
    if a.Run? && a.t == t { ReplayStep(s, t, a.newId, req, body); }
  }

  // ---- handleCallback begun after the order's payment was committed ----

  /** The order has been paid under trade number u, and the callback states its amount. */
  predicate PaidUnder(db: Db, req: CallbackReq, u: TradeNo) {
    && IsPaid(db.orders, req.orderNo) && req.amountFen == Some(db.orders[req.orderNo].totalAmountFen)
    && u in db.payments && db.payments[u].orderNo == req.orderNo
  }

  predicate Undecided(pc: Pc) { pc.PRead? || pc.PInsert? || pc.PLookup? || pc.PMark? || pc.PReread? }

  /** On its way to a replay; whatever it reads, it reads that the order is paid. */
  predicate LatePay(s: State, t: nat, req: CallbackReq, u: TradeNo) {
    && t in s.txs && s.txs[t].call == Pay(req)
    && Undecided(s.txs[t].pc)
    && (s.txs[t].snap.Some? ==> PaidUnder(s.txs[t].snap.value, req, u))
  }

  /** The callback's own trade number was used for another order. */
  predicate TradeMisused(db: Db, req: CallbackReq) {
    req.channelTradeNo in db.payments && db.payments[req.channelTradeNo].orderNo != req.orderNo
  }

  predicate LateAnswer(db: Db, r: Outcome, req: CallbackReq) {
    r == PayReplay || (r == Fail(ChannelTradeConflict) && TradeMisused(db, req))
  }

  lemma PaidUnderStays(a: Db, b: Db, req: CallbackReq, u: TradeNo)
    requires PaidUnder(a, req, u) && Evolves(a, b)
    ensures PaidUnder(b, req, u)
  {
  }

  lemma MisuseStays(a: Db, b: Db, r: Outcome, req: CallbackReq)
    requires LateAnswer(a, r, req) && Evolves(a, b)
    ensures LateAnswer(b, r, req)
  {
  }

  /** One statement of a late callback: it goes on towards its answer, or gives it, and never loses. */
  lemma LateExec(db: Db, tx: Tx, req: CallbackReq, u: TradeNo, newId: nat, flowId: nat)
    requires PayInv(db, tx, req) && Evolves(View(db, tx), db)
    requires PaidUnder(db, req, u) && PaymentsMatch(db.orders, db.payments)
    requires Undecided(tx.pc)
    requires tx.snap.Some? ==> PaidUnder(tx.snap.value, req, u)
    ensures var e := ExecPay(db, tx, req, newId, flowId);
            match e
            case Go(tx') =>
              && Undecided(tx'.pc)
              && tx'.call == tx.call && tx'.snap.Some? && PaidUnder(tx'.snap.value, req, u)
            case End(r) => LateAnswer(db, r, req)
            case Commit(_) => false
    ensures !Lost(db, tx, req)
  {
  }

  lemma LatePayStep(s: State, a: Action, t: nat, req: CallbackReq, u: TradeNo)
    requires Inv(s) && Enabled(s, a) && LatePay(s, t, req, u) && PaidUnder(s.db, req, u)
    ensures var s' := Next(s, a);
            || LatePay(s', t, req, u)
            || (t in s'.results && s'.results[t].call == Pay(req) && LateAnswer(s'.db, s'.results[t].outcome, req))
            || (a.Abort? && a.t == t && Answered(s', t, Pay(req), Fail(a.code)))
  {
    hide PaidUnder, ExecPay, ExecCreate, PayInv, CreateInv, Evolves, LateAnswer, Merge, PaymentsMatch;
    hide LocksDisjoint, ResultsOk, SerialOk, DbBound, TxBound;
    hide StockConserved, BalancesChained, FlowsMatch, MessagesMatch;
    AnswersStay(s, a, t);
    if a.Run? && a.t == t {
      var tx := s.txs[t];
      assert TxInv(s.db, tx);
      assert Evolves(View(s.db, tx), s.db) by { if tx.snap.None? { EvolvesReflexive(s.db); } }
      LateExec(s.db, tx, req, u, a.newId, s.flowSeq + 1);
    }
  }

  /** Whatever the other calls do, a callback with the right amount begun after a payment of its order
      was committed is answered as a replay, unless it is aborted or its trade number is used for
      another order; so a repetition of the very callback that paid is always answered as a replay. */
  lemma {:induction false} LateCallbackReplays(init: Db, run: seq<Action>, t: nat, req: CallbackReq, u: TradeNo,
                                               more: seq<Action>)
    requires Initial(init) && CallbackOk(req)
    requires After(init, run).Some? && PaidUnder(After(init, run).value.db, req, u)
    requires After(init, run + [Begin(t, Pay(req))] + more).Some?
    ensures var s := After(init, run + [Begin(t, Pay(req))] + more).value;
            && PaidUnder(s.db, req, u)
            && (|| LatePay(s, t, req, u)
                || (t in s.results && s.results[t].call == Pay(req) && LateAnswer(s.db, s.results[t].outcome, req))
                || Aborted(s, t, Pay(req), more))
            && (u == req.channelTradeNo ==>
                  LatePay(s, t, req, u) || Answered(s, t, Pay(req), PayReplay) || Aborted(s, t, Pay(req), more))
    decreases |more|
  {
    hide Inv, Initial, Evolves;
    var begun := run + [Begin(t, Pay(req))];
    if more == [] {
      assert begun + more == begun && begun[..|begun|-1] == run;
    } else {
      hide Next, Enabled, LatePay;
      var front, a := more[..|more|-1], more[|more|-1];
      LastStep(init, begun, more);
      LateCallbackReplays(init, run, t, req, u, front);
      var s := After(init, begun + front).value;
      NextKeeps(s, a);
      PaidUnderStays(s.db, Next(s, a).db, req, u);
      AnswersStay(s, a, t);
      if Aborted(s, t, Pay(req), front) {
        var code :| Abort(t, code) in front && Answered(s, t, Pay(req), Fail(code));
        assert Abort(t, code) in more;
      } else if LatePay(s, t, req, u) {
        LatePayStep(s, a, t, req, u);
        if a.Abort? && a.t == t { assert Abort(t, a.code) in more; }
      } else {
        MisuseStays(s.db, Next(s, a).db, s.results[t].outcome, req);
      }
    }
  }

  // ---- No deadlock ----

  /** Every call takes its locks in this order. */
  function Rank(l: Lock): nat {
    match l
    case IdemKey(_) => 0
    case ProductRow(_) => 1
    case TradeKey(_) => 2
    case OrderRow(_) => 3
    case AccountRow(_) => 4
    case FlowKey(_) => 5
    case MessageKey(_) => 6
  }

  lemma TakesInOrder(db: Db, tx: Tx, l: Lock)
    requires TxInv(db, tx) && Holds(tx.w, l) && Wanted(tx).Some?
    ensures Rank(l) < Rank(Wanted(tx).value)
  {
    hide Evolves;
  }

  /** Following the holders of wanted locks ends at a call that can go on. */
  lemma {:induction false} SomeoneGoesOn(s: State, t: nat)
    requires Inv(s) && t in s.txs
    ensures exists u :: u in s.txs && !Blocked(s, u)
    decreases if Wanted(s.txs[t]).Some? then 6 - Rank(Wanted(s.txs[t]).value) else 0
  {
    hide DbInv, DbBound, LocksDisjoint, ResultsOk, SerialOk, TxInv, TxBound, Holds;
    if Blocked(s, t) {
      var l := Wanted(s.txs[t]).value;
      var u :| u in s.txs && u != t && Holds(s.txs[u].w, l);
      assert TxInv(s.db, s.txs[u]);
      if Wanted(s.txs[u]).Some? { TakesInOrder(s.db, s.txs[u], l); }
      if Blocked(s, u) { SomeoneGoesOn(s, u); }
    }
  }

  lemma {:induction false} RunningIsUnanswered(init: Db, run: seq<Action>)
    requires After(init, run).Some?
    ensures var s := After(init, run).value; forall t :: t in s.txs ==> t !in s.results
  {
    hide Exec, Merge;
    if run != [] { RunningIsUnanswered(init, run[..|run|-1]); }
  }

  /** As long as calls are running, one of them can execute its next statement. */
  lemma NoDeadlock(init: Db, run: seq<Action>, s: State)
    requires Initial(init) && After(init, run) == Some(s) && s.txs != map[]
    ensures exists t, newId :: Enabled(s, Run(t, newId))
  {
    hide After, Initial, Inv, Blocked;
    Invariant(init, run);
    RunningIsUnanswered(init, run);
    var t :| t in s.txs;
    SomeoneGoesOn(s, t);
    var u :| u in s.txs && !Blocked(s, u);
    var newId := Unused(s.drawn);
    assert Enabled(s, Run(u, newId));
  }

  /** A bound on the statements a call has before it. */
  function StepsLeft(pc: Pc): nat {
    match pc
    case CAcquire => 7 case CLookup => 1 case CProduct => 6 case CDeduct(_) => 5 case CInsert(_) => 4
    case CMark(_, _) => 3 case CCommit(_, _) => 2
    case PRead => 11 case PInsert(_) => 10 case PLookup(_) => 1 case PMark(_, _) => 9 case PReread(_, _) => 1
    case PAccount(_, _) => 8 case PDeduct(_, _, _) => 7 case PAfter(_, _, _) => 6 case PFlow(_, _, _, _) => 5
    case PMessage(_, _, _, _) => 4 case PCommit(_, _, _) => 3
  }

  function Steps(txs: map<nat, Tx>): map<nat, int> { map t | t in txs :: StepsLeft(txs[t].pc) }

  /** Fewer steps left for one call, or the call gone: fewer steps left in all. */
  lemma FewerSteps(txs: map<nat, Tx>, txs': map<nat, Tx>, t: nat)
    requires t in txs && StepsLeft(txs[t].pc) > 0 && txs' - {t} == txs - {t}
    requires t in txs' ==> StepsLeft(txs'[t].pc) < StepsLeft(txs[t].pc)
    ensures 0 <= MapSum(Steps(txs')) < MapSum(Steps(txs))
  {
    hide StepsLeft;
    var m, m' := Steps(txs), Steps(txs');
    MapSumNonNegative(m');
    MapSumRemove(m, t);
    if t in m' { MapSumRemove(m', t); }
    assert m - {t} == Steps(txs - {t}) == Steps(txs' - {t}) == m' - {t};
    if t !in m' { assert m' - {t} == m'; }
  }

  lemma RunShortens(s: State, t: nat, newId: nat)
    requires Enabled(s, Run(t, newId))
    ensures 0 <= MapSum(Steps(Next(s, Run(t, newId)).txs)) < MapSum(Steps(s.txs))
  {
    hide Exec, Merge, Blocked, StepsLeft, Steps, EntryOf;
    GoShortens(s, t, newId);
    FewerSteps(s.txs, Next(s, Run(t, newId)).txs, t);
  }

  lemma GoShortens(s: State, t: nat, newId: nat)
    requires Enabled(s, Run(t, newId))
    ensures StepsLeft(s.txs[t].pc) > 0
    ensures var e := Exec(s.db, s.txs[t], newId, s.flowSeq + 1); e.Go? ==> StepsLeft(e.tx.pc) < StepsLeft(s.txs[t].pc)
  {
  }

  predicate FinishedBy(init: Db, run: seq<Action>, more: seq<Action>) {
    && (forall i :: 0 <= i < |more| ==> more[i].Run?)
    && After(init, run + more).Some? && After(init, run + more).value.txs == map[]
  }

  /** From every reachable state all running calls can be brought to an end by just running them. */
  lemma {:induction false} AllCanFinish(init: Db, run: seq<Action>)
    requires Initial(init) && After(init, run).Some?
    ensures exists more :: FinishedBy(init, run, more)
    decreases MapSum(Steps(After(init, run).value.txs))
  {
    hide Initial, Next, Enabled, Steps;
    var s := After(init, run).value;
    if s.txs == map[] {
      assert run + [] == run;
      assert FinishedBy(init, run, []);
    } else {
      NoDeadlock(init, run, s);
      var t, newId :| Enabled(s, Run(t, newId));
      RunShortens(s, t, newId);
      var next := run + [Run(t, newId)];
      assert next[..|next|-1] == run;
      AllCanFinish(init, next);
      var more :| FinishedBy(init, next, more);
      assert run + ([Run(t, newId)] + more) == next + more;
      assert FinishedBy(init, run, [Run(t, newId)] + more);
    }
  }
}
