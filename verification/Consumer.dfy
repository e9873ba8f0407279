/** The notification consumer: one thread that takes deliveries from the queue, deduplicates them
    against the notify records, calls the merchant at most three times and acks or dead-letters.
    Broker connections and the process itself may fail between any two steps. */
module Consumer {
  import opened Prelude

  const MAX_RETRIES := 2

  /** A body that does not parse or lacks a required field is Malformed. */
  datatype Body = Malformed(tag: nat) | Notice(msgId: nat, orderNo: nat, amountFen: int)
  datatype Status = Pending | Notified | Failed
  datatype Rec = Rec(notifyNo: nat, orderNo: nat, status: Status, retryCount: nat)
  type Table = map<nat, Rec>

  // ---- Statements on t_notify_record, keyed by message id ----

  predicate NumberTaken(recs: Table, no: nat) { exists m :: m in recs && recs[m].notifyNo == no }

  /** Affected rows are 1 exactly when neither unique key is taken. */
  function InsertWithDedup(recs: Table, msgId: nat, orderNo: nat, no: nat): (bool, Table) {
    if msgId in recs || NumberTaken(recs, no) then (false, recs)
    else (true, recs[msgId := Rec(no, orderNo, Pending, 0)])
  }

  function MarkSuccess(recs: Table, no: nat): Table {
    map m | m in recs :: if recs[m].notifyNo == no then recs[m].(status := Notified) else recs[m]
  }

  function MarkFailed(recs: Table, no: nat, retryCount: nat): Table {
    map m | m in recs ::
      if recs[m].notifyNo == no then recs[m].(status := Failed, retryCount := retryCount) else recs[m]
  }

  // ---- Processing one body without interruption ----

  /** What the merchant calls lead to; `answers[i]` is whether call i is answered with 200. */
  datatype Handled = Handled(recs: Table, ack: bool, attempts: nat)

  function FirstYes(answers: seq<bool>, i: nat): (k: nat)
    requires i <= |answers|
    ensures i <= k <= |answers|
    ensures k < |answers| ==> answers[k]
    ensures forall j :: i <= j < k ==> !answers[j]
    decreases |answers| - i
  {
    if i == |answers| || answers[i] then i else FirstYes(answers, i + 1)
  }

  function Processed(recs: Table, body: Body, no: nat, answers: seq<bool>): Handled
    requires |answers| == MAX_RETRIES + 1
  {
    match body
    case Malformed(_) => Handled(recs, false, 0)
    case Notice(m, o, _) =>
      if m in recs || NumberTaken(recs, no) then Handled(recs, true, 0)
      else
        var k := FirstYes(answers, 0);
        if k < |answers| then Handled(recs[m := Rec(no, o, Notified, 0)], true, k + 1)
        else Handled(recs[m := Rec(no, o, Failed, MAX_RETRIES + 1)], false, MAX_RETRIES + 1)
  }

  lemma MarkOnly(recs: Table, m: nat, r: Rec, n: nat)
    requires m !in recs && !NumberTaken(recs, r.notifyNo)
    ensures MarkSuccess(recs[m := r], r.notifyNo) == recs[m := r.(status := Notified)]
    ensures MarkFailed(recs[m := r], r.notifyNo, n) == recs[m := r.(status := Failed, retryCount := n)]
  {
  }

  class NotifyConsumer {
    var recs: Table

    constructor ()
      ensures recs == map[]
    {
      recs := map[];
    }

    /** The verdict (ack or dead-letter), the record left behind and the number of merchant calls,
        all from the position of the first positive answer among three. */
    method Process(body: Body, no: nat, answers: seq<bool>) returns (ack: bool, attempts: nat)
      requires |answers| == MAX_RETRIES + 1
      modifies this
      ensures Handled(recs, ack, attempts) == Processed(old(recs), body, no, answers)
    {
      attempts := 0;
      if body.Malformed? {
        return false, 0;
      }
      var (inserted, table) := InsertWithDedup(recs, body.msgId, body.orderNo, no);
      recs := table;
      if !inserted {
        return true, 0;
      }
      MarkOnly(old(recs), body.msgId, Rec(no, body.orderNo, Pending, 0), MAX_RETRIES + 1);
      var attempt := 0;
      while true
        invariant attempts == attempt <= MAX_RETRIES
        invariant recs == table
        invariant forall j :: 0 <= j < attempt ==> !answers[j]
        decreases MAX_RETRIES - attempt
      {
        attempts := attempts + 1;
        if answers[attempt] {
          recs := MarkSuccess(recs, no);
          return true, attempts;
        }
        attempt := attempt + 1;
        if attempt > MAX_RETRIES {
          recs := MarkFailed(recs, no, attempt);
          return false, attempts;
        }
      }
    }
  }

  // ---- The same steps as a machine that can be cut off anywhere ----

  /** Trying counts the failed calls so far; Delivered and Exhausted still have to be recorded. */
  datatype Phase = Got | Trying(no: nat, attempt: nat) | Delivered(no: nat) | Exhausted(no: nat) | Decided(ack: bool)
  /** `held` says whether the connection the delivery came on is still open. */
  datatype Work = Work(body: Body, phase: Phase, held: bool)

  /** A delivery stays in the queue until its ack or nack arrives; entered is the history of all
      bodies the queue took in. */
  datatype Broker = Broker(queue: multiset<Body>, acked: multiset<Body>, dead: multiset<Body>, entered: multiset<Body>)

  function Take(q: Broker, b: Body): Broker { q.(queue := q.queue + multiset{b}, entered := q.entered + multiset{b}) }

  function Settle(q: Broker, b: Body, ack: bool): Broker {
    if ack then q.(queue := q.queue - multiset{b}, acked := q.acked + multiset{b})
    else q.(queue := q.queue - multiset{b}, dead := q.dead + multiset{b})
  }

  /** attempts, successes and interrupted are history: merchant calls per message, and messages
      whose processing was cut off between the insert and the final mark. */
  datatype State = State(broker: Broker, recs: Table, cur: Option<Work>, lastNo: nat,
                         attempts: map<nat, nat>, successes: map<nat, nat>, interrupted: set<nat>)

  datatype Action =
    | Enqueue(body: Body) | Deliver(b: Body) | Insert(no: nat) | Attempt(ok: bool) | Record
    | Reply | ConnectionLost | Crash

  function Count(m: map<nat, nat>, id: nat): nat { if id in m then m[id] else 0 }

  predicate Working(s: State) {
    s.cur.Some? && s.cur.value.body.Notice? && s.cur.value.phase != Got && !s.cur.value.phase.Decided?
  }

  predicate Enabled(s: State, a: Action) {
    match a
    case Enqueue(_) => true
    case Deliver(b) => s.cur.None? && b in s.broker.queue
    case Insert(no) => s.cur.Some? && s.cur.value.phase == Got && no > s.lastNo
    case Attempt(_) => Working(s) && s.cur.value.phase.Trying?
    case Record => Working(s) && (s.cur.value.phase.Delivered? || s.cur.value.phase.Exhausted?)
    case Reply => s.cur.Some? && s.cur.value.phase.Decided?
    case ConnectionLost => true
    case Crash => true
  }

  function At(s: State, phase: Phase): State
    requires s.cur.Some?
  {
    s.(cur := Some(s.cur.value.(phase := phase)))
  }

  function Next(s: State, a: Action): State
    requires Enabled(s, a)
  {
    match a
    case Enqueue(b) => s.(broker := Take(s.broker, b))
    case Deliver(b) => s.(cur := Some(Work(b, Got, true)))
    case Insert(no) => (
      match s.cur.value.body
      case Malformed(_) => At(s, Decided(false))
      case Notice(m, o, _) =>
        var (inserted, recs) := InsertWithDedup(s.recs, m, o, no);
        At(s, if inserted then Trying(no, 0) else Decided(true)).(recs := recs, lastNo := no))
    case Attempt(ok) =>
      var m, p := s.cur.value.body.msgId, s.cur.value.phase;
      var n := s.(attempts := s.attempts[m := Count(s.attempts, m) + 1],
                  successes := if ok then s.successes[m := Count(s.successes, m) + 1] else s.successes);
      At(n, if ok then Delivered(p.no)
            else if p.attempt + 1 > MAX_RETRIES then Exhausted(p.no) else Trying(p.no, p.attempt + 1))
    case Record =>
      var p := s.cur.value.phase;
      if p.Delivered? then At(s, Decided(true)).(recs := MarkSuccess(s.recs, p.no))
      else At(s, Decided(false)).(recs := MarkFailed(s.recs, p.no, MAX_RETRIES + 1))
    case Reply =>
      var w := s.cur.value;
      s.(cur := None, broker := if w.held then Settle(s.broker, w.body, w.phase.ack) else s.broker)
    case ConnectionLost => if s.cur.None? then s else s.(cur := Some(s.cur.value.(held := false)))
    case Crash =>
      s.(cur := None,
         interrupted := if Working(s) then s.interrupted + {s.cur.value.body.msgId} else s.interrupted)
  }

  // ---- Invariant ----

  predicate NumbersOk(recs: Table, lastNo: nat) {
    && (forall m :: m in recs ==> recs[m].notifyNo <= lastNo)
    && (forall m, k | m in recs && k in recs :: recs[m].notifyNo == recs[k].notifyNo ==> m == k)
  }

  /** Everything there is to know about one message: its record, its merchant calls, and whether
      its processing was cut off. */
  datatype Story = Story(rec: Option<Rec>, attempts: nat, successes: nat, cut: bool)

  function Of(s: State, m: nat): Story {
    Story(if m in s.recs then Some(s.recs[m]) else None,
          Count(s.attempts, m), Count(s.successes, m), m in s.interrupted)
  }

  const Untold: Story := Story(None, 0, 0, false)

  /** A final record that matches what the merchant saw, or a pending one left by an interruption. */
  predicate Settled(v: Story) {
    v.rec.Some? && match v.rec.value.status
      case Pending => v.cut && v.rec.value.retryCount == 0 && v.attempts <= 3 && v.successes <= 1
      case Notified => !v.cut && v.successes == 1 && 1 <= v.attempts <= 3 && v.rec.value.retryCount == 0
      case Failed => !v.cut && v.successes == 0 && v.attempts == 3 && v.rec.value.retryCount == 3
  }

  /** The record being worked on. */
  predicate InHand(v: Story, phase: Phase, orderNo: nat) {
    match phase
    case Trying(no, k) => k <= MAX_RETRIES && v == Story(Some(Rec(no, orderNo, Pending, 0)), k, 0, false)
    case Delivered(no) => 1 <= v.attempts <= 3 && v == Story(Some(Rec(no, orderNo, Pending, 0)), v.attempts, 1, false)
    case Exhausted(no) => v == Story(Some(Rec(no, orderNo, Pending, 0)), 3, 0, false)
    case _ => false
  }

  predicate WorkingOn(s: State, m: nat) { Working(s) && s.cur.value.body.msgId == m }

  predicate StoryOk(s: State, m: nat) {
    if WorkingOn(s, m) then InHand(Of(s, m), s.cur.value.phase, s.cur.value.body.orderNo)
    else Of(s, m) == Untold || Settled(Of(s, m))
  }

  ghost predicate StoriesOk(s: State) { forall m :: StoryOk(s, m) }

  predicate AckOk(s: State, b: Body) { b.Notice? && Settled(Of(s, b.msgId)) }

  predicate DeadOk(s: State, b: Body) {
    b.Malformed? || (Settled(Of(s, b.msgId)) && Of(s, b.msgId).rec.value.status == Failed)
  }

  predicate WorkOk(s: State) {
    s.cur.Some? ==>
      var w := s.cur.value;
      && w.body in s.broker.queue
      && (!w.phase.Got? && !w.phase.Decided? ==> w.body.Notice?)
      && (w.phase.Decided? ==> if w.phase.ack then AckOk(s, w.body) else DeadOk(s, w.body))
  }

  predicate Conserved(q: Broker) { q.entered == q.queue + q.acked + q.dead }

  predicate QueueOk(s: State) {
    && Conserved(s.broker)
    && (forall b :: b in s.broker.acked ==> AckOk(s, b))
    && (forall b :: b in s.broker.dead ==> DeadOk(s, b))
  }

  predicate NamesOrder(recs: Table, m: nat, b: Body) {
    m in recs && b.Notice? && b.msgId == m && b.orderNo == recs[m].orderNo
  }

  predicate FromQueue(entered: multiset<Body>, recs: Table) {
    forall m :: m in recs ==> exists b :: b in entered && NamesOrder(recs, m, b)
  }

  ghost predicate Inv(s: State) {
    NumbersOk(s.recs, s.lastNo) && StoriesOk(s) && WorkOk(s) && QueueOk(s) && FromQueue(s.broker.entered, s.recs)
  }

  /** A step can only touch the message in hand; marking by notify number hits no other record. */
  lemma OthersUntouched(s: State, a: Action, m: nat)
    requires NumbersOk(s.recs, s.lastNo) && Enabled(s, a)
    requires !(s.cur.Some? && s.cur.value.body.Notice? && s.cur.value.body.msgId == m)
    requires Working(s) ==> StoryOk(s, s.cur.value.body.msgId)
    ensures Of(Next(s, a), m) == Of(s, m)
  {
    hide NumbersOk, StoryOk, NumberTaken, MarkSuccess, MarkFailed;
    if a.Record? { OthersUnmarked(s, m); }
  }

  lemma OthersUnmarked(s: State, m: nat)
    requires NumbersOk(s.recs, s.lastNo) && Enabled(s, Record)
    requires s.cur.value.body.msgId != m && StoryOk(s, s.cur.value.body.msgId)
    ensures Of(Next(s, Record), m) == Of(s, m)
  {
  }

  lemma NumbersKept(s: State, a: Action)
    requires NumbersOk(s.recs, s.lastNo) && Enabled(s, a)
    ensures NumbersOk(Next(s, a).recs, Next(s, a).lastNo)
  {
  }

  /** The steps on the message in hand: insert or skip, call the merchant, record. */
  lemma InHandKept(s: State, a: Action, m: nat)
    requires NumbersOk(s.recs, s.lastNo) && WorkOk(s) && Enabled(s, a) && StoryOk(s, m)
    requires s.cur.Some? && s.cur.value.body.Notice? && s.cur.value.body.msgId == m
    ensures StoryOk(Next(s, a), m)
    ensures Settled(Of(s, m)) ==> Of(Next(s, a), m) == Of(s, m)
    ensures Next(s, a).cur.Some? && Next(s, a).cur.value.phase.Decided? ==> Settled(Of(Next(s, a), m))
    ensures Next(s, a).cur.Some? && Next(s, a).cur.value.phase == Decided(false) ==>
              Of(Next(s, a), m).rec.value.status == Failed
  {
  }

  lemma StoriesKept(s: State, a: Action, m: nat)
    requires NumbersOk(s.recs, s.lastNo) && StoriesOk(s) && WorkOk(s) && Enabled(s, a)
    ensures StoryOk(Next(s, a), m)
    ensures Settled(Of(s, m)) ==> Of(Next(s, a), m) == Of(s, m)
  {
    hide Of, Settled, InHand, NumbersOk, InsertWithDedup, MarkSuccess, MarkFailed;
    assert StoryOk(s, m);
    if s.cur.Some? && s.cur.value.body.Notice? && s.cur.value.body.msgId == m {
      InHandKept(s, a, m);
    } else {
      assert Working(s) ==> StoryOk(s, s.cur.value.body.msgId);
      OthersUntouched(s, a, m);
    }
  }

  lemma WorkKept(s: State, a: Action)
    requires NumbersOk(s.recs, s.lastNo) && StoriesOk(s) && WorkOk(s) && Enabled(s, a)
    ensures WorkOk(Next(s, a))
  {
    hide Of, Settled, InHand, NumbersOk, InsertWithDedup, MarkSuccess, MarkFailed, StoryOk;
    if s.cur.Some? && s.cur.value.body.Notice? {
      assert StoryOk(s, s.cur.value.body.msgId);
      InHandKept(s, a, s.cur.value.body.msgId);
    }
  }

  lemma BrokerConserves(q: Broker, b: Body, ack: bool)
    requires Conserved(q)
    ensures Conserved(Take(q, b)) && Take(q, b).acked == q.acked && Take(q, b).dead == q.dead
    ensures forall x :: x in q.entered ==> x in Take(q, b).entered
    ensures b in q.queue ==> Conserved(Settle(q, b, ack)) && Settle(q, b, ack).entered == q.entered
    ensures forall x :: x in Settle(q, b, ack).acked ==> x in q.acked || (x == b && ack)
    ensures forall x :: x in Settle(q, b, ack).dead ==> x in q.dead || (x == b && !ack)
  {
  }

  /** Only a reply on an open connection moves a body out of the queue, and nothing is lost. */
  lemma QueueMoves(s: State, a: Action)
    requires Enabled(s, a) && Conserved(s.broker)
    requires s.cur.Some? ==> s.cur.value.body in s.broker.queue
    ensures var q, q' := s.broker, Next(s, a).broker;
            && Conserved(q')
            && (forall b :: b in q.entered ==> b in q'.entered)
            && (forall b :: b in q'.acked ==> b in q.acked || s.cur == Some(Work(b, Decided(true), true)))
            && (forall b :: b in q'.dead ==> b in q.dead || s.cur == Some(Work(b, Decided(false), true)))
  {
    hide InsertWithDedup, MarkSuccess, MarkFailed, Count, Conserved, Take, Settle;
    if a.Enqueue? { BrokerConserves(s.broker, a.body, true); }
    if a.Reply? { BrokerConserves(s.broker, s.cur.value.body, s.cur.value.phase.ack); }
  }

  lemma QueueKept(s: State, a: Action)
    requires NumbersOk(s.recs, s.lastNo) && StoriesOk(s) && WorkOk(s) && QueueOk(s) && Enabled(s, a)
    ensures QueueOk(Next(s, a))
  {
    hide Of, Settled, NumbersOk, StoriesOk, Next, Enabled;
    var s' := Next(s, a);
    QueueMoves(s, a);
    forall b | b in s'.broker.acked ensures AckOk(s', b) {
      assert AckOk(s, b);
      StoriesKept(s, a, b.msgId);
    }
    forall b | b in s'.broker.dead ensures DeadOk(s', b) {
      assert DeadOk(s, b);
      if b.Notice? { StoriesKept(s, a, b.msgId); }
    }
  }

  lemma {:induction false} OrdersKept(entered: multiset<Body>, recs: Table, more: multiset<Body>, recs': Table)
    requires FromQueue(entered, recs)
    requires forall b :: b in entered ==> b in more
    requires forall m :: m in recs' ==>
      (m in recs && recs'[m].orderNo == recs[m].orderNo) || (exists b :: b in more && NamesOrder(recs', m, b))
    ensures FromQueue(more, recs')
  {
    forall m | m in recs' ensures exists b :: b in more && NamesOrder(recs', m, b) {
      if m in recs && recs'[m].orderNo == recs[m].orderNo {
        var b :| b in entered && NamesOrder(recs, m, b);
        assert b in more && NamesOrder(recs', m, b);
      }
    }
  }

  /** Records keep their order number; a new one takes it from the body in hand. */
  lemma OrderNumbersStay(s: State, a: Action, m: nat)
    requires Enabled(s, a) && m in Next(s, a).recs
    ensures (m in s.recs && Next(s, a).recs[m].orderNo == s.recs[m].orderNo)
         || (s.cur.Some? && NamesOrder(Next(s, a).recs, m, s.cur.value.body))
  {
    hide Count, NumberTaken;
  }

  lemma FromQueueKept(s: State, a: Action)
    requires WorkOk(s) && QueueOk(s) && FromQueue(s.broker.entered, s.recs) && Enabled(s, a)
    ensures FromQueue(Next(s, a).broker.entered, Next(s, a).recs)
  {
    hide FromQueue, AckOk, DeadOk, Next, Enabled;
    var s' := Next(s, a);
    QueueMoves(s, a);
    forall m | m in s'.recs
      ensures || (m in s.recs && s'.recs[m].orderNo == s.recs[m].orderNo)
              || (exists b :: b in s'.broker.entered && NamesOrder(s'.recs, m, b))
    {
      OrderNumbersStay(s, a, m);
    }
    OrdersKept(s.broker.entered, s.recs, s'.broker.entered, s'.recs);
  }

  lemma NextKeeps(s: State, a: Action)
    requires Inv(s) && Enabled(s, a)
    ensures Inv(Next(s, a))
  {
    hide NumbersOk, StoryOk, WorkOk, QueueOk, FromQueue, Next, Enabled;
    NumbersKept(s, a);
    forall m ensures StoryOk(Next(s, a), m) { StoriesKept(s, a, m); }
    WorkKept(s, a);
    QueueKept(s, a);
    FromQueueKept(s, a);
  }

  const Start: State := State(Broker(multiset{}, multiset{}, multiset{}, multiset{}), map[], None, 0, map[], map[], {})

  function After(s: State, run: seq<Action>): Option<State> {
    if run == [] then Some(s)
    else
      var prev := After(s, run[..|run|-1]);
      if prev.Some? && Enabled(prev.value, run[|run|-1]) then Some(Next(prev.value, run[|run|-1])) else None
  }

  lemma {:induction false} Invariant(run: seq<Action>)
    requires After(Start, run).Some?
    ensures Inv(After(Start, run).value)
  {
    hide Next, Enabled;
    if run != [] {
      hide Inv;
      Invariant(run[..|run|-1]);
      NextKeeps(After(Start, run[..|run|-1]).value, run[|run|-1]);
    }
  }

  // ---- What every run guarantees ----

  /** Whatever is redelivered, lost or cut off, the merchant is called at most three times per
      message and told of success at most once, and never without a record. */
  lemma AtMostThreeCalls(run: seq<Action>, s: State, m: nat)
    requires After(Start, run) == Some(s)
    ensures Count(s.attempts, m) <= 3 && Count(s.successes, m) <= 1
    ensures m !in s.recs ==> Count(s.attempts, m) == 0
  {
    hide After, NumbersOk, WorkOk, QueueOk, FromQueue;
    Invariant(run);
    assert StoryOk(s, m);
  }

  /** No body vanishes: each is queued, acked or dead-lettered. A well-formed body that left the
      queue has a record, final exactly if its processing was never interrupted; a dead-lettered
      one failed three times. */
  lemma LeavingIsSettled(run: seq<Action>, s: State, b: Body)
    requires After(Start, run) == Some(s)
    ensures s.broker.entered == s.broker.queue + s.broker.acked + s.broker.dead
    ensures b.Notice? && (b in s.broker.acked || b in s.broker.dead) ==>
      && b.msgId in s.recs
      && (s.recs[b.msgId].status != Pending <==> b.msgId !in s.interrupted)
    ensures b.Notice? && b in s.broker.dead ==>
      && s.recs[b.msgId].status == Failed && s.recs[b.msgId].retryCount == 3
      && Count(s.attempts, b.msgId) == 3 && Count(s.successes, b.msgId) == 0
    ensures b.Malformed? ==> b !in s.broker.acked
  {
    hide After, NumbersOk, WorkOk, StoryOk, FromQueue;
    Invariant(run);
  }

  /** The record tells what the merchant saw: notified means exactly one success, failed means
      three refusals, and pending means in hand or interrupted. */
  lemma RecordTellsTruth(run: seq<Action>, s: State, m: nat)
    requires After(Start, run) == Some(s) && m in s.recs
    ensures s.recs[m].status == Notified ==> Count(s.successes, m) == 1 && 1 <= Count(s.attempts, m)
    ensures s.recs[m].status == Failed ==> Count(s.successes, m) == 0 && Count(s.attempts, m) == 3
    ensures s.recs[m].status == Pending <==> WorkingOn(s, m) || m in s.interrupted
  {
    hide After, NumbersOk, WorkOk, QueueOk, FromQueue;
    Invariant(run);
    assert StoryOk(s, m);
  }

  /** A settled message stays as it is in every continuation. */
  lemma {:induction false} SettledForever(run: seq<Action>, more: seq<Action>, m: nat)
    requires After(Start, run + more).Some? && After(Start, run).Some? && Settled(Of(After(Start, run).value, m))
    ensures Of(After(Start, run + more).value, m) == Of(After(Start, run).value, m)
    decreases |more|
  {
    hide Next, Enabled, Of, Settled, NumbersOk, StoryOk, WorkOk, QueueOk, FromQueue;
    if more == [] {
      assert run + more == run;
    } else {
      var front := more[..|more|-1];
      assert (run + more)[..|run + more|-1] == run + front;
      SettledForever(run, front, m);
      Invariant(run + front);
      StoriesKept(After(Start, run + front).value, more[|more|-1], m);
    }
  }

  /** Every message can be cut off before its first merchant call: by a crash right after the insert. */
  lemma CrashCutsOff(m: nat, o: nat, amount: int)
    ensures var b := Notice(m, o, amount);
            var s := After(Start, [Enqueue(b), Deliver(b), Insert(1), Crash]);
            && s.Some? && s.value.cur.None? && b in s.value.broker.queue
            && Of(s.value, m) == Story(Some(Rec(1, o, Pending, 0)), 0, 0, true)
  {
    var b := Notice(m, o, amount);
    var run := [Enqueue(b), Deliver(b), Insert(1), Crash];
    assert run[..3] == [Enqueue(b), Deliver(b), Insert(1)];
    assert run[..3][..2] == [Enqueue(b), Deliver(b)];
    assert run[..3][..2][..1] == [Enqueue(b)];
    assert run[..3][..2][..1][..0] == [];
    var s1 := Next(Start, Enqueue(b));
    assert After(Start, [Enqueue(b)]) == Some(s1);
    var s2 := Next(s1, Deliver(b));
    assert After(Start, [Enqueue(b), Deliver(b)]) == Some(s2);
    var s3 := Next(s2, Insert(1));
    assert After(Start, [Enqueue(b), Deliver(b), Insert(1)]) == Some(s3);
  }

  /** A redelivered copy of any recorded message is acked as a duplicate, without a merchant call:
      for an interrupted one the notification is lost. */
  lemma RedeliveryIsAcked(s: State, b: Body, no: nat)
    requires s.cur.None? && b.Notice? && b in s.broker.queue && b.msgId in s.recs && no > s.lastNo
    ensures var s' := After(s, [Deliver(b), Insert(no), Reply]);
            && s'.Some? && s'.value.broker == Settle(s.broker, b, true) && s'.value.cur.None?
            && Of(s'.value, b.msgId) == Of(s, b.msgId)
  {
    hide Settle;
    var run := [Deliver(b), Insert(no), Reply];
    assert run[..2] == [Deliver(b), Insert(no)];
    assert run[..2][..1] == [Deliver(b)];
    assert run[..2][..1][..0] == [];
    var s1 := Next(s, Deliver(b));
    assert After(s, [Deliver(b)]) == Some(s1);
    var s2 := Next(s1, Insert(no));
    assert After(s, [Deliver(b), Insert(no)]) == Some(s2);
  }

  /** "Duplicate" means a repeated message id because notify numbers are never reused; a reused
      number would make the consumer ack a message it has never recorded. */
  lemma FreshNumbersDecide(run: seq<Action>, s: State, m: nat, o: nat, amount: int, no: nat, answers: seq<bool>)
    requires After(Start, run) == Some(s) && |answers| == MAX_RETRIES + 1
    ensures no > s.lastNo ==> (InsertWithDedup(s.recs, m, o, no).0 <==> m !in s.recs)
    ensures m !in s.recs && NumberTaken(s.recs, no) ==>
              Processed(s.recs, Notice(m, o, amount), no, answers) == Handled(s.recs, true, 0)
  {
    hide After, StoryOk, WorkOk, QueueOk, FromQueue;
    Invariant(run);
  }

  // ---- An uninterrupted pass through the machine is Process ----

  lemma {:induction false} AfterCons(s: State, a: Action, run: seq<Action>)
    requires Enabled(s, a)
    ensures After(s, [a] + run) == After(Next(s, a), run)
    decreases |run|
  {
    hide Next, Enabled;
    var all := [a] + run;
    if run == [] {
      assert all[..0] == [];
    } else {
      AfterCons(s, a, run[..|run|-1]);
      assert all[..|all|-1] == [a] + run[..|run|-1];
    }
  }

  function Calls(answers: seq<bool>, i: nat): seq<Action>
    requires i <= |answers|
    decreases |answers| - i
  {
    if i == |answers| then [Record]
    else if answers[i] then [Attempt(true), Record]
    else [Attempt(false)] + Calls(answers, i + 1)
  }

  /** From Trying(no, i) on, the merchant's answers lead to the record and verdict of the first
      positive one. */
  lemma {:induction false} CallsLead(s: State, answers: seq<bool>, i: nat)
    requires |answers| == MAX_RETRIES + 1 && i <= MAX_RETRIES
    requires Working(s) && s.cur.value.phase.Trying? && s.cur.value.phase.attempt == i
    ensures var k := FirstYes(answers, i);
            var yes := k < |answers|;
            var m, no := s.cur.value.body.msgId, s.cur.value.phase.no;
            var s' := After(s, Calls(answers, i));
            && s'.Some?
            && s'.value.cur == Some(s.cur.value.(phase := Decided(yes)))
            && s'.value.recs == (if yes then MarkSuccess(s.recs, no) else MarkFailed(s.recs, no, MAX_RETRIES + 1))
            && s'.value.broker == s.broker
            && Count(s'.value.attempts, m) == Count(s.attempts, m) + (if yes then k + 1 - i else MAX_RETRIES + 1 - i)
    decreases |answers| - i
  {
    hide MarkSuccess, MarkFailed;
    var n := Next(s, Attempt(answers[i]));
    if answers[i] {
      assert Calls(answers, i) == [Attempt(true)] + [Record];
      AfterCons(s, Attempt(true), [Record]);
      AfterCons(n, Record, []);
      assert [Record] == [Record] + [];
    } else {
      AfterCons(s, Attempt(false), Calls(answers, i + 1));
      if i < MAX_RETRIES {
        CallsLead(n, answers, i + 1);
      } else {
        AfterCons(n, Record, []);
        assert Calls(answers, i + 1) == [Record] + [];
      }
    }
  }

  /** Left alone, the machine does to a delivery exactly what Process does to its body. */
  lemma UninterruptedIsProcess(s: State, no: nat, answers: seq<bool>)
    requires |answers| == MAX_RETRIES + 1
    requires s.cur.Some? && s.cur.value.phase == Got && no > s.lastNo
    ensures var body := s.cur.value.body;
            var h := Processed(s.recs, body, no, answers);
            var run := [Insert(no)] + if h.attempts == 0 then [] else Calls(answers, 0);
            var s' := After(s, run);
            && s'.Some? && s'.value.recs == h.recs && s'.value.cur == Some(s.cur.value.(phase := Decided(h.ack)))
            && s'.value.broker == s.broker
            && (body.Notice? ==> Count(s'.value.attempts, body.msgId) == Count(s.attempts, body.msgId) + h.attempts)
  {
    var body := s.cur.value.body;
    var h := Processed(s.recs, body, no, answers);
    var n := Next(s, Insert(no));
    if h.attempts == 0 {
      AfterCons(s, Insert(no), []);
    } else {
      hide MarkSuccess, MarkFailed, NumberTaken;
      MarkOnly(s.recs, body.msgId, Rec(no, body.orderNo, Pending, 0), MAX_RETRIES + 1);
      AfterCons(s, Insert(no), Calls(answers, 0));
      CallsLead(n, answers, 0);
    }
  }
}
