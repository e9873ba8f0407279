/** From payment to merchant: the ledger's outbox, the relay, the broker and the consumer as one
    machine. A commit stores its outbox rows for the relay in the same step. A confirmed publish is in
    the queue; an unconfirmed one may have reached the broker or not, and the broker may enqueue
    whatever was ever published to it, at any time and any number of times. Foreign malformed bodies
    may turn up, and every part may fail at any step. */
module Pipeline {
  import opened Prelude
  import opened Tables
  import LedgerSpec
  import Ledger
  import LedgerInvariant
  import Relay
  import Consumer

  datatype State = State(ledger: Ledger.State, relay: Relay.State, consumer: Consumer.State, published: set<nat>)

  datatype Action =
    | Trade(la: Ledger.Action)
    | Relayed(ra: Relay.Action)
    | Enqueue(id: nat)
    | Garbage(tag: nat)
    | Consume(ca: Consumer.Action)

  /** The payload of an outbox row. */
  function Payload(messages: map<nat, Message>, id: nat): Consumer.Body
    requires id in messages
  {
    Consumer.Notice(id, messages[id].orderNo, messages[id].amountFen)
  }

  predicate Enabled(s: State, a: Action) {
    match a
    case Trade(la) => Ledger.Enabled(s.ledger, la)
    case Relayed(ra) => !ra.Store? && Relay.Enabled(s.relay, ra)
    case Enqueue(id) => id in s.published && id in s.ledger.db.messages
    case Garbage(_) => true
    case Consume(ca) => !ca.Enqueue? && Consumer.Enabled(s.consumer, ca)
  }

  /** The outbox rows a step added. */
  function NewRows(before: map<nat, Message>, after: map<nat, Message>, rows: map<nat, Relay.Row>): set<nat> {
    set id | id in after && id !in before && id !in rows
  }

  function Sent(s: Relay.State, ra: Relay.Action): set<nat> {
    if (ra.Publish? || ra.PublishThrows?) && Relay.Enabled(s, ra) then {s.tasks[ra.t].batch[s.tasks[ra.t].i].id} else {}
  }

  predicate Confirms(s: State, ra: Relay.Action) {
    && ra.Publish? && ra.ok && Relay.Enabled(s.relay, ra)
    && s.relay.tasks[ra.t].batch[s.relay.tasks[ra.t].i].id in s.ledger.db.messages
  }

  function ConfirmedEnqueue(s: State, ra: Relay.Action): Consumer.Action
    requires Confirms(s, ra)
  {
    Consumer.Enqueue(Payload(s.ledger.db.messages, s.relay.tasks[ra.t].batch[s.relay.tasks[ra.t].i].id))
  }

  function Next(s: State, a: Action): State
    requires Enabled(s, a)
  {
    match a
    case Trade(la) =>
      var ledger := Ledger.Next(s.ledger, la);
      var rows := NewRows(s.ledger.db.messages, ledger.db.messages, s.relay.rows);
      s.(ledger := ledger, relay := Relay.Next(s.relay, Relay.Store(rows)))
    case Relayed(ra) =>
      var n := s.(relay := Relay.Next(s.relay, ra), published := s.published + Sent(s.relay, ra));
      if Confirms(s, ra) then n.(consumer := Consumer.Next(s.consumer, ConfirmedEnqueue(s, ra))) else n
    case Enqueue(id) => s.(consumer := Consumer.Next(s.consumer, Consumer.Enqueue(Payload(s.ledger.db.messages, id))))
    case Garbage(tag) => s.(consumer := Consumer.Next(s.consumer, Consumer.Enqueue(Consumer.Malformed(tag))))
    case Consume(ca) => s.(consumer := Consumer.Next(s.consumer, ca))
  }

  function Start(init: Db): State { State(Ledger.Start(init), Relay.Start, Consumer.Start, {}) }

  function After(init: Db, run: seq<Action>): Option<State> {
    if run == [] then Some(Start(init))
    else
      var prev := After(init, run[..|run|-1]);
      if prev.Some? && Enabled(prev.value, run[|run|-1]) then Some(Next(prev.value, run[|run|-1])) else None
  }

  // ---- How the parts fit together ----

  predicate Genuine(b: Consumer.Body, messages: map<nat, Message>, published: set<nat>) {
    b.Notice? ==> b.msgId in published && b.msgId in messages && b == Payload(messages, b.msgId)
  }

  predicate Linked(messages: map<nat, Message>, rows: map<nat, Relay.Row>, published: set<nat>,
                   entered: multiset<Consumer.Body>) {
    && rows.Keys == messages.Keys
    && published <= rows.Keys
    && forall b :: b in entered ==> Genuine(b, messages, published)
  }

  predicate HasEntered(id: nat, messages: map<nat, Message>, entered: multiset<Consumer.Body>) {
    id in messages && Payload(messages, id) in entered
  }

  predicate TaskArrived(task: Relay.Task, messages: map<nat, Message>, entered: multiset<Consumer.Body>) {
    task.Marking? && task.ok && task.i < |task.batch| ==> HasEntered(task.batch[task.i].id, messages, entered)
  }

  /** What the relay takes for confirmed did enter the queue. */
  predicate Arrived(relay: Relay.State, messages: map<nat, Message>, entered: multiset<Consumer.Body>) {
    && (forall id :: id in relay.rows && relay.rows[id].status == Relay.Acked ==> HasEntered(id, messages, entered))
    && (forall t :: t in relay.tasks ==> TaskArrived(relay.tasks[t], messages, entered))
  }

  ghost predicate Inv(s: State) {
    && LedgerInvariant.Inv(s.ledger) && Relay.Inv(s.relay) && Consumer.Inv(s.consumer)
    && Linked(s.ledger.db.messages, s.relay.rows, s.published, s.consumer.broker.entered)
    && Arrived(s.relay, s.ledger.db.messages, s.consumer.broker.entered)
  }

  lemma TradeKeeps(s: State, la: Ledger.Action)
    requires Inv(s) && Enabled(s, Trade(la))
    ensures Inv(Next(s, Trade(la)))
  {
    hide LedgerInvariant.Inv, Relay.Inv, Consumer.Inv, Ledger.Next, Ledger.Enabled, Payload;
    hide LedgerSpec.ProductsEvolve, LedgerSpec.AccountsEvolve, LedgerSpec.OrdersEvolve;
    LedgerInvariant.NextKeeps(s.ledger, la);
    var ledger := Ledger.Next(s.ledger, la);
    Relay.NextKeeps(s.relay, Relay.Store(NewRows(s.ledger.db.messages, ledger.db.messages, s.relay.rows)));
    SamePayloads(s.ledger.db.messages, ledger.db.messages, s.published, s.consumer.broker.entered);
    var entered := s.consumer.broker.entered;
    StaysArrived(s.relay, s.ledger.db.messages, ledger.db.messages, entered, entered);
    hide Arrived, Linked, LedgerSpec.Extends;
    var rows := NewRows(s.ledger.db.messages, ledger.db.messages, s.relay.rows);
    StoreArrived(s.relay, rows, ledger.db.messages, entered);
  }

  lemma StaysArrived(relay: Relay.State, a: map<nat, Message>, b: map<nat, Message>, e: multiset<Consumer.Body>,
                     f: multiset<Consumer.Body>)
    requires Arrived(relay, a, e) && LedgerSpec.Extends(a, b) && forall x :: x in e ==> x in f
    ensures Arrived(relay, b, f)
  {
  }

  lemma StoreArrived(relay: Relay.State, ids: set<nat>, messages: map<nat, Message>, entered: multiset<Consumer.Body>)
    requires Arrived(relay, messages, entered) && Relay.Enabled(relay, Relay.Store(ids))
    ensures Arrived(Relay.Next(relay, Relay.Store(ids)), messages, entered)
  {
    hide HasEntered;
  }

  /** A relay step that publishes nothing confirmed, or whose confirmed message has entered. */
  lemma RelayArrived(relay: Relay.State, ra: Relay.Action, messages: map<nat, Message>,
                     entered: multiset<Consumer.Body>)
    requires Arrived(relay, messages, entered) && Relay.Enabled(relay, ra) && !ra.Store?
    requires ra.Publish? && ra.ok ==> HasEntered(relay.tasks[ra.t].batch[relay.tasks[ra.t].i].id, messages, entered)
    ensures Arrived(Relay.Next(relay, ra), messages, entered)
  {
    hide HasEntered, Relay.ScanPending;
    if ra.Mark? { assert TaskArrived(relay.tasks[ra.t], messages, entered); }
  }

  lemma SamePayloads(a: map<nat, Message>, b: map<nat, Message>, published: set<nat>, entered: multiset<Consumer.Body>)
    requires LedgerSpec.Extends(a, b)
    requires forall e :: e in entered ==> Genuine(e, a, published)
    ensures forall e :: e in entered ==> Genuine(e, b, published)
  {
  }

  lemma RelayRowsStay(s: Relay.State, ra: Relay.Action)
    requires Relay.Inv(s) && Relay.Enabled(s, ra) && !ra.Store?
    ensures Relay.Next(s, ra).rows.Keys == s.rows.Keys && Sent(s, ra) <= s.rows.Keys
  {
    hide Relay.RowsOk, Relay.ScanPending, Relay.Marked;
    if ra.Publish? || ra.PublishThrows? { assert Relay.TaskOk(s, s.tasks[ra.t]); }
  }

  lemma RelayKeeps(s: State, ra: Relay.Action)
    requires Inv(s) && Enabled(s, Relayed(ra))
    ensures Inv(Next(s, Relayed(ra)))
  {
    hide LedgerInvariant.Inv, Relay.Inv, Consumer.Inv, Relay.Next, Consumer.Next, Arrived;
    Relay.NextKeeps(s.relay, ra);
    RelayRowsStay(s.relay, ra);
    var messages := s.ledger.db.messages;
    var entered := s.consumer.broker.entered;
    if Confirms(s, ra) {
      var ca := ConfirmedEnqueue(s, ra);
      Consumer.NextKeeps(s.consumer, ca);
      EnteredStays(s.consumer, ca);
      StaysArrived(s.relay, messages, messages, entered, entered + multiset{ca.body});
      RelayArrived(s.relay, ra, messages, entered + multiset{ca.body});
    } else {
      RelayArrived(s.relay, ra, messages, entered);
    }
  }

  lemma EnteredStays(s: Consumer.State, ca: Consumer.Action)
    requires Consumer.Enabled(s, ca)
    ensures !ca.Enqueue? ==> Consumer.Next(s, ca).broker.entered == s.broker.entered
    ensures ca.Enqueue? ==> Consumer.Next(s, ca).broker.entered == s.broker.entered + multiset{ca.body}
  {
    hide Consumer.InsertWithDedup, Consumer.MarkSuccess, Consumer.MarkFailed, Consumer.Count;
  }

  lemma ConsumerKeeps(s: State, a: Action)
    requires Inv(s) && Enabled(s, a) && !a.Trade? && !a.Relayed?
    ensures Inv(Next(s, a))
  {
    hide LedgerInvariant.Inv, Relay.Inv, Consumer.Inv, Consumer.Next, Arrived;
    var ca := match a
      case Enqueue(id) => Consumer.Enqueue(Payload(s.ledger.db.messages, id))
      case Garbage(tag) => Consumer.Enqueue(Consumer.Malformed(tag))
      case Consume(ca) => ca
      case _ => Consumer.Crash;
    Consumer.NextKeeps(s.consumer, ca);
    EnteredStays(s.consumer, ca);
    var messages := s.ledger.db.messages;
    StaysArrived(s.relay, messages, messages, s.consumer.broker.entered, Next(s, a).consumer.broker.entered);
  }

  lemma NextKeeps(s: State, a: Action)
    requires Inv(s) && Enabled(s, a)
    ensures Inv(Next(s, a)) && Next(s, a).ledger.init == s.ledger.init
  {
    hide Inv;
    match a {
      case Trade(la) => TradeKeeps(s, la); InitStays(s.ledger, la);
      case Relayed(ra) => RelayKeeps(s, ra);
      case _ => ConsumerKeeps(s, a);
    }
  }

  lemma InitStays(s: Ledger.State, la: Ledger.Action)
    requires Ledger.Enabled(s, la)
    ensures Ledger.Next(s, la).init == s.init
  {
    hide Ledger.Exec, Ledger.EntryOf, Merge;
  }

  lemma {:induction false} Invariant(init: Db, run: seq<Action>)
    requires LedgerSpec.Initial(init) && After(init, run).Some?
    ensures Inv(After(init, run).value) && After(init, run).value.ledger.init == init
  {
    hide Next, Enabled;
    if run == [] {
      hide LedgerInvariant.Inv;
      LedgerInvariant.StartInv(init);
      Relay.StartInv();
    } else {
      hide Inv, LedgerSpec.Initial;
      Invariant(init, run[..|run|-1]);
      NextKeeps(After(init, run[..|run|-1]).value, run[|run|-1]);
    }
  }

  // ---- What every run guarantees, order by order ----

  function RecordsOf(recs: Consumer.Table, orderNo: nat): Consumer.Table {
    map m | m in recs && recs[m].orderNo == orderNo :: recs[m]
  }

  /** The total over all notify records of an order. */
  ghost function Total(recs: Consumer.Table, counts: map<nat, nat>, orderNo: nat): int {
    MapSum(map m | m in RecordsOf(recs, orderNo) :: Consumer.Count(counts, m) as int)
  }

  lemma TotalOfOne(recs: Consumer.Table, counts: map<nat, nat>, orderNo: nat, m: nat)
    requires forall k | k in recs && recs[k].orderNo == orderNo :: k == m
    ensures Total(recs, counts, orderNo) <= Consumer.Count(counts, m)
    ensures orderNo !in (set k | k in recs :: recs[k].orderNo) ==> Total(recs, counts, orderNo) == 0
  {
    var one := map k | k in RecordsOf(recs, orderNo) :: Consumer.Count(counts, k) as int;
    if m in one {
      MapSumRemove(one, m);
      assert one - {m} == map[];
    } else {
      assert one == map[];
    }
  }

  /** A record's message was published for a paid order. */
  lemma RecordIsGenuine(init: Db, run: seq<Action>, s: State, m: nat)
    requires LedgerSpec.Initial(init) && After(init, run) == Some(s) && m in s.consumer.recs
    ensures m in s.published && m in s.ledger.db.messages
    ensures s.ledger.db.messages[m].orderNo == s.consumer.recs[m].orderNo
    ensures LedgerSpec.IsPaid(s.ledger.db.orders, s.consumer.recs[m].orderNo)
  {
    hide After, LedgerInvariant.Inv, Relay.Inv, LedgerSpec.Initial;
    hide Consumer.NumbersOk, Consumer.StoriesOk, Consumer.WorkOk, Consumer.QueueOk, Arrived;
    Invariant(init, run);
    var b :| b in s.consumer.broker.entered && Consumer.NamesOrder(s.consumer.recs, m, b);
    MessagesOk(s.ledger);
  }

  lemma MessagesOk(s: Ledger.State)
    requires LedgerInvariant.Inv(s)
    ensures LedgerSpec.MessagesMatch(s.db.orders, s.db.messages)
  {
    hide LedgerSpec.MessagesMatch;
  }

  /** Every order, in every run: at most one notify record, at most three merchant calls and one
      success over all its records, and none at all unless it is paid. */
  lemma OrderNotifiedOnce(init: Db, run: seq<Action>, s: State, orderNo: nat, m: nat, k: nat)
    requires LedgerSpec.Initial(init) && After(init, run) == Some(s)
    ensures m in RecordsOf(s.consumer.recs, orderNo) && k in RecordsOf(s.consumer.recs, orderNo) ==> m == k
    ensures Total(s.consumer.recs, s.consumer.attempts, orderNo) <= 3
    ensures Total(s.consumer.recs, s.consumer.successes, orderNo) <= 1
    ensures !LedgerSpec.IsPaid(s.ledger.db.orders, orderNo) ==>
      RecordsOf(s.consumer.recs, orderNo) == map[] && Total(s.consumer.recs, s.consumer.attempts, orderNo) == 0
  {
    var recs := s.consumer.recs;
    forall x, y | x in recs && recs[x].orderNo == orderNo && y in recs && recs[y].orderNo == orderNo ensures x == y {
      SameRecord(init, run, s, x, y);
    }
    if x :| x in recs && recs[x].orderNo == orderNo {
      RecordIsGenuine(init, run, s, x);
      StoryLimits(init, run, s, x);
      TotalOfOne(recs, s.consumer.attempts, orderNo, x);
      TotalOfOne(recs, s.consumer.successes, orderNo, x);
    } else {
      assert RecordsOf(recs, orderNo) == map[];
      TotalOfOne(recs, s.consumer.attempts, orderNo, 0);
      TotalOfOne(recs, s.consumer.successes, orderNo, 0);
    }
  }

  lemma SameRecord(init: Db, run: seq<Action>, s: State, x: nat, y: nat)
    requires LedgerSpec.Initial(init) && After(init, run) == Some(s)
    requires x in s.consumer.recs && y in s.consumer.recs && s.consumer.recs[x].orderNo == s.consumer.recs[y].orderNo
    ensures x == y
  {
    hide After, Inv, LedgerInvariant.Inv, LedgerSpec.Initial;
    RecordIsGenuine(init, run, s, x);
    RecordIsGenuine(init, run, s, y);
    PartsOk(init, run, s);
    MessagesOk(s.ledger);
  }

  lemma PartsOk(init: Db, run: seq<Action>, s: State)
    requires LedgerSpec.Initial(init) && After(init, run) == Some(s)
    ensures LedgerInvariant.Inv(s.ledger) && Relay.Inv(s.relay) && Consumer.Inv(s.consumer)
    ensures Arrived(s.relay, s.ledger.db.messages, s.consumer.broker.entered)
    ensures Linked(s.ledger.db.messages, s.relay.rows, s.published, s.consumer.broker.entered)
  {
    hide After, LedgerInvariant.Inv, Relay.Inv, Consumer.Inv, Arrived, Linked, LedgerSpec.Initial;
    Invariant(init, run);
  }

  lemma StoryLimits(init: Db, run: seq<Action>, s: State, m: nat)
    requires LedgerSpec.Initial(init) && After(init, run) == Some(s)
    ensures Consumer.Count(s.consumer.attempts, m) <= 3 && Consumer.Count(s.consumer.successes, m) <= 1
  {
    hide After, LedgerInvariant.Inv, Relay.Inv, Arrived, Linked, LedgerSpec.Initial;
    PartsOk(init, run, s);
    assert Consumer.StoryOk(s.consumer, m);
  }

  /** What a merchant call carries is a paid order and the amount it was paid with. */
  lemma CallsCarryPaidAmount(init: Db, run: seq<Action>, s: State, ok: bool)
    requires LedgerSpec.Initial(init) && After(init, run) == Some(s)
    requires Enabled(s, Consume(Consumer.Attempt(ok)))
    ensures var b := s.consumer.cur.value.body;
            && LedgerSpec.IsPaid(s.ledger.db.orders, b.orderNo)
            && b.amountFen == s.ledger.db.orders[b.orderNo].totalAmountFen
  {
    hide After, LedgerInvariant.Inv, Relay.Inv, Arrived, LedgerSpec.Initial;
    hide Consumer.NumbersOk, Consumer.StoriesOk, Consumer.FromQueue, Consumer.AckOk, Consumer.DeadOk;
    PartsOk(init, run, s);
    MessagesOk(s.ledger);
    assert s.consumer.cur.value.body in s.consumer.broker.entered;
  }

  /** Where the one message of a paid order is. Pending on the way, given up by the relay after
      eight failed publishes, or in the queue; out of the queue, it is notified or failed unless
      its processing was interrupted. */
  lemma PaidOrderIsTracked(init: Db, run: seq<Action>, s: State, orderNo: nat)
    requires LedgerSpec.Initial(init) && After(init, run) == Some(s) && LedgerSpec.IsPaid(s.ledger.db.orders, orderNo)
    ensures exists m :: Tracks(s, orderNo, m)
  {
    hide After, LedgerInvariant.Inv, LedgerSpec.Initial, Tracks;
    hide Relay.Inv, Consumer.Inv, Arrived, Linked;
    PartsOk(init, run, s);
    MessagesOk(s.ledger);
    assert LedgerSpec.HasMessage(s.ledger.db.messages, orderNo);
    var m :| m in s.ledger.db.messages && s.ledger.db.messages[m].orderNo == orderNo;
    TracksMessage(s, m);
  }

  predicate Tracks(s: State, orderNo: nat, m: nat) {
    && m in s.ledger.db.messages && s.ledger.db.messages[m].orderNo == orderNo && m in s.relay.rows
    && (forall k :: k in s.ledger.db.messages && s.ledger.db.messages[k].orderNo == orderNo ==> k == m)
    && var b := Payload(s.ledger.db.messages, m);
       match s.relay.rows[m].status
       case Waiting => s.relay.rows[m].retryCount <= 7
       case GivenUp => Relay.Count(s.relay.failures, m) >= 8
       case Acked =>
         || b in s.consumer.broker.queue
         || (m in s.consumer.recs && (s.consumer.recs[m].status != Consumer.Pending <==> m !in s.consumer.interrupted))
  }

  lemma TracksMessage(s: State, m: nat)
    requires LedgerSpec.MessagesMatch(s.ledger.db.orders, s.ledger.db.messages) && m in s.ledger.db.messages
    requires Relay.Inv(s.relay) && Consumer.Inv(s.consumer)
    requires Arrived(s.relay, s.ledger.db.messages, s.consumer.broker.entered)
    requires Linked(s.ledger.db.messages, s.relay.rows, s.published, s.consumer.broker.entered)
    ensures Tracks(s, s.ledger.db.messages[m].orderNo, m)
  {
    hide Relay.SingleFlight, Relay.TasksOk, Relay.InDoubt, Relay.FailedInDoubt, Relay.Waited, Relay.Pause;
    hide Consumer.NumbersOk, Consumer.StoriesOk, Consumer.WorkOk, Consumer.FromQueue;
    assert Relay.RowOk(s.relay, m);
    var b := Payload(s.ledger.db.messages, m);
    if s.relay.rows[m].status == Relay.Acked && b !in s.consumer.broker.queue {
      assert HasEntered(m, s.ledger.db.messages, s.consumer.broker.entered);
      assert b in s.consumer.broker.acked || b in s.consumer.broker.dead;
    }
  }
}
