/** From payment to merchant: a paid order that has not been given up or interrupted can always still be
    notified, by steps of the relay and the consumer alone. */
module PipelineProgress {
  import opened Prelude
  import opened Tables
  import LedgerSpec
  import LedgerInvariant
  import Relay
  import RelayProgress
  import Consumer
  import ConsumerProgress
  import opened Pipeline

  /** Smooth steps of the relay and the consumer. */
  predicate Smooth(more: seq<Action>) {
    forall i :: 0 <= i < |more| ==>
      || (more[i].Relayed? && RelayProgress.Good(more[i].ra))
      || (more[i].Consume? && ConsumerProgress.Good(more[i].ca))
  }

  function OfRelay(more: seq<Relay.Action>): seq<Action> { seq(|more|, i requires 0 <= i < |more| => Relayed(more[i])) }

  function OfConsumer(more: seq<Consumer.Action>): seq<Action> {
    seq(|more|, i requires 0 <= i < |more| => Consume(more[i]))
  }

  lemma RelayStep(s: State, ra: Relay.Action)
    requires Relay.Enabled(s.relay, ra) && !ra.Store?
    ensures Enabled(s, Relayed(ra))
    ensures var s' := Next(s, Relayed(ra));
            s'.relay == Relay.Next(s.relay, ra) && s'.ledger == s.ledger && s'.consumer.recs == s.consumer.recs
  {
    hide Relay.Next, Sent;
  }

  lemma {:induction false} LiftRelay(init: Db, run: seq<Action>, s: State, more: seq<Relay.Action>)
    requires After(init, run) == Some(s) && RelayProgress.RunFrom(s.relay, more).Some? && RelayProgress.Smooth(more)
    ensures After(init, run + OfRelay(more)).Some?
    ensures var s' := After(init, run + OfRelay(more)).value;
            && s'.relay == RelayProgress.RunFrom(s.relay, more).value
            && s'.ledger == s.ledger && s'.consumer.recs == s.consumer.recs
    decreases |more|
  {
    hide Next, Enabled, Relay.Next, Relay.Enabled;
    var lifted := run + OfRelay(more);
    if more == [] {
      assert lifted == run;
    } else {
      var front := more[..|more|-1];
      assert lifted[..|lifted|-1] == run + OfRelay(front);
      assert lifted[|lifted|-1] == Relayed(more[|more|-1]);
      assert RelayProgress.Good(more[|more|-1]);
      LiftRelay(init, run, s, front);
      RelayStep(After(init, run + OfRelay(front)).value, more[|more|-1]);
    }
  }

  lemma {:induction false} LiftConsumer(init: Db, run: seq<Action>, s: State, more: seq<Consumer.Action>)
    requires After(init, run) == Some(s) && Consumer.After(s.consumer, more).Some?
    requires forall i :: 0 <= i < |more| ==> ConsumerProgress.Good(more[i])
    ensures After(init, run + OfConsumer(more)).Some?
    ensures After(init, run + OfConsumer(more)).value == s.(consumer := Consumer.After(s.consumer, more).value)
    decreases |more|
  {
    hide Consumer.Next, Consumer.Enabled, Next, Enabled;
    var lifted := run + OfConsumer(more);
    if more == [] {
      assert lifted == run;
    } else {
      var front := more[..|more|-1];
      assert lifted[..|lifted|-1] == run + OfConsumer(front);
      assert lifted[|lifted|-1] == Consume(more[|more|-1]);
      LiftConsumer(init, run, s, front);
      assert ConsumerProgress.Good(more[|more|-1]);
      ConsumerStep(After(init, run + OfConsumer(front)).value, more[|more|-1]);
    }
  }

  lemma ConsumerStep(s: State, ca: Consumer.Action)
    requires Consumer.Enabled(s.consumer, ca) && !ca.Enqueue?
    ensures Enabled(s, Consume(ca)) && Next(s, Consume(ca)) == s.(consumer := Consumer.Next(s.consumer, ca))
  {
    hide Consumer.Next, Sent;
  }

  /** A confirmed message without a record is in the queue. */
  lemma ConfirmedIsQueued(s: State, m: nat)
    requires Inv(s) && m in s.relay.rows && s.relay.rows[m].status == Relay.Acked && m !in s.consumer.recs
    ensures m in s.ledger.db.messages && ConsumerProgress.Untouched(s.consumer, Payload(s.ledger.db.messages, m))
  {
    assert HasEntered(m, s.ledger.db.messages, s.consumer.broker.entered);
    QueuedUnlessSettled(s.consumer, Payload(s.ledger.db.messages, m));
  }

  lemma QueuedUnlessSettled(s: Consumer.State, b: Consumer.Body)
    requires Consumer.Inv(s) && b.Notice? && b in s.broker.entered && b.msgId !in s.recs
    ensures ConsumerProgress.Untouched(s, b)
  {
    assert Consumer.StoryOk(s, b.msgId);
    assert b in s.broker.queue || b in s.broker.acked || b in s.broker.dead;
  }

  /** Not given up, and not about to be. */
  predicate StillAlive(relay: Relay.State, m: nat) {
    m in relay.rows && (relay.rows[m].status == Relay.Acked
      || (relay.rows[m].status == Relay.Waiting && !Relay.Stuck(relay) && !RelayProgress.LastFailure(relay, m)))
  }

  predicate NotifiedBy(init: Db, run: seq<Action>, more: seq<Action>, m: nat, orderNo: nat) {
    && Smooth(more) && After(init, run + more).Some?
    && var recs := After(init, run + more).value.consumer.recs;
       m in recs && recs[m].status == Consumer.Notified && recs[m].orderNo == orderNo
  }

  lemma RelayPhase(init: Db, run: seq<Action>, s: State, m: nat) returns (more: seq<Action>, s': State)
    requires LedgerSpec.Initial(init) && After(init, run) == Some(s) && StillAlive(s.relay, m)
    ensures Smooth(more) && After(init, run + more) == Some(s')
    ensures m in s'.relay.rows && s'.relay.rows[m].status == Relay.Acked
    ensures s'.ledger == s.ledger && s'.consumer.recs == s.consumer.recs
  {
    hide After, Relay.Inv, Consumer.Inv, LedgerInvariant.Inv, Arrived, Linked, Relay.Stuck;
    hide RelayProgress.LastFailure, RelayProgress.RunFrom, LedgerSpec.Initial;
    if s.relay.rows[m].status == Relay.Acked {
      assert run + [] == run;
      more, s' := [], s;
    } else {
      PartsOk(init, run, s);
      var steps, relay := RelayProgress.GetsThrough(s.relay, m);
      LiftRelay(init, run, s, steps);
      more, s' := OfRelay(steps), After(init, run + OfRelay(steps)).value;
    }
  }

  /** In every reachable state, a paid order whose message is confirmed, or waiting with the relay neither
      stuck nor at its eighth failure, and has no notify record yet, is notified by some continuation. */
  lemma PaidOrderCanBeNotified(init: Db, run: seq<Action>, s: State, m: nat)
    requires LedgerSpec.Initial(init) && After(init, run) == Some(s) && m in s.ledger.db.messages
    requires StillAlive(s.relay, m) && m !in s.consumer.recs
    ensures exists more :: NotifiedBy(init, run, more, m, s.ledger.db.messages[m].orderNo)
  {
    hide After, StillAlive, LedgerSpec.Initial, Inv, Consumer.Inv;
    var first, mid := RelayPhase(init, run, s, m);
    Invariant(init, run + first);
    ConfirmedIsQueued(mid, m);
    InvConsumer(mid);
    var steps, consumer := ConsumerProgress.GetsNotified(mid.consumer, Payload(mid.ledger.db.messages, m));
    LiftConsumer(init, run + first, mid, steps);
    var second := OfConsumer(steps);
    assert run + (first + second) == run + first + second;
    RecordIsGenuine(init, run + first + second, After(init, run + first + second).value, m);
    assert NotifiedBy(init, run, first + second, m, s.ledger.db.messages[m].orderNo);
  }

  lemma InvConsumer(s: State)
    requires Inv(s)
    ensures Consumer.Inv(s.consumer)
  {
  }
}
